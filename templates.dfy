/** The template part of server.js: cutting one template out of the
    templates document (`extractTemplateSection`) and turning it into a
    structured document (`convertTemplateToJson`). */
module Templates {
  import opened Wrappers
  import opened Strings
  import opened Documents

  const CharacterStart := "## " + "Character Development Template"
  const WorldStart := "## " + "World Building Template"
  const PlotStart := "## " + "Plot Development Template"
  const QualityStart := "## " + "Quality Control Templates"

  /** The start and end markers of each template type. */
  function Markers(kind: string): Option<(string, string)>
  {
    if kind == "character" then Some((CharacterStart, WorldStart))
    else if kind == "world" then Some((WorldStart, PlotStart))
    else if kind == "plot" then Some((PlotStart, QualityStart))
    else None
  }

  /** A level-two heading marker: "## " and then a title without '#' that
      does not end in white space. */
  predicate HeadingMarker(m: string) {
    |m| >= 4 && m[..3] == "## " && '#' !in m[3..] && !IsSpace(m[|m| - 1])
  }

  lemma MarkersAreHeadings(kind: string)
    requires Markers(kind).Some?
    ensures var (a, b) := Markers(kind).value; HeadingMarker(a) && HeadingMarker(b) && a[3] != b[3]
  {
    var t1, t2, t3, t4 := "Character Development Template", "World Building Template",
                          "Plot Development Template", "Quality Control Templates";
    assert CharacterStart[3..] == t1 && CharacterStart[..3] == "## ";
    assert WorldStart[3..] == t2 && WorldStart[..3] == "## ";
    assert PlotStart[3..] == t3 && PlotStart[..3] == "## ";
    assert QualityStart[3..] == t4 && QualityStart[..3] == "## ";
  }

  /** Two heading markers whose first title letters differ cannot overlap:
      no occurrence of the second starts inside an occurrence of the first. */
  lemma HeadingsDisjoint(s: string, a: string, b: string, i: int)
    requires HeadingMarker(a) && HeadingMarker(b) && a[3] != b[3]
    requires OccursAt(s, a, i)
    ensures forall k :: i <= k < i + |a| ==> !OccursAt(s, b, k)
  {
    assert a[..3] == "## " && b[..3] == "## ";
    assert a[2] == ' ' && b[0] == '#' && b[1] == '#';
    forall k | i <= k < i + |a|
      ensures !OccursAt(s, b, k)
    {
      assert s[i..i + |a|] == a;
      if k == i {
        assert s[k + 3] == a[3];
      } else if k == i + 1 {
        assert s[k + 1] == a[2];
      } else if k == i + 2 {
        assert s[k] == a[2];
      } else {
        assert s[k] == a[k - i] == a[3..][k - i - 3];
      }
    }
  }

  function NotFoundText(kind: string): string {
    "Template for " + kind + " not found"
  }

  /** `ToolHandlers.extractTemplateSection(templates, type)`. */
  function ExtractTemplateSection(templates: string, kind: string): string
  {
    match Markers(kind)
    case None => ""
    case Some((start, end)) =>
      var i := IndexOf(templates, start, 0);
      if i == -1 then NotFoundText(kind)
      else
        var j := IndexOf(templates, end, i);
        Trim(if j == -1 then templates[i..] else templates[i..j])
  }

  /** Without the start marker, the section is the not-found text. */
  lemma ExtractNotFound(templates: string, kind: string)
    requires Markers(kind).Some?
    requires forall j :: !OccursAt(templates, Markers(kind).value.0, j)
    ensures ExtractTemplateSection(templates, kind) == NotFoundText(kind)
  {
  }

  /** With the start marker first at `i`, the section is the trimmed text
      from `i` up to the first end marker at or after `i`, or up to the end
      of the document when no end marker follows, even if one precedes. */
  lemma ExtractFound(templates: string, kind: string, i: int)
    requires Markers(kind).Some?
    requires OccursAt(templates, Markers(kind).value.0, i)
    requires forall j :: 0 <= j < i ==> !OccursAt(templates, Markers(kind).value.0, j)
    ensures var end := Markers(kind).value.1;
            && ((forall j :: i <= j ==> !OccursAt(templates, end, j)) ==>
                  ExtractTemplateSection(templates, kind) == Trim(templates[i..]))
            && (forall k :: (i <= k && OccursAt(templates, end, k)
                             && forall j :: i <= j < k ==> !OccursAt(templates, end, j)) ==>
                  ExtractTemplateSection(templates, kind) == Trim(templates[i..k]))
  {
    var start, end := Markers(kind).value.0, Markers(kind).value.1;
    IndexOfIs(templates, start, 0, i);
    var j := IndexOf(templates, end, i);
    assert ExtractTemplateSection(templates, kind) == Trim(if j == -1 then templates[i..] else templates[i..j]);
    forall k | i <= k && OccursAt(templates, end, k) && forall j' :: i <= j' < k ==> !OccursAt(templates, end, j')
      ensures j == k
    {
      IndexOfIs(templates, end, i, k);
    }
  }

  /** A slice that starts with an occurrence of `start` and fits no
      occurrence of `end` begins with `start` and does not contain `end`. */
  lemma SliceShape(s: string, start: string, end: string, i: nat, hi: nat)
    requires OccursAt(s, start, i) && i + |start| <= hi <= |s|
    requires forall j :: i <= j && j + |end| <= hi ==> !OccursAt(s, end, j)
    ensures s[i..hi][..|start|] == start && !Contains(s[i..hi], end)
  {
    assert s[i..hi][..|start|] == s[i..i + |start|];
    NoOccurrenceInSlice(s, end, i, hi);
  }

  /** The untrimmed section from the first start marker at `i` begins with
      that marker and holds no end marker. */
  lemma SectionShape(templates: string, start: string, end: string, i: nat)
    requires HeadingMarker(start) && HeadingMarker(end) && start[3] != end[3]
    requires OccursAt(templates, start, i)
    ensures var j := IndexOf(templates, end, i);
            var sec := if j == -1 then templates[i..] else templates[i..j];
            |start| <= |sec| && sec[..|start|] == start && !Contains(sec, end)
  {
    var j := IndexOf(templates, end, i);
    HeadingsDisjoint(templates, start, end, i);
    if j != -1 {
      SliceShape(templates, start, end, i, j);
    } else {
      SliceShape(templates, start, end, i, |templates|);
      assert templates[i..] == templates[i..|templates|];
    }
  }

  /** A found section begins with its start marker and holds no end marker. */
  lemma ExtractShape(templates: string, kind: string)
    requires Markers(kind).Some?
    requires Contains(templates, Markers(kind).value.0)
    ensures var start := Markers(kind).value.0;
            var r := ExtractTemplateSection(templates, kind);
            && |start| <= |r| && r[..|start|] == start
            && !Contains(r, Markers(kind).value.1)
  {
    var start, end := Markers(kind).value.0, Markers(kind).value.1;
    MarkersAreHeadings(kind);
    var i := IndexOf(templates, start, 0);
    var j := IndexOf(templates, end, i);
    var sec := if j == -1 then templates[i..] else templates[i..j];
    SectionShape(templates, start, end, i);
    assert start[0] == start[..3][0];
    TrimKeepsPrefix(sec, start);
    TrimNoOccurrence(sec, end);
  }

  /** The key a `###` chunk contributes: its trimmed first line. */
  function Title(section: string): string {
    Trim(Split(Trim(section), "\n")[0])
  }

  /** The value a `###` chunk contributes: its remaining lines, trimmed. */
  function Body(section: string): string {
    Trim(JoinWith(Split(Trim(section), "\n")[1..], "\n"))
  }

  /** Title and value are the trimmed text before and after the first line
      break of the trimmed chunk. */
  lemma SectionLines(section: string)
    ensures var t := Trim(section);
            var i := IndexOf(t, "\n", 0);
            && Title(section) == Trim(if i == -1 then t else t[..i])
            && Body(section) == Trim(if i == -1 then "" else t[i + 1..])
  {
    SplitFirst(Trim(section), "\n");
  }

  /** The chunks after the first `###` split. */
  function Sections(content: string): seq<string> {
    Split(content, "###")[1..]
  }

  /** The key and value one `###` chunk contributes. */
  function Entry(section: string): (string, string) {
    (Title(section), Body(section))
  }

  /** The object that results from assigning `entries` in order to an
      empty one. */
  function Assign(entries: seq<(string, string)>): map<string, string>
  {
    if entries == [] then map[]
    else
      var last := entries[|entries| - 1];
      Assign(entries[..|entries| - 1])[last.0 := last.1]
  }

  /** The `structure` object after assigning every chunk in order. */
  function Structure(sections: seq<string>): map<string, string>
  {
    Assign(seq(|sections|, k requires 0 <= k < |sections| => Entry(sections[k])))
  }

  function TemplateStructure(content: string): map<string, string> {
    Structure(Sections(content))
  }

  function Instructions(kind: string): string {
    "Complete " + kind + " template following Digital Muse Protocol guidelines"
  }

  /** One key per assigned entry, and no other key. */
  lemma {:induction false} AssignKeys(entries: seq<(string, string)>)
    ensures forall key :: key in Assign(entries) <==> exists k :: 0 <= k < |entries| && entries[k].0 == key
  {
    if entries != [] {
      var init := entries[..|entries| - 1];
      AssignKeys(init);
      forall key
        ensures key in Assign(entries) <==> exists k :: 0 <= k < |entries| && entries[k].0 == key
      {
        if key in Assign(init) {
          var k :| 0 <= k < |init| && init[k].0 == key;
          assert entries[k] == init[k];
        }
        if exists k :: 0 <= k < |entries| && entries[k].0 == key {
          var k :| 0 <= k < |entries| && entries[k].0 == key;
          if k < |init| {
            assert init[k] == entries[k];
          }
        }
      }
    }
  }

  /** A key holds the value of the last entry with that key. */
  lemma {:induction false} AssignLastWins(entries: seq<(string, string)>, j: int)
    requires 0 <= j < |entries|
    requires forall k :: j < k < |entries| ==> entries[k].0 != entries[j].0
    ensures entries[j].0 in Assign(entries) && Assign(entries)[entries[j].0] == entries[j].1
  {
    if j < |entries| - 1 {
      var init := entries[..|entries| - 1];
      assert init[j] == entries[j];
      forall k | j < k < |init| ensures init[k].0 != init[j].0 {
        assert init[k] == entries[k];
      }
      AssignLastWins(init, j);
    }
  }

  /** The structure has one key per chunk title, and no other key. */
  lemma StructureKeys(sections: seq<string>)
    ensures forall key :: key in Structure(sections) <==> exists k :: 0 <= k < |sections| && Title(sections[k]) == key
  {
    var entries := seq(|sections|, k requires 0 <= k < |sections| => Entry(sections[k]));
    AssignKeys(entries);
    assert forall k :: 0 <= k < |sections| ==> entries[k].0 == Title(sections[k]);
  }

  /** A title holds the body of the last chunk with that title. */
  lemma StructureLastWins(sections: seq<string>, j: int)
    requires 0 <= j < |sections|
    requires forall k :: j < k < |sections| ==> Title(sections[k]) != Title(sections[j])
    ensures Title(sections[j]) in Structure(sections)
    ensures Structure(sections)[Title(sections[j])] == Body(sections[j])
  {
    var entries := seq(|sections|, k requires 0 <= k < |sections| => Entry(sections[k]));
    assert forall k :: 0 <= k < |sections| ==> entries[k] == Entry(sections[k]);
    AssignLastWins(entries, j);
  }

  /** `ToolHandlers.convertTemplateToJson(templateContent, type)`, before
      serialisation. */
  method ConvertTemplateToJson(content: string, kind: string) returns (t: TemplateDoc)
    ensures t == TemplateDoc(kind, TemplateStructure(content), Instructions(kind))
  {
    var sections := Split(content, "###")[1..];
    ghost var entries := seq(|sections|, k requires 0 <= k < |sections| => Entry(sections[k]));
    var structure: map<string, string> := map[];
    var i := 0;
    while i < |sections|
      invariant 0 <= i <= |sections|
      invariant structure == Assign(entries[..i])
    {
      assert entries[..i + 1][..i] == entries[..i];
      structure := structure[Title(sections[i]) := Body(sections[i])];
      i := i + 1;
    }
    assert entries[..|sections|] == entries;
    t := TemplateDoc(kind, structure, Instructions(kind));
  }
}
