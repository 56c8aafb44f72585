/** The values the servers hand back: configuration documents and template
    documents (which the source serialises with `JSON.stringify`), and the
    response envelope around them. */
module Documents {
  import opened Files

  /** One entry of `mcpServers`: a knowledge-graph memory server. */
  datatype Endpoint = Endpoint(
    name: string,
    command: string,
    args: seq<string>,
    memoryFilePath: string,
    autoapprove: seq<string>)

  /** An MCP configuration document: its `mcpServers` entries in key order. */
  datatype ConfigDoc = ConfigDoc(servers: seq<Endpoint>)

  /** The object `convertTemplateToJson` builds: `type`, `structure`,
      `instructions`. */
  datatype TemplateDoc = TemplateDoc(kind: string, structure: map<string, string>, instructions: string)

  /** The `text` of a response: a plain string, a serialised document,
      `JSON.stringify({ template })`, or `undefined`. */
  datatype Payload =
    | Text(text: string)
    | Config(config: ConfigDoc)
    | Template(template: TemplateDoc)
    | Wrapped(raw: string)
    | Undefined

  /** `{ content: [{ type: 'text', text }], isError }` with its single item. */
  datatype Envelope = Envelope(payload: Payload, isError: bool)

  /** A handler's response together with the file system it leaves. */
  datatype Outcome = Outcome(nodes: seq<Node>, response: Envelope)

  /** How every memory server is launched. */
  const MemoryServerCommand := "npx"
  const MemoryServerArgs := ["-y", "@modelcontextprotocol/server-memory"]

  /** The prefix that marks a diagnostic. */
  const FailureMark := "❌ "

  predicate Marked(p: Payload) {
    p.Text? && |FailureMark| <= |p.text| && p.text[..|FailureMark|] == FailureMark
  }

  /** The endpoint names of a configuration, in key order. */
  function Names(c: ConfigDoc): (r: seq<string>)
    ensures |r| == |c.servers|
    ensures forall k :: 0 <= k < |r| ==> r[k] == c.servers[k].name
  {
    seq(|c.servers|, k requires 0 <= k < |c.servers| => c.servers[k].name)
  }

  /** No two endpoints of a configuration share a storage file. */
  predicate StorageDistinct(c: ConfigDoc) {
    forall i, j :: 0 <= i < j < |c.servers| ==> c.servers[i].memoryFilePath != c.servers[j].memoryFilePath
  }

  /** Every endpoint permits exactly the operations `ops`. */
  predicate SharedOperations(c: ConfigDoc, ops: seq<string>) {
    forall k :: 0 <= k < |c.servers| ==> c.servers[k].autoapprove == ops
  }
}
