/** `FileUtils` of server.js: reads from the content repository with an
    optional fallback, directory creation with a wrapped message, and the
    success and error envelopes. */
module FileUtils {
  import opened Wrappers
  import opened Files
  import opened Documents

  /** The methodology documents under the server's own directory, by their
      relative path; an unreadable one fails with `readError`. */
  datatype ContentStore = ContentStore(files: map<string, string>, readError: string)

  /** JavaScript truthiness of a value passed as `fallback`. */
  predicate Truthy(p: Payload) {
    match p
    case Text(s) => s != ""
    case Undefined => false
    case _ => true
  }

  function ReadFailedMessage(key: string, cause: string): string {
    "Failed to read file " + key + ": " + cause
  }

  /** `FileUtils.safeReadFile(filePath, fallback)`. */
  function SafeReadFile(store: ContentStore, key: string, fallback: Option<Payload>): (r: Result<Payload, string>)
    ensures key in store.files ==> r == Success(Text(store.files[key]))
    ensures r.Failure? <==> key !in store.files && !(fallback.Some? && Truthy(fallback.value))
    ensures key !in store.files && r.Success? ==> r.value == fallback.value
    ensures r.Failure? ==> r.error == ReadFailedMessage(key, store.readError)
  {
    if key in store.files then Success(Text(store.files[key]))
    else if fallback.Some? && Truthy(fallback.value) then Success(fallback.value)
    else Failure(ReadFailedMessage(key, store.readError))
  }

  /** `FileUtils.createSuccessResponse(content)`. */
  function CreateSuccessResponse(content: Payload): (r: Envelope)
    ensures !r.isError && r.payload == content
  {
    Envelope(content, false)
  }

  /** `FileUtils.createErrorResponse(message, details)`: the details follow
      a blank line, and only when they are non-empty. */
  function CreateErrorResponse(message: string, details: string): (r: Envelope)
    ensures r.isError && Marked(r.payload)
    ensures details == "" ==> r.payload.text == FailureMark + message
    ensures details != "" ==> r.payload.text == FailureMark + message + "\n\n" + details
  {
    Envelope(Text(if details != "" then FailureMark + message + "\n\n" + details else FailureMark + message), true)
  }

  function DirectoryFailedMessage(dirPath: string, cause: string): string {
    "Failed to create directory " + dirPath + ": " + cause
  }

  /** `FileUtils.ensureDirectory(dirPath)`; `err` is the thrown message. */
  method EnsureDirectory(fs: FileSystem, dirPath: string) returns (err: Option<string>)
    requires fs.Valid()
    modifies fs
    ensures fs.Valid()
    ensures match Mkdir(old(fs.nodes), fs.failing, dirPath)
            case Success(ns) => err == None && fs.nodes == ns
            case Failure(m) => err == Some(DirectoryFailedMessage(dirPath, m)) && fs.nodes == old(fs.nodes)
  {
    var e := fs.MakeDirectory(dirPath);
    if e.Some? {
      err := Some(DirectoryFailedMessage(dirPath, e.value));
    } else {
      err := None;
    }
  }
}
