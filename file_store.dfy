/** An abstract model of the file-store collaborator (`sourceFileApi`) that the
    tab store awaits: an existence check, a read, a write and an interactive
    folder prompt, each of which may fail.  Its internals are not modelled; what
    it answers is fixed by an explicit state value, and every call it receives is
    appended to a log so that the store's contracts can say which calls happen. */
module FileStore {
  import opened Wrappers

  /** A rejected promise: a file-store failure carrying its message, or the
      store's own tagged error (`CustomError` with a numeric code). */
  datatype Error = IoError(message: string) | CustomError(code: int, message: string)

  /** One call received by the file store. */
  datatype Call =
    | ExistsCall(path: string)
    | ReadCall(path: string)
    | SaveCall(path: string, content: string)
    | SelectFolderCall

  /** What the file store knows: the existing files and their contents, the
      paths whose existence check, read or write fails (with the failure's
      message), and the answer the folder prompt gives (a folder, possibly
      empty, or a failure message). */
  datatype FsState = FsState(
    files: map<string, string>,
    existsFaults: map<string, string>,
    readFaults: map<string, string>,
    writeFaults: map<string, string>,
    folderReply: Result<string, string>)

  /** Message of a read of a path that does not exist; the real message is the
      collaborator's own. */
  const MissingFileMessage := "file not found"

  function ExistsReply(s: FsState, path: string): (r: Result<bool, Error>)
    ensures r.Success? ==> (r.value <==> path in s.files)
  {
    if path in s.existsFaults then Failure(IoError(s.existsFaults[path]))
    else Success(path in s.files)
  }

  function ReadReply(s: FsState, path: string): (r: Result<string, Error>)
    ensures r.Success? ==> path in s.files && r.value == s.files[path]
  {
    if path in s.readFaults then Failure(IoError(s.readFaults[path]))
    else if path in s.files then Success(s.files[path])
    else Failure(IoError(MissingFileMessage))
  }

  function SaveReply(s: FsState, path: string): Result<(), Error>
  {
    if path in s.writeFaults then Failure(IoError(s.writeFaults[path])) else Success(())
  }

  function FolderReply(s: FsState): Result<string, Error>
  {
    match s.folderReply
    case Success(folder) => Success(folder)
    case Failure(message) => Failure(IoError(message))
  }

  /** The file store as the tab store sees it: its state changes only by a
      successful write, and it records every call. */
  class FileApi {
    var state: FsState
    var calls: seq<Call>

    constructor (initial: FsState)
      ensures state == initial && calls == []
    {
      state := initial;
      calls := [];
    }

    method Exists(path: string) returns (r: Result<bool, Error>)
      modifies this`calls
      ensures r == ExistsReply(state, path)
      ensures calls == old(calls) + [ExistsCall(path)]
    {
      r := ExistsReply(state, path);
      calls := calls + [ExistsCall(path)];
    }

    method ReadFile(path: string) returns (r: Result<string, Error>)
      modifies this`calls
      ensures r == ReadReply(state, path)
      ensures calls == old(calls) + [ReadCall(path)]
    {
      r := ReadReply(state, path);
      calls := calls + [ReadCall(path)];
    }

    method SaveFile(path: string, content: string) returns (r: Result<(), Error>)
      modifies this
      ensures r == SaveReply(old(state), path)
      ensures state == if r.Success? then old(state).(files := old(state).files[path := content]) else old(state)
      ensures calls == old(calls) + [SaveCall(path, content)]
    {
      r := SaveReply(state, path);
      if r.Success? {
        state := state.(files := state.files[path := content]);
      }
      calls := calls + [SaveCall(path, content)];
    }

    method SelectFolder() returns (r: Result<string, Error>)
      modifies this`calls
      ensures r == FolderReply(state)
      ensures calls == old(calls) + [SelectFolderCall]
    {
      r := FolderReply(state);
      calls := calls + [SelectFolderCall];
    }
  }
}
