/** The panel (tab) session store: an ordered list of open panels and the
    active one, with the six actions that open, probe, close, select, save and
    reset panels against the file store. */
module TabStore {
  import opened Wrappers
  import opened FileStore
  import opened Decimal

  /** A database connection, as far as the store looks at it. */
  datatype Connection = Connection(id: int, name: string)

  /** The argument of establishPanel: a file path or a connection. */
  datatype Target = FilePath(path: string) | ConnectionOf(connection: Connection)

  const HomeId := 0
  const HomeName := "home"
  const SearchExtension := ".search"
  const DockitPrefix := ".dockit/"
  const NotFoundCode := 404
  const FolderNotFound := "Folder not found"
  const InternalCode := 500

  /** One open panel.  Only `file` and `content` are ever written after
      creation, and they are written on the shared object, so the change is
      seen by every reference to it. */
  class Panel {
    const id: int
    const name: string
    const connection: Option<Connection>
    var file: string
    var content: Option<string>

    constructor (id: int, name: string, connection: Option<Connection>, file: string, content: Option<string>)
      ensures this.id == id && this.name == name && this.connection == connection
      ensures this.file == file && this.content == content
    {
      this.id := id;
      this.name := name;
      this.connection := connection;
      this.file := file;
      this.content := content;
    }
  }

  // ---------------------------------------------------------------------
  // Lookups and string building

  /** `panels.find(p => p.file === file)`, as the index of the first match, or -1. */
  function FirstWithFile(panels: seq<Panel>, file: string): (i: int)
    reads panels
    ensures -1 <= i < |panels|
    ensures i >= 0 ==> panels[i].file == file
    ensures i >= 0 ==> forall j :: 0 <= j < i ==> panels[j].file != file
    ensures i == -1 ==> forall j :: 0 <= j < |panels| ==> panels[j].file != file
    decreases |panels|
  {
    if |panels| == 0 then -1
    else if panels[0].file == file then 0
    else
      var k := FirstWithFile(panels[1..], file);
      if k < 0 then -1 else k + 1
  }

  /** `panels.findIndex(p => p.id === id)`: the first index with that id, or -1;
      `panels.find` by id picks the panel at the same index. */
  function FirstWithId(panels: seq<Panel>, id: int): (i: int)
    ensures -1 <= i < |panels|
    ensures i >= 0 ==> panels[i].id == id
    ensures i >= 0 ==> forall j :: 0 <= j < i ==> panels[j].id != id
    ensures i == -1 ==> forall j :: 0 <= j < |panels| ==> panels[j].id != id
    decreases |panels|
  {
    if |panels| == 0 then -1
    else if panels[0].id == id then 0
    else
      var k := FirstWithId(panels[1..], id);
      if k < 0 then -1 else k + 1
  }

  /** No panel object occurs twice in the list. */
  ghost predicate Distinct(panels: seq<Panel>)
  {
    forall i, j :: 0 <= i < j < |panels| ==> panels[i] != panels[j]
  }

  /** `p.connection?.id === id`. */
  predicate BoundTo(p: Panel, id: int)
  {
    p.connection.Some? && p.connection.value.id == id
  }

  /** The length of `panels.filter(p => p.connection?.id === id)`. */
  function SameConnectionCount(panels: seq<Panel>, id: int): (n: nat)
    ensures n <= |panels|
    ensures n == 0 <==> forall j :: 0 <= j < |panels| ==> !BoundTo(panels[j], id)
    ensures n == |panels| <==> forall j :: 0 <= j < |panels| ==> BoundTo(panels[j], id)
    decreases |panels|
  {
    if |panels| == 0 then 0
    else
      var init := panels[..|panels| - 1];
      assert forall j :: 0 <= j < |init| ==> init[j] == panels[j];
      SameConnectionCount(init, id) + (if BoundTo(panels[|panels| - 1], id) then 1 else 0)
  }

  /** `panels.filter(p => p.connection?.id === id)`, front to back. */
  function BoundPanels(panels: seq<Panel>, id: int): (r: seq<Panel>)
    ensures forall q :: q in r ==> q in panels && BoundTo(q, id)
  {
    if |panels| == 0 then []
    else (if BoundTo(panels[0], id) then [panels[0]] else []) + BoundPanels(panels[1..], id)
  }

  /** The default file name of a new panel for a connection called `name` when
      `count` open panels are already bound to that connection. */
  function CandidateFileName(name: string, count: nat): (r: string)
    ensures |r| >= |name| + |SearchExtension| && r[..|name|] == name
    ensures r[|r| - |SearchExtension|..] == SearchExtension
    ensures count == 0 <==> r == name + SearchExtension
  {
    if count == 0 then name + SearchExtension
    else name + "-" + NatToString(count) + SearchExtension
  }

  /** `panel.content || ''`. */
  function ContentOrEmpty(content: Option<string>): string
  {
    if content.Some? then content.value else ""
  }

  /** Where `splice(start, 1)` starts on an array of length n: a negative start
      counts back from the end, and the result is clamped to [0, n]. */
  function SpliceStart(n: nat, start: int): (k: nat)
    ensures k <= n
    ensures 0 <= start <= n ==> k == start
    ensures -(n as int) <= start < 0 ==> k == n + start
  {
    if start < 0 then (if n + start < 0 then 0 else n + start)
    else if start > n then n
    else start
  }

  /** `s.splice(start, 1)`: the sequence left after removing the element at
      SpliceStart(|s|, start), if there is one. */
  function SpliceOne<T>(s: seq<T>, start: int): (r: seq<T>)
    ensures |r| == if SpliceStart(|s|, start) < |s| then |s| - 1 else |s|
    ensures forall j :: 0 <= j < |r| && j < SpliceStart(|s|, start) ==> r[j] == s[j]
    ensures forall j :: SpliceStart(|s|, start) <= j < |r| ==> r[j] == s[j + 1]
  {
    var k := SpliceStart(|s|, start);
    if k < |s| then s[..k] + s[k + 1..] else s
  }

  /** `panels[Math.min(removed, panels.length - 1)]` on the panels left after a
      removal; an index outside the list reads as `undefined` (null). */
  function ActiveAfterClose(panels: seq<Panel>, removed: int): (a: Panel?)
    ensures a != null <==> 0 <= removed && |panels| > 0
    ensures a != null ==> a == panels[if removed < |panels| then removed else |panels| - 1]
  {
    var k := if removed < |panels| - 1 then removed else |panels| - 1;
    if 0 <= k < |panels| then panels[k] else null
  }

  // ---------------------------------------------------------------------
  // File-store runs of establishPanel (connection case) and saveContent,
  // as functions of the file store's state before the action

  /** The file and content a connection panel starts with. */
  datatype Resolution = Resolution(file: string, content: string)

  /** The calls made while resolving, and the outcome. */
  datatype ResolveRun = ResolveRun(calls: seq<Call>, result: Result<Resolution, Error>)

  /** A read that ends the resolution: its reply becomes the outcome, under
      the path that was read. */
  function ReadInto(calls: seq<Call>, reply: Result<string, Error>, path: string): (r: ResolveRun)
    ensures r.calls == calls
    ensures r.result.Success? <==> reply.Success?
    ensures reply.Success? ==> r.result.value == Resolution(path, reply.value)
    ensures reply.Failure? ==> r.result.error == reply.error
  {
    match reply
    case Failure(e) => ResolveRun(calls, Failure(e))
    case Success(text) => ResolveRun(calls, Success(Resolution(path, text)))
  }

  /** Content resolution for a connection panel whose candidate name is
      `candidate`: the top-level file, else the file under `.dockit/`, else the
      default snippet under the unprefixed name. */
  function ResolveRunOf(s: FsState, candidate: string, snippet: string): (r: ResolveRun)
    ensures 1 <= |r.calls| <= 3 && r.calls[0] == ExistsCall(candidate)
    ensures r.result.Success? ==> r.calls[|r.calls| - 1] == ReadCall(r.result.value.file) || r.result.value == Resolution(candidate, snippet)
    ensures forall c :: c in r.calls ==> !c.SaveCall? && !c.SelectFolderCall?
  {
    match ExistsReply(s, candidate)
    case Failure(e) => ResolveRun([ExistsCall(candidate)], Failure(e))
    case Success(found) =>
      if found then
        ReadInto([ExistsCall(candidate), ReadCall(candidate)], ReadReply(s, candidate), candidate)
      else
        var prefixed := DockitPrefix + candidate;
        var calls := [ExistsCall(candidate), ExistsCall(prefixed)];
        match ExistsReply(s, prefixed)
        case Failure(e) => ResolveRun(calls, Failure(e))
        case Success(foundPrefixed) =>
          if foundPrefixed then ReadInto(calls + [ReadCall(prefixed)], ReadReply(s, prefixed), prefixed)
          else ResolveRun(calls, Success(Resolution(candidate, snippet)))
  }

  /** The calls saveContent makes, the panel's file afterwards, the outcome
      and the file store's state afterwards. */
  datatype SaveRun = SaveRun(calls: seq<Call>, file: string, result: Result<(), Error>, after: FsState)

  /** The tail of saveContent once the path is settled: the path is committed
      to the panel, and written only if it exists. */
  function CommitRun(s: FsState, calls: seq<Call>, path: string, content: string): (r: SaveRun)
    ensures r.file == path
    ensures |calls| < |r.calls| <= |calls| + 2 && r.calls[..|calls|] == calls && r.calls[|calls|] == ExistsCall(path)
    ensures r.after == s || (path in s.files && r.after == s.(files := s.files[path := content]))
    ensures r.after != s ==> r.result.Success? && r.calls == calls + [ExistsCall(path), SaveCall(path, content)]
  {
    var probed := calls + [ExistsCall(path)];
    match ExistsReply(s, path)
    case Failure(e) => SaveRun(probed, path, Failure(e), s)
    case Success(found) =>
      if !found then SaveRun(probed, path, Success(()), s)
      else
        match SaveReply(s, path)
        case Failure(e) => SaveRun(probed + [SaveCall(path, content)], path, Failure(e), s)
        case Success(_) => SaveRun(probed + [SaveCall(path, content)], path, Success(()), s.(files := s.files[path := content]))
  }

  /** saveContent on a panel whose file is `file`. */
  function SaveRunOf(s: FsState, file: string, content: string, validate: bool): (r: SaveRun)
    ensures 1 <= |r.calls| <= 4 && r.calls[0] == ExistsCall(file)
    ensures r.file == file || (validate && SelectFolderCall in r.calls && r.calls[1] == SelectFolderCall)
    ensures !validate ==> SelectFolderCall !in r.calls
  {
    var probed := [ExistsCall(file)];
    match ExistsReply(s, file)
    case Failure(e) => SaveRun(probed, file, Failure(e), s)
    case Success(found) =>
      if !found && validate then
        var prompted := probed + [SelectFolderCall];
        match FolderReply(s)
        case Failure(e) => SaveRun(prompted, file, Failure(e), s)
        case Success(folder) =>
          var path := folder + "/" + file;
          if path == "" then SaveRun(prompted, file, Failure(CustomError(NotFoundCode, FolderNotFound)), s)
          else CommitRun(s, prompted, path, content)
      else CommitRun(s, probed, file, content)
  }

  // ---------------------------------------------------------------------
  // The store

  class Store {
    var panels: seq<Panel>
    var activePanel: Panel?
    /** The default code snippet a connection panel starts with. */
    const snippet: string

    /** No panel object is listed twice: the actions keep this, and it is what
        makes a close take exactly one panel object out of the list. */
    ghost predicate Valid()
      reads this
    {
      Distinct(panels)
    }

    /** The initial state: the home panel alone, and active. */
    constructor (snippet: string)
      ensures Valid() && this.snippet == snippet
      ensures |panels| == 1 && activePanel == panels[0] && fresh(activePanel)
      ensures activePanel.id == HomeId && activePanel.name == HomeName && activePanel.connection == None
      ensures activePanel.file == "" && activePanel.content == None
    {
      this.snippet := snippet;
      var home := new Panel(HomeId, HomeName, None, "", None);
      panels := [home];
      activePanel := home;
    }

    /** The panel an action works on: the one given, else the active one. */
    function TargetOf(panel: Panel?): Panel?
      reads this
    {
      if panel != null then panel else activePanel
    }

    /** A fresh panel with these fields was appended and made active. */
    twostate predicate Appended(id: int, name: string, connection: Option<Connection>, file: string, content: string)
      reads this, activePanel
    {
      && activePanel != null && fresh(activePanel)
      && panels == old(panels) + [activePanel]
      && activePanel.id == id && activePanel.name == name && activePanel.connection == connection
      && activePanel.file == file && activePanel.content == Some(content)
    }

    /** The panel with id `id` was closed: the first entry with that id is
        spliced out (the last entry, when no entry has it), and if the active
        panel has that id the active panel moves to the entry now at the removed
        index, or to the new last one. */
    twostate predicate ClosedById(id: int)
      reads this
    {
      var i := FirstWithId(old(panels), id);
      && panels == SpliceOne(old(panels), i)
      && activePanel == if old(activePanel) != null && old(activePanel).id == id
                        then ActiveAfterClose(panels, i) else old(activePanel)
    }

    /** establishPanel: focus the open panel of a file, or open the file, or
        open a new panel for a connection. */
    method EstablishPanel(target: Target, fs: FileApi) returns (r: Result<(), Error>)
      requires Valid()
      modifies this, fs`calls
      ensures Valid()
      ensures target.FilePath? && old(FirstWithFile(panels, target.path)) >= 0 ==>
        && r == Success(())
        && panels == old(panels)
        && activePanel == old(panels[FirstWithFile(panels, target.path)])
        && fs.calls == old(fs.calls)
      ensures target.FilePath? && old(FirstWithFile(panels, target.path)) < 0 ==>
        && fs.calls == old(fs.calls) + [ReadCall(target.path)]
        && match ReadReply(fs.state, target.path)
           case Failure(e) => r == Failure(e) && panels == old(panels) && activePanel == old(activePanel)
           case Success(text) =>
             r == Success(()) && Appended(|old(panels)| + 1, target.path, None, target.path, text)
      ensures target.ConnectionOf? ==>
        var c := target.connection;
        var run := ResolveRunOf(fs.state, CandidateFileName(c.name, SameConnectionCount(old(panels), c.id)), snippet);
        && fs.calls == old(fs.calls) + run.calls
        && match run.result
           case Failure(e) => r == Failure(e) && panels == old(panels) && activePanel == old(activePanel)
           case Success(res) =>
             r == Success(()) && Appended(|old(panels)| + 1, res.file, Some(c), res.file, res.content)
    {
      match target
      case FilePath(path) =>
        var i := FirstWithFile(panels, path);
        if i >= 0 {
          activePanel := panels[i];
          return Success(());
        }
        var read := fs.ReadFile(path);
        if read.Failure? {
          return Failure(read.error);
        }
        var p := new Panel(|panels| + 1, path, None, path, Some(read.value));
        panels := panels + [p];
        activePanel := p;
        r := Success(());
      case ConnectionOf(c) =>
        var fileName := CandidateFileName(c.name, SameConnectionCount(panels, c.id));
        var content := snippet;
        var found := fs.Exists(fileName);
        if found.Failure? {
          return Failure(found.error);
        }
        if found.value {
          var read := fs.ReadFile(fileName);
          if read.Failure? {
            return Failure(read.error);
          }
          content := read.value;
        } else {
          var foundPrefixed := fs.Exists(DockitPrefix + fileName);
          if foundPrefixed.Failure? {
            return Failure(foundPrefixed.error);
          }
          if foundPrefixed.value {
            fileName := DockitPrefix + fileName;
            var read := fs.ReadFile(fileName);
            if read.Failure? {
              return Failure(read.error);
            }
            content := read.value;
          }
        }
        var p := new Panel(|panels| + 1, fileName, Some(c), fileName, Some(content));
        panels := panels + [p];
        activePanel := p;
        r := Success(());
    }

    /** checkFileExists: whether the target panel's file exists; the file
        store's failure is passed through unchanged. */
    method CheckFileExists(panel: Panel?, fs: FileApi) returns (r: Result<bool, Error>)
      modifies fs`calls
      ensures TargetOf(panel) == null ==> r == Success(false) && fs.calls == old(fs.calls)
      ensures TargetOf(panel) != null ==>
        && r == ExistsReply(fs.state, TargetOf(panel).file)
        && fs.calls == old(fs.calls) + [ExistsCall(TargetOf(panel).file)]
    {
      var checkPanel := TargetOf(panel);
      if checkPanel == null {
        return Success(false);
      }
      r := fs.Exists(checkPanel.file);
    }

    /** saveContent: commit the content to the target panel, rewrite its path
        after a folder prompt when asked to and the file is missing, and write
        only to a path that exists. */
    method SaveContent(panel: Panel?, content: string, validateFilePath: bool, fs: FileApi) returns (r: Result<(), Error>)
      modifies fs, TargetOf(panel)
      ensures TargetOf(panel) == null ==>
        r == Success(()) && fs.calls == old(fs.calls) && fs.state == old(fs.state)
      ensures TargetOf(panel) != null ==>
        var run := SaveRunOf(old(fs.state), old(TargetOf(panel).file), content, validateFilePath);
        && TargetOf(panel).content == Some(content)
        && TargetOf(panel).file == run.file
        && fs.calls == old(fs.calls) + run.calls
        && fs.state == run.after
        && r == run.result
    {
      var checkPanel := TargetOf(panel);
      if checkPanel == null {
        return Success(());
      }
      checkPanel.content := Some(content);
      var filePath := checkPanel.file;
      var found := fs.Exists(filePath);
      if found.Failure? {
        return Failure(found.error);
      }
      if !found.value && validateFilePath {
        var folder := fs.SelectFolder();
        if folder.Failure? {
          return Failure(folder.error);
        }
        filePath := folder.value + "/" + filePath;
        if filePath == "" {
          return Failure(CustomError(NotFoundCode, FolderNotFound));
        }
      }
      checkPanel.file := filePath;
      var stillThere := fs.Exists(filePath);
      if stillThere.Failure? {
        return Failure(stillThere.error);
      }
      if stillThere.value {
        var saved := fs.SaveFile(filePath, content);
        if saved.Failure? {
          return Failure(saved.error);
        }
      }
      r := Success(());
    }

    /** closePanel: optionally save first (a failed save aborts the close and
        is re-tagged with code 500), then remove the panel by id and move the
        active panel if it was the one closed. */
    method ClosePanel(panel: Panel?, saveFile: bool, fs: FileApi) returns (r: Result<(), Error>)
      requires Valid()
      modifies this, fs, panel
      ensures Valid()
      ensures panel == null ==>
        && r == Success(()) && panels == old(panels) && activePanel == old(activePanel)
        && fs.calls == old(fs.calls) && fs.state == old(fs.state)
      ensures panel != null && !saveFile ==>
        && r == Success(()) && ClosedById(panel.id)
        && fs.calls == old(fs.calls) && fs.state == old(fs.state)
        && panel.file == old(panel.file) && panel.content == old(panel.content)
      ensures panel != null && saveFile ==>
        var run := SaveRunOf(old(fs.state), old(panel.file), ContentOrEmpty(old(panel.content)), true);
        && panel.content == Some(ContentOrEmpty(old(panel.content)))
        && panel.file == run.file
        && fs.calls == old(fs.calls) + run.calls
        && fs.state == run.after
        && match run.result
           case Failure(e) =>
             r == Failure(CustomError(InternalCode, e.message)) && panels == old(panels) && activePanel == old(activePanel)
           case Success(_) => r == Success(()) && ClosedById(panel.id)
    {
      if panel == null {
        return Success(());
      }
      if saveFile {
        var saved := SaveContent(panel, ContentOrEmpty(panel.content), true, fs);
        if saved.Failure? {
          return Failure(CustomError(InternalCode, saved.error.message));
        }
      }
      var selectedIndex := FirstWithId(panels, panel.id);
      panels := SpliceOne(panels, selectedIndex);
      if activePanel != null && panel.id == activePanel.id {
        activePanel := ActiveAfterClose(panels, selectedIndex);
      }
      r := Success(());
    }

    /** setActivePanel: the first panel with that id becomes active; an
        unknown id changes nothing. */
    method SetActivePanel(panelId: int)
      modifies this`activePanel
      ensures FirstWithId(panels, panelId) >= 0 ==> activePanel == panels[FirstWithId(panels, panelId)]
      ensures FirstWithId(panels, panelId) < 0 ==> activePanel == old(activePanel)
    {
      var i := FirstWithId(panels, panelId);
      if i < 0 {
        return;
      }
      activePanel := panels[i];
    }

    /** loadDefaultSnippet: reset the active panel's content. */
    method LoadDefaultSnippet()
      modifies activePanel
      ensures activePanel != null ==> activePanel.content == Some(snippet) && activePanel.file == old(activePanel.file)
    {
      if activePanel == null {
        return;
      }
      activePanel.content := Some(snippet);
    }
  }
}
