/** Whole sessions run against the store, each showing one intended
    behaviour or quirk of the actions taken together. */
module TabStoreScenarios {
  import opened Wrappers
  import opened FileStore
  import opened Decimal
  import opened TabStore
  import opened TabStoreProperties

  function EmptyStore(): FsState
  {
    FsState(map[], map[], map[], map[], Success(""))
  }

  function FileData(files: map<string, string>): FsState
  {
    FsState(files, map[], map[], map[], Success(""))
  }

  /** The files of the listed panels, in list order. */
  function FilesOf(panels: seq<Panel>): (r: seq<string>)
    reads panels
    ensures |r| == |panels| && forall i :: 0 <= i < |r| ==> r[i] == panels[i].file
  {
    if |panels| == 0 then [] else [panels[0].file] + FilesOf(panels[1..])
  }

  /** From the home panel alone, a connection "Acme" with no saved file opens
      panel 2 named "Acme.search" holding the snippet; closing it goes back to
      the home panel alone, active. */
  method ConnectionPanelRoundTrip(snippet: string) returns (id: int, name: string, file: string, content: Option<string>, homeAgain: bool)
    ensures id == 2 && name == "Acme.search" && file == "Acme.search" && content == Some(snippet)
    ensures homeAgain
  {
    var store := new Store(snippet);
    var home := store.activePanel;
    var fs := new FileApi(EmptyStore());
    assert CandidateFileName("Acme", 0) == "Acme.search";
    var r := store.EstablishPanel(ConnectionOf(Connection(1, "Acme")), fs);
    var p := store.activePanel;
    id, name, file, content := p.id, p.name, p.file, p.content;
    assert store.panels == [home, p];
    assert FirstWithId(store.panels, 2) == 1;
    r := store.ClosePanel(p, false, fs);
    assert store.panels == [home];
    homeAgain := store.panels == [home] && store.activePanel == home;
  }

  /** Opening the same file twice gives one panel for it; the second call
      only refocuses it and reads nothing.  (The path must differ from the
      home panel's empty file, which would otherwise be the match.) */
  method ReopenFile(path: string, text: string) returns (panelCount: nat, refocused: bool, callCount: nat)
    requires path != ""
    ensures panelCount == 2 && refocused && callCount == 1
  {
    var store := new Store("");
    var home := store.activePanel;
    var fs := new FileApi(FileData(map[path := text]));
    var r := store.EstablishPanel(FilePath(path), fs);
    var fileTab := store.activePanel;
    assert store.panels == [home, fileTab] && |fs.calls| == 1;
    store.SetActivePanel(0);
    assert FirstWithFile(store.panels, path) == 1;
    r := store.EstablishPanel(FilePath(path), fs);
    panelCount, refocused, callCount := |store.panels|, store.activePanel == fileTab, |fs.calls|;
  }

  /** Two panels for one connection are named "X.search" and then "X-1.search". */
  method SameConnectionTwice() returns (first: string, second: string)
    ensures first == "X.search" && second == "X-1.search"
  {
    var store := new Store("");
    var home := store.activePanel;
    var fs := new FileApi(EmptyStore());
    var c := Connection(7, "X");
    assert SameConnectionCount([home], c.id) == 0;
    OpenConnection(store, fs, c);
    var p := store.activePanel;
    first := p.file;
    assert CandidateFileName("X", 0) == "X.search";
    CountAfterAppend([home], p, c.id);
    OpenConnection(store, fs, c);
    second := store.activePanel.file;
    assert NatToString(1) == "1";
    assert CandidateFileName("X", 1) == "X-1.search";
  }

  /** Client-side shorthand: open a panel for a connection against a file
      store that holds no file and answers every existence check, so the
      panel gets its candidate name. */
  method OpenConnection(store: Store, fs: FileApi, c: Connection)
    requires store.Valid() && fs.state.files == map[] && fs.state.existsFaults == map[]
    modifies store, fs`calls
    ensures store.Valid() && store.activePanel != null && fresh(store.activePanel)
    ensures store.panels == old(store.panels) + [store.activePanel]
    ensures store.activePanel.connection == Some(c)
    ensures store.activePanel.file == CandidateFileName(c.name, SameConnectionCount(old(store.panels), c.id))
  {
    var r := store.EstablishPanel(ConnectionOf(c), fs);
  }

  /** Client-side shorthand: open a file no panel shows yet, from a file
      store that can read it. */
  method OpenUnlisted(store: Store, fs: FileApi, path: string)
    requires store.Valid() && FirstWithFile(store.panels, path) < 0 && ReadReply(fs.state, path).Success?
    modifies store, fs`calls
    ensures store.Valid() && store.activePanel != null && fresh(store.activePanel)
    ensures store.panels == old(store.panels) + [store.activePanel]
    ensures store.activePanel.id == |old(store.panels)| + 1 && store.activePanel.file == path
  {
    var r := store.EstablishPanel(FilePath(path), fs);
  }

  /** Client-side shorthand: close a panel without saving it. */
  method CloseUnsaved(store: Store, fs: FileApi, p: Panel)
    requires store.Valid()
    modifies store, fs, p
    ensures store.Valid() && p.file == old(p.file) && fs.state == old(fs.state)
    ensures store.panels == SpliceOne(old(store.panels), FirstWithId(old(store.panels), p.id))
    ensures store.activePanel ==
      if old(store.activePanel) != null && old(store.activePanel).id == p.id
      then ActiveAfterClose(store.panels, FirstWithId(old(store.panels), p.id))
      else old(store.activePanel)
  {
    var r := store.ClosePanel(p, false, fs);
  }

  /** Open "a" (id 2) and "b" (id 3), then close "a": "b" keeps id 3 in a
      list of length two. */
  method OpenTwoCloseFirst() returns (store: Store, fs: FileApi, home: Panel, b: Panel)
    ensures fresh(store) && fresh(fs) && fresh(home) && fresh(b)
    ensures store.Valid() && store.panels == [home, b] && fs.state == FileData(map["a" := "", "b" := "", "c" := ""])
    ensures home.id == 0 && b.id == 3 && home.file == "" && b.file == "b"
  {
    store := new Store("");
    home := store.activePanel;
    fs := new FileApi(FileData(map["a" := "", "b" := "", "c" := ""]));
    OpenUnlisted(store, fs, "a");
    var a := store.activePanel;
    assert FirstWithFile(store.panels, "b") == -1;
    OpenUnlisted(store, fs, "b");
    b := store.activePanel;
    assert FirstWithId(store.panels, 2) == 1;
    CloseUnsaved(store, fs, a);
    assert store.panels == [home, b];
  }

  /** Ids are the list length plus one, so they repeat after a close: after
      opening "a" and "b" and closing "a", "c" opens with id 3 again. */
  method RepeatedIdSession() returns (store: Store, fs: FileApi, home: Panel, b: Panel, c: Panel)
    ensures fresh(store) && fresh(fs) && fresh(home) && fresh(b) && fresh(c)
    ensures store.Valid() && store.panels == [home, b, c] && store.activePanel == c
    ensures home.id == 0 && b.id == 3 && c.id == 3
    ensures home.file == "" && b.file == "b" && c.file == "c"
  {
    store, fs, home, b := OpenTwoCloseFirst();
    assert FirstWithFile(store.panels, "c") == -1;
    OpenUnlisted(store, fs, "c");
    c := store.activePanel;
  }

  /** With two panels of id 3, selecting id 3 focuses the earlier one, "b",
      and closing the later one, "c", removes "b" instead. */
  method IdsRepeatAfterClose() returns (ids: seq<int>, selected: string, filesAfterClose: seq<string>, earlierListed: bool)
    ensures ids == [0, 3, 3]
    ensures selected == "b"
    ensures filesAfterClose == ["", "c"] && !earlierListed
  {
    var store, fs, home, b, c := RepeatedIdSession();
    ids := [home.id, b.id, c.id];
    assert FirstWithId(store.panels, 3) == 1;
    store.SetActivePanel(3);
    selected := store.activePanel.file;
    CloseUnsaved(store, fs, c);
    assert store.panels == [home, c];
    filesAfterClose, earlierListed := FilesOf(store.panels), b in store.panels;
  }

  /** Closing a panel that is not in the list removes the last entry; here
      that is the active panel, which stays active although it is gone. */
  method CloseAbsentPanel() returns (files: seq<string>, activeFile: string, activeListed: bool)
    ensures files == [""] && activeFile == "a" && !activeListed
  {
    var store := new Store("");
    var home := store.activePanel;
    var fs := new FileApi(FileData(map["a" := ""]));
    var r := store.EstablishPanel(FilePath("a"), fs);
    var a := store.activePanel;
    var stranger := new Panel(9, "z", None, "z", None);
    r := store.ClosePanel(stranger, false, fs);
    assert store.panels == [home];
    files, activeFile, activeListed := FilesOf(store.panels), store.activePanel.file, store.activePanel in store.panels;
  }

  /** Nothing protects the home panel: closing it leaves no panel and no
      active panel, after which the actions on "the active panel" do nothing
      and the next panel opened gets id 1. */
  method CloseHomePanel() returns (count: nat, activeGone: bool, probe: Result<bool, Error>, nextId: int)
    ensures count == 0 && activeGone && probe == Success(false) && nextId == 1
  {
    var store := new Store("");
    var fs := new FileApi(FileData(map["a" := ""]));
    var r := store.ClosePanel(store.activePanel, false, fs);
    count, activeGone := |store.panels|, store.activePanel == null;
    store.LoadDefaultSnippet();
    probe := store.CheckFileExists(null, fs);
    r := store.SaveContent(null, "lost", true, fs);
    r := store.EstablishPanel(FilePath("a"), fs);
    nextId := store.activePanel.id;
  }

  /** saveContent on the active panel edits the shared panel object, so the
      new content is seen through the list as well; the existing file is
      written with it. */
  method SaveIsSeenThroughTheList() returns (listed: Option<string>, stored: string)
    ensures listed == Some("new") && stored == "new"
  {
    var store := new Store("");
    var fs := new FileApi(FileData(map["a" := "old"]));
    var r := store.EstablishPanel(FilePath("a"), fs);
    r := store.SaveContent(null, "new", false, fs);
    listed, stored := store.panels[1].content, fs.state.files["a"];
  }

  /** Saving a connection panel whose file was never written, with path
      validation, rewrites its path under the chosen folder and writes nothing
      because that path does not exist either; without validation neither
      happens. */
  method SaveNewPanelUnderFolder(snippet: string) returns (unvalidated: string, validated: string, written: bool)
    ensures unvalidated == "Q.search" && validated == "/work/Q.search" && !written
  {
    var store := new Store(snippet);
    var home := store.activePanel;
    var fs := new FileApi(FsState(map[], map[], map[], map[], Success("/work")));
    var c := Connection(3, "Q");
    assert SameConnectionCount([home], c.id) == 0;
    assert CandidateFileName("Q", 0) == "Q.search";
    OpenConnection(store, fs, c);
    var r := store.SaveContent(null, "body", false, fs);
    unvalidated := store.activePanel.file;
    r := store.SaveContent(null, "body", true, fs);
    validated := store.activePanel.file;
    written := fs.state.files != map[];
  }

  /** A failed save aborts closePanel: the panel stays open and active, and
      the failure comes back re-tagged with code 500 and the original message. */
  method FailedSaveKeepsPanel() returns (result: Result<(), Error>, count: nat, stillActive: bool)
    ensures result == Failure(CustomError(500, "disk full")) && count == 2 && stillActive
  {
    var store := new Store("");
    var fs := new FileApi(FsState(map["a" := ""], map[], map[], map["a" := "disk full"], Success("")));
    var r := store.EstablishPanel(FilePath("a"), fs);
    var a := store.activePanel;
    result := store.ClosePanel(a, true, fs);
    count, stillActive := |store.panels|, store.activePanel == a;
  }

  /** A connection panel with no top-level file but a `.dockit/` copy opens
      that copy, under the prefixed name. */
  method OpenFromDockit() returns (name: string, file: string, content: Option<string>)
    ensures name == ".dockit/Acme.search" && file == ".dockit/Acme.search" && content == Some("saved query")
  {
    var store := new Store("");
    var fs := new FileApi(FileData(map[".dockit/Acme.search" := "saved query"]));
    assert CandidateFileName("Acme", 0) == "Acme.search";
    assert DockitPrefix + "Acme.search" == ".dockit/Acme.search";
    var r := store.EstablishPanel(ConnectionOf(Connection(1, "Acme")), fs);
    name, file, content := store.activePanel.name, store.activePanel.file, store.activePanel.content;
  }
}
