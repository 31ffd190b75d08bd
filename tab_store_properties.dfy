/** Properties of the tab store's helpers and of the file-store runs of its
    actions, over every input. */
module TabStoreProperties {
  import opened Wrappers
  import opened FileStore
  import opened Decimal
  import opened TabStore

  // ---------------------------------------------------------------------
  // Connection file names

  /** Reads back the count a candidate file name was built from. */
  function CandidateCount(name: string, file: string): Option<nat>
  {
    if file == name + SearchExtension then Some(0)
    else if |file| > |name| + 1 + |SearchExtension|
         && file[..|name| + 1] == name + "-"
         && file[|file| - |SearchExtension|..] == SearchExtension
         && IsNumeral(file[|name| + 1..|file| - |SearchExtension|])
         && NumeralValue(file[|name| + 1..|file| - |SearchExtension|]) > 0
    then Some(NumeralValue(file[|name| + 1..|file| - |SearchExtension|]))
    else None
  }

  lemma CandidateRoundTrip(name: string, count: nat)
    ensures CandidateCount(name, CandidateFileName(name, count)) == Some(count)
  {
    if count > 0 {
      var digits := NatToString(count);
      var file := CandidateFileName(name, count);
      assert file == (name + "-") + digits + SearchExtension;
      assert |file| > |name + SearchExtension|;
      assert file[..|name| + 1] == name + "-";
      assert file[|file| - |SearchExtension|..] == SearchExtension;
      assert file[|name| + 1..|file| - |SearchExtension|] == digits;
      ValueOfNatToString(count);
    }
  }

  /** Panels of one connection opened at different counts get different names. */
  lemma CandidateNamesDistinct(name: string, m: nat, n: nat)
    requires m != n
    ensures CandidateFileName(name, m) != CandidateFileName(name, n)
  {
    CandidateRoundTrip(name, m);
    CandidateRoundTrip(name, n);
  }

  /** Appending one panel raises the count of its connection by one and leaves
      the count of every other connection alone. */
  lemma CountAfterAppend(panels: seq<Panel>, p: Panel, id: int)
    ensures SameConnectionCount(panels + [p], id) == SameConnectionCount(panels, id) + (if BoundTo(p, id) then 1 else 0)
  {
  }

  /** The filter of a list with one more panel is the old filter, plus that
      panel when it is bound to the connection. */
  lemma {:induction false} BoundPanelsAppend(panels: seq<Panel>, p: Panel, id: int)
    ensures BoundPanels(panels + [p], id) == BoundPanels(panels, id) + (if BoundTo(p, id) then [p] else [])
    decreases |panels|
  {
    if |panels| > 0 {
      assert (panels + [p])[0] == panels[0];
      assert (panels + [p])[1..] == panels[1..] + [p];
      BoundPanelsAppend(panels[1..], p, id);
    }
  }

  /** The count used for connection file names is the length of
      `panels.filter(p => p.connection?.id === id)`. */
  lemma {:induction false} CountIsFilterLength(panels: seq<Panel>, id: int)
    ensures SameConnectionCount(panels, id) == |BoundPanels(panels, id)|
    decreases |panels|
  {
    if |panels| > 0 {
      var init := panels[..|panels| - 1];
      var last := panels[|panels| - 1];
      assert panels == init + [last];
      CountIsFilterLength(init, id);
      BoundPanelsAppend(init, last, id);
    }
  }

  // ---------------------------------------------------------------------
  // Content resolution of a connection panel

  /** However the calls turn out, a resolved panel either uses the top-level
      candidate (which then exists, or else neither it nor its `.dockit/` copy
      exists and the content is the snippet) or the `.dockit/` copy (which
      then exists while the top-level candidate does not), and carries that
      file's content. */
  lemma ResolutionPriority(s: FsState, candidate: string, snippet: string)
    ensures var run := ResolveRunOf(s, candidate, snippet);
      run.result.Success? ==>
        var res := run.result.value;
        && (res.file == candidate || res.file == DockitPrefix + candidate)
        && (res.file == candidate && candidate in s.files ==> res.content == s.files[candidate])
        && (res.file == candidate && candidate !in s.files ==>
              DockitPrefix + candidate !in s.files && res.content == snippet)
        && (res.file == DockitPrefix + candidate && res.file != candidate ==>
              candidate !in s.files && res.file in s.files && res.content == s.files[res.file])
  {
  }

  /** A file store that never fails. */
  predicate Reliable(s: FsState)
  {
    s.existsFaults == map[] && s.readFaults == map[] && s.writeFaults == map[] && s.folderReply.Success?
  }

  /** Against a reliable file store, resolution succeeds with the first of
      the top-level file, the `.dockit/` file and the snippet that applies,
      and probes `.dockit/` only when the top-level file is missing. */
  lemma ResolutionWhenReliable(s: FsState, candidate: string, snippet: string)
    requires Reliable(s)
    ensures var prefixed := DockitPrefix + candidate;
      ResolveRunOf(s, candidate, snippet) ==
        if candidate in s.files then
          ResolveRun([ExistsCall(candidate), ReadCall(candidate)], Success(Resolution(candidate, s.files[candidate])))
        else if prefixed in s.files then
          ResolveRun([ExistsCall(candidate), ExistsCall(prefixed), ReadCall(prefixed)], Success(Resolution(prefixed, s.files[prefixed])))
        else
          ResolveRun([ExistsCall(candidate), ExistsCall(prefixed)], Success(Resolution(candidate, snippet)))
  {
  }

  // ---------------------------------------------------------------------
  // saveContent

  /** The panel's path is rewritten to `<folder>/<file>` exactly when the
      path was asked to be validated, the file was reported missing and the
      folder prompt answered; otherwise it is left as it was. */
  lemma SavePathRewrite(s: FsState, file: string, content: string, validate: bool)
    ensures SaveRunOf(s, file, content, validate).file ==
      if validate && file !in s.files && ExistsReply(s, file).Success? && FolderReply(s).Success?
      then FolderReply(s).value + "/" + file
      else file
  {
  }

  /** A cancelled folder prompt answers the empty folder, and the path is
      still rewritten, to `/<file>`. */
  lemma CancelledPromptRewritesToRoot(s: FsState, file: string, content: string)
    requires ExistsReply(s, file) == Success(false) && s.folderReply == Success("")
    ensures SaveRunOf(s, file, content, true).file == "/" + file
    ensures SelectFolderCall in SaveRunOf(s, file, content, true).calls
  {
  }

  /** saveContent never creates a file: a write is issued only to the final
      path, only when that path already exists, and with the given content;
      the only change to the store is that write. */
  lemma SaveWritesOnlyExistingPath(s: FsState, file: string, content: string, validate: bool)
    ensures var run := SaveRunOf(s, file, content, validate);
      && (forall c :: c in run.calls && c.SaveCall? ==> c == SaveCall(run.file, content) && run.file in s.files)
      && (run.after == s || (run.file in s.files && run.after == s.(files := s.files[run.file := content])))
  {
  }

  /** Without path validation a missing file is never written: the content
      stays in memory only. */
  lemma SaveWithoutValidationKeepsMissingFileUnwritten(s: FsState, file: string, content: string)
    requires file !in s.files
    ensures var run := SaveRunOf(s, file, content, false);
      && run.file == file
      && run.after == s
      && forall c :: c in run.calls ==> !c.SaveCall?
  {
  }

  /** The "Folder not found" failure can never be produced: the path it
      tests was just built with a "/" in it, so every failure of saveContent
      is a file-store failure. */
  lemma SaveNeverReportsFolderNotFound(s: FsState, file: string, content: string, validate: bool)
    ensures var run := SaveRunOf(s, file, content, validate);
      run.result.Failure? ==> run.result.error.IoError?
  {
  }

  /** Against a reliable file store saveContent succeeds, and the content
      reaches the file store exactly when the final path exists. */
  lemma SaveWhenReliable(s: FsState, file: string, content: string, validate: bool)
    requires Reliable(s)
    ensures var run := SaveRunOf(s, file, content, validate);
      && run.result == Success(())
      && run.after == if run.file in s.files then s.(files := s.files[run.file := content]) else s
  {
  }

  // ---------------------------------------------------------------------
  // closePanel

  /** Closing a panel whose id is listed removes exactly the first entry with
      that id and keeps the others in order. */
  lemma CloseRemovesFirstIdMatch(panels: seq<Panel>, id: int)
    requires FirstWithId(panels, id) >= 0
    ensures var i := FirstWithId(panels, id);
      SpliceOne(panels, i) == panels[..i] + panels[i + 1..]
  {
  }

  /** Closing a panel whose id is not listed removes the LAST entry, because
      `findIndex` answers -1 and `splice(-1, 1)` counts from the end. */
  lemma CloseAbsentRemovesLast(panels: seq<Panel>, id: int)
    requires FirstWithId(panels, id) == -1
    ensures SpliceOne(panels, FirstWithId(panels, id)) == if |panels| == 0 then [] else panels[..|panels| - 1]
  {
  }

  /** In a list with no panel object twice, a close takes exactly one panel
      object out (the one at the splice start) and the list stays free of
      repeats. */
  lemma CloseRemovesOnePanel(panels: seq<Panel>, id: int)
    requires Distinct(panels) && |panels| > 0
    ensures var k := SpliceStart(|panels|, FirstWithId(panels, id));
      var rest := SpliceOne(panels, FirstWithId(panels, id));
      && k < |panels| && panels[k] !in rest
      && (forall j :: 0 <= j < |panels| && j != k ==> panels[j] in rest)
      && Distinct(rest)
  {
    var i := FirstWithId(panels, id);
    var k := SpliceStart(|panels|, i);
    var rest := SpliceOne(panels, i);
    assert rest == panels[..k] + panels[k + 1..];
    forall j | 0 <= j < |panels| && j != k
      ensures panels[j] in rest
    {
      if j < k { assert rest[j] == panels[j]; } else { assert rest[j - 1] == panels[j]; }
    }
  }

  /** After closing the active panel at index i, the panel that slid into the
      vacated slot becomes active, or the new last one if the closed panel was
      last; closing the only panel leaves no active panel at all. */
  lemma ActiveAfterClosingAt(panels: seq<Panel>, i: nat)
    requires i < |panels|
    ensures var rest := SpliceOne(panels, i);
      ActiveAfterClose(rest, i) ==
        if |panels| == 1 then null
        else if i < |panels| - 1 then panels[i + 1]
        else panels[i - 1]
  {
  }
}
