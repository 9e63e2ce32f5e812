/** The script editor page (`ScriptEditor`): loads a script of the shared
    `mockScripts` table, saves edits back into it in place, and runs the
    simulated analysis. */
module ScriptEditorPage {
  import opened Values
  import opened Text
  import opened MockData

  const PROCESSING: string := "PROCESSING"
  const COMPLETED: string := "COMPLETED"

  /** The values the page ever stores in `analysisStatus`; `FAILED`, which
      the view knows how to draw, is never set. */
  predicate StatusOk(status: Option<string>) {
    status == None || status == Some(PROCESSING) || status == Some(COMPLETED)
  }

  /** The page's saved form of an entry: the edited title and content, the
      rest as it was. */
  function Saved(s: MockScript, title: string, content: string): (r: MockScript)
    ensures r.id == s.id && r.projectId == s.projectId && r.createdAt == s.createdAt
    ensures r.title == title && r.content == content
  {
    s.(title := title, content := content)
  }

  class ScriptEditor {
    const scriptId: string
    const store: ScriptTable
    var title: string
    var content: string
    var analysisStatus: Option<string>
    /** Analysis timers started and not yet fired. */
    var pendingTimers: nat

    /** The status is one the page sets, and `PROCESSING` is always followed
        by a timer that will complete it. */
    predicate Valid()
      reads this
    {
      && StatusOk(analysisStatus)
      && (analysisStatus == Some(PROCESSING) ==> pendingTimers > 0)
    }

    /** `mockScripts.find(s => s.id === scriptId)`, evaluated on every render. */
    function Script(): (r: Option<MockScript>)
      reads this, store
      ensures r.Some? ==> r.value in store.rows && r.value.id == scriptId
      ensures r.None? <==> forall j :: 0 <= j < |store.rows| ==> store.rows[j].id != scriptId
    {
      FindScript(store.rows, scriptId)
    }

    /** The page mounted, with the load effect run: the form holds the found
        script's title and content, or stays empty. */
    constructor (scriptId: string, store: ScriptTable)
      ensures this.scriptId == scriptId && this.store == store
      ensures FindScript(store.rows, scriptId).Some? ==>
        title == FindScript(store.rows, scriptId).value.title && content == FindScript(store.rows, scriptId).value.content
      ensures FindScript(store.rows, scriptId).None? ==> title == "" && content == ""
      ensures analysisStatus == None && pendingTimers == 0
      ensures Valid()
    {
      this.scriptId := scriptId;
      this.store := store;
      title, content := "", "";
      analysisStatus := None;
      pendingTimers := 0;
      new;
      var script := FindScript(store.rows, scriptId);
      if script.Some? {
        title := script.value.title;
        content := script.value.content;
      }
    }

    /** The title input's `onChange`. */
    method EditTitle(value: string)
      modifies this
      ensures title == value
      ensures content == old(content) && analysisStatus == old(analysisStatus) && pendingTimers == old(pendingTimers)
      ensures Valid() == old(Valid())
    {
      title := value;
    }

    /** The content textarea's `onChange`. */
    method EditContent(value: string)
      modifies this
      ensures content == value
      ensures title == old(title) && analysisStatus == old(analysisStatus) && pendingTimers == old(pendingTimers)
      ensures Valid() == old(Valid())
    {
      content := value;
    }

    /** `handleSave`: refuses a title that trims to nothing; otherwise writes
        the untrimmed title and the content into the first entry with the
        page's id, if there is one, and leaves every other entry alone. */
    method HandleSave() returns (toast: Toast)
      modifies store
      ensures Blank(Js, title) ==> toast == Failure("Please enter a script title") && store.rows == old(store.rows)
      ensures !Blank(Js, title) ==> toast == Success("Script saved successfully!")
      ensures |store.rows| == |old(store.rows)|
      ensures var k := ScriptIndex(old(store.rows), scriptId);
        && (!Blank(Js, title) && k >= 0 ==> store.rows[k] == Saved(old(store.rows)[k], title, content))
        && forall j :: 0 <= j < |store.rows| && (j != k || Blank(Js, title)) ==> store.rows[j] == old(store.rows)[j]
      ensures SequentialIds(old(store.rows)) ==> SequentialIds(store.rows)
    {
      if Trim(Js, title) == [] {
        return Failure("Please enter a script title");
      }
      var scriptIndex := ScriptIndex(store.rows, scriptId);
      if scriptIndex != -1 {
        store.rows := store.rows[scriptIndex := Saved(store.rows[scriptIndex], title, content)];
      }
      return Success("Script saved successfully!");
    }

    /** `handleAnalyze`: the status becomes `PROCESSING` at once and a timer
        is started; neither the title nor the content is looked at. */
    method HandleAnalyze() returns (toast: Toast)
      modifies this
      ensures analysisStatus == Some(PROCESSING) && pendingTimers == old(pendingTimers) + 1
      ensures title == old(title) && content == old(content)
      ensures toast == Success("Analysis started! This may take a few moments...")
      ensures Valid()
    {
      analysisStatus := Some(PROCESSING);
      pendingTimers := pendingTimers + 1;
      return Success("Analysis started! This may take a few moments...");
    }

    /** One of the three-second timers fires: the status becomes `COMPLETED`. */
    method TimerFires() returns (toast: Toast)
      requires pendingTimers > 0
      modifies this
      ensures analysisStatus == Some(COMPLETED) && pendingTimers == old(pendingTimers) - 1
      ensures title == old(title) && content == old(content)
      ensures toast == Success("Analysis completed!")
      ensures Valid()
    {
      analysisStatus := Some(COMPLETED);
      pendingTimers := pendingTimers - 1;
      return Success("Analysis completed!");
    }

    /** The footer's counts: characters, and words as non-empty pieces
        between whitespace runs. */
    function Counts(): (r: (nat, nat))
      reads this
      ensures r.0 == |content|
      ensures r.1 == WordStarts(content, true)
      ensures r.1 == 0 <==> Blank(Js, content)
    {
      WordCountZero(content);
      (|content|, WordCount(content))
    }
  }
}
