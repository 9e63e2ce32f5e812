/** The project page (`ProjectDetails`): lists a project's scripts from the
    shared `mockScripts` table and adds new ones to it. */
module ProjectDetailsPage {
  import opened Values
  import opened Text
  import opened MockData

  /** The id the page gives a new script as written:
      `String(mockScripts.length + scripts.length + 1)`, which also counts the
      project's scripts already in the table. It is the fresh id `NextScriptId`
      exactly when the page lists no scripts yet. */
  function ScriptIdAsWritten(rows: seq<MockScript>, scripts: seq<MockScript>): (id: string)
    ensures id == NextScriptId(rows) <==> scripts == []
  {
    var id := NatToString(|rows| + |scripts| + 1);
    NatToStringInjective(|rows| + |scripts| + 1, |rows| + 1);
    id
  }

  /** Three scripts, the first two in project "1" and the third in project
      "2", as in the seeded table. Submitting a script on project "1" gives it
      id "6"; submitting one on project "2" next gives "6" again. */
  lemma ScriptIdAsWrittenRepeats(a: MockScript, b: MockScript, c: MockScript, s: MockScript)
    requires a.projectId == "1" && b.projectId == "1" && c.projectId == "2" && s.projectId == "1"
    ensures ScriptIdAsWritten([a, b, c], ScriptsOf([a, b, c], "1")) == "6"
    ensures ScriptIdAsWritten([a, b, c, s], ScriptsOf([a, b, c, s], "2")) == "6"
  {
    assert NatToString(6) == "6";
    assert ScriptsOf([c], "1") == [] by { assert [c][1..] == []; }
    assert ScriptsOf([b, c], "1") == [b] by { assert [b, c][1..] == [c]; }
    assert ScriptsOf([a, b, c], "1") == [a, b] by { assert [a, b, c][1..] == [b, c]; }
    assert ScriptsOf([s], "2") == [] by { assert [s][1..] == []; }
    assert ScriptsOf([c, s], "2") == [c] by { assert [c, s][1..] == [s]; }
    assert ScriptsOf([b, c, s], "2") == [c] by { assert [b, c, s][1..] == [c, s]; }
    assert ScriptsOf([a, b, c, s], "2") == [c] by { assert [a, b, c, s][1..] == [b, c, s]; }
  }

  class ProjectDetails {
    const projectId: string
    const projects: seq<MockProject>
    const store: ScriptTable
    var isDialogOpen: bool
    var newTitle: string
    var newContent: string
    var scripts: seq<MockScript>

    /** The dialog has no content input, so the form's content stays empty. */
    predicate Valid()
      reads this
    {
      newContent == ""
    }

    /** `mockProjects.find(p => p.id === projectId)`; `None` is the
        not-found view. */
    function Project(): (r: Option<MockProject>)
      ensures r.None? <==> forall j :: 0 <= j < |projects| ==> projects[j].id != projectId
      ensures r.Some? ==> r.value in projects && r.value.id == projectId
    {
      FindProject(projects, projectId)
    }

    /** The page mounted, with its effect run: a non-empty project id lists
        that project's scripts from the table, in table order. */
    constructor (projectId: string, projects: seq<MockProject>, store: ScriptTable)
      ensures this.projectId == projectId && this.projects == projects && this.store == store
      ensures projectId != "" ==> scripts == ScriptsOf(store.rows, projectId)
      ensures projectId == "" ==> scripts == []
      ensures !isDialogOpen && newTitle == "" && newContent == ""
      ensures Valid()
    {
      this.projectId := projectId;
      this.projects := projects;
      this.store := store;
      isDialogOpen := false;
      newTitle, newContent := "", "";
      scripts := [];
      new;
      if projectId != "" {
        scripts := ScriptsOf(store.rows, projectId);
      }
    }

    /** The dialog's `onOpenChange`. */
    method SetDialogOpen(open: bool)
      modifies this
      ensures isDialogOpen == open
      ensures newTitle == old(newTitle) && newContent == old(newContent) && scripts == old(scripts)
    {
      isDialogOpen := open;
    }

    /** The title input's `onChange`. */
    method EditTitle(value: string)
      modifies this
      ensures newTitle == value
      ensures newContent == old(newContent) && isDialogOpen == old(isDialogOpen) && scripts == old(scripts)
    {
      newTitle := value;
    }

    /** `handleSubmit`: refuses a title that trims to nothing and changes
        nothing; otherwise appends one script to both the page's list and the
        shared table, closes the dialog and empties the form. The id is
        `ScriptIdAsWritten`, which can repeat an id already in the table
        (`SubmitTwiceRepeatsId`). The form that fires it is only rendered
        when the project was found. */
    method HandleSubmit(createdAt: string) returns (toast: Toast)
      requires Valid() && Project().Some?
      modifies this, store
      ensures Blank(Js, old(newTitle)) ==>
        && toast == Failure("Please enter a script title")
        && scripts == old(scripts) && store.rows == old(store.rows)
        && isDialogOpen == old(isDialogOpen) && newTitle == old(newTitle)
      ensures !Blank(Js, old(newTitle)) ==>
        var script := MockScript(ScriptIdAsWritten(old(store.rows), old(scripts)), projectId, old(newTitle), "", createdAt);
        && toast == Success("Script created successfully!")
        && scripts == old(scripts) + [script]
        && store.rows == old(store.rows) + [script]
        && !isDialogOpen && newTitle == ""
      ensures Valid()
    {
      if Trim(Js, newTitle) == [] {
        return Failure("Please enter a script title");
      }
      var script := MockScript(ScriptIdAsWritten(store.rows, scripts), projectId, newTitle, newContent, createdAt);
      scripts := scripts + [script];
      store.rows := store.rows + [script];
      toast := Success("Script created successfully!");
      isDialogOpen := false;
      newTitle, newContent := "", "";
    }
  }

  /** The seeded projects "1" to "3" and the seeded table's three scripts,
      then a script submitted on project "1" and one submitted on project "2"
      by two pages over the same table: both new scripts get id "6". */
  method SubmitTwiceRepeatsId() returns (rows: seq<MockScript>)
    ensures |rows| == 5
    ensures rows[3].id == "6" && rows[3].projectId == "1"
    ensures rows[4].id == "6" && rows[4].projectId == "2"
  {
    var a := MockScript("1", "1", "Chapter 1", "", "");
    var b := MockScript("2", "1", "Chapter 2", "", "");
    var c := MockScript("3", "2", "Scene 1", "", "");
    var projects := [MockProject("1", "The Dragon's Quest", "", ""),
                     MockProject("2", "Mystery at Midnight Manor", "", ""),
                     MockProject("3", "Stars Beyond", "", "")];
    var store := new ScriptTable([a, b, c]);
    var first := new ProjectDetails("1", projects, store);
    assert projects[0].id == "1";
    first.EditTitle("A");
    assert !Blank(Js, "A") by { assert !IsSpace(Js, "A"[0]); }
    var _ := first.HandleSubmit("");
    var s := store.rows[3];
    assert store.rows == [a, b, c, s];
    ScriptIdAsWrittenRepeats(a, b, c, s);
    var second := new ProjectDetails("2", projects, store);
    assert projects[1].id == "2";
    second.EditTitle("B");
    assert !Blank(Js, "B") by { assert !IsSpace(Js, "B"[0]); }
    var _ := second.HandleSubmit("");
    rows := store.rows;
  }
}
