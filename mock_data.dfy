/** The front end's in-memory data (`@/data/mockData`): the record shapes and
    the shared `mockScripts` array that several pages read and mutate. */
module MockData {
  import opened Values
  import opened Text

  /** A toast a page shows after a handler ran. */
  datatype Toast = Success(message: string) | Failure(message: string)

  /** The `Project` interface. */
  datatype MockProject = MockProject(id: string, title: string, description: string, createdAt: string)

  /** The `Script` interface. */
  datatype MockScript = MockScript(id: string, projectId: string, title: string, content: string, createdAt: string)

  /** The exported `mockScripts` array: one mutable list that every page
      importing it sees. */
  class ScriptTable {
    var rows: seq<MockScript>

    constructor (seed: seq<MockScript>)
      ensures rows == seed
    {
      rows := seed;
    }
  }

  /** `rows.findIndex(s => s.id === id)`: the first matching position, or -1. */
  function ScriptIndex(rows: seq<MockScript>, id: string): (r: int)
    ensures -1 <= r < |rows|
    ensures r == -1 <==> forall j :: 0 <= j < |rows| ==> rows[j].id != id
    ensures r >= 0 ==> rows[r].id == id && forall j :: 0 <= j < r ==> rows[j].id != id
  {
    if rows == [] then -1
    else if rows[0].id == id then 0
    else
      var k := ScriptIndex(rows[1..], id);
      if k == -1 then -1 else k + 1
  }

  /** `rows.find(s => s.id === id)`: the entry `findIndex` points at. */
  function FindScript(rows: seq<MockScript>, id: string): (r: Option<MockScript>)
    ensures r.None? <==> ScriptIndex(rows, id) == -1
    ensures r.Some? ==> r.value == rows[ScriptIndex(rows, id)]
  {
    var k := ScriptIndex(rows, id);
    if k == -1 then None else Some(rows[k])
  }

  /** `projects.find(p => p.id === id)`: the first project with that id. */
  function FindProject(projects: seq<MockProject>, id: string): (r: Option<MockProject>)
    ensures r.None? <==> forall j :: 0 <= j < |projects| ==> projects[j].id != id
    ensures r.Some? ==> exists j :: 0 <= j < |projects| && projects[j] == r.value
                                    && forall i :: 0 <= i < j ==> projects[i].id != id
    ensures r.Some? ==> r.value.id == id
  {
    if projects == [] then None
    else if projects[0].id == id then Some(projects[0])
    else
      var r := FindProject(projects[1..], id);
      if r.Some? then
        var j :| 0 <= j < |projects| - 1 && projects[1..][j] == r.value
                 && forall i :: 0 <= i < j ==> projects[1..][i].id != id;
        assert projects[j + 1] == r.value;
        r
      else r
  }

  /** `rows.filter(s => s.project_id === projectId)`, keeping the order. */
  function ScriptsOf(rows: seq<MockScript>, projectId: string): (r: seq<MockScript>)
    ensures |r| <= |rows|
    ensures forall s :: s in r <==> s in rows && s.projectId == projectId
  {
    if rows == [] then []
    else (if rows[0].projectId == projectId then [rows[0]] else []) + ScriptsOf(rows[1..], projectId)
  }

  /** Filtering distributes over concatenation, so the filter keeps the
      entries in the order of `rows`. */
  lemma {:induction false} ScriptsOfAppend(a: seq<MockScript>, b: seq<MockScript>, projectId: string)
    ensures ScriptsOf(a + b, projectId) == ScriptsOf(a, projectId) + ScriptsOf(b, projectId)
  {
    if a == [] {
      assert a + b == b;
    } else {
      assert (a + b)[1..] == a[1..] + b;
      ScriptsOfAppend(a[1..], b, projectId);
    }
  }

  /** The ids are `"1"`, `"2"`, ... in order: how the seed data is numbered,
      and what appending with `NextScriptId` keeps. */
  predicate SequentialIds(rows: seq<MockScript>) {
    forall i :: 0 <= i < |rows| ==> rows[i].id == NatToString(i + 1)
  }

  /** The ids are `"1"`, `"2"`, ... in order, as the seeded projects are
      numbered. */
  predicate SequentialProjectIds(projects: seq<MockProject>) {
    forall i :: 0 <= i < |projects| ==> projects[i].id == NatToString(i + 1)
  }

  /** The id of the script appended next: one more than the number of
      scripts. */
  function NextScriptId(rows: seq<MockScript>): (id: string)
    ensures SequentialIds(rows) ==> forall i :: 0 <= i < |rows| ==> rows[i].id != id
  {
    var id := NatToString(|rows| + 1);
    assert SequentialIds(rows) ==> forall i :: 0 <= i < |rows| ==> rows[i].id != id by {
      if SequentialIds(rows) {
        forall i | 0 <= i < |rows| ensures rows[i].id != id {
          NatToStringInjective(i + 1, |rows| + 1);
        }
      }
    }
    id
  }

  /** Appending a script under `NextScriptId` keeps the ids sequential. */
  lemma NextScriptIdSequential(rows: seq<MockScript>, s: MockScript)
    requires SequentialIds(rows) && s.id == NextScriptId(rows)
    ensures SequentialIds(rows + [s])
  {
  }
}
