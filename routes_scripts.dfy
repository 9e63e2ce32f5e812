/** routes/scripts.py: script endpoints over the `scripts` collection; every
    create and update schedules the embedding and extraction jobs. */
module ScriptRoutes {
  import opened Values
  import opened ObjectIds
  import opened Models
  import opened Database
  import opened Vectors
  import opened Tasks

  const INVALID_PROJECT_ID: string := "Invalid project ID"
  const INVALID_SCRIPT_ID: string := "Invalid script ID"
  const PROJECT_NOT_FOUND: string := "Project not found"

  function ScriptNotFound(scriptId: string): string {
    "Script " + scriptId + " not found"
  }

  /** The document `create_script` inserts: the body's fields (with the
      default content), the path's project id, and the two timestamps. */
  function NewScriptDoc(projectId: string, script: ScriptCreate, createdAt: Time, updatedAt: Time): ScriptDoc {
    ScriptDoc(projectId, script.title, Present(ContentOf(script)), createdAt, updatedAt)
  }

  /** `POST /projects/{projectId}/scripts`; `newId` is the id `insert_one`
      assigns. */
  method CreateScript(db: Db, tasks: BackgroundTasks, projectId: string, script: ScriptCreate,
                      newId: ObjectId, createdAt: Time, updatedAt: Time)
    returns (r: Response<Script>)
    requires newId !in db.scripts
    modifies db, tasks
    ensures db.projects == old(db.projects) && db.entities == old(db.entities)
    ensures !IsValid(projectId) ==>
      r == BadRequest400(INVALID_PROJECT_ID) && db.scripts == old(db.scripts) && tasks.scheduled == old(tasks.scheduled)
    ensures IsValid(projectId) && Parse(projectId) !in db.projects ==>
      r == NotFound404(PROJECT_NOT_FOUND) && db.scripts == old(db.scripts) && tasks.scheduled == old(tasks.scheduled)
    ensures IsValid(projectId) && Parse(projectId) in db.projects ==>
      && db.scripts == old(db.scripts)[newId := NewScriptDoc(projectId, script, createdAt, updatedAt)]
      && tasks.scheduled == old(tasks.scheduled) + [Embed(ContentOf(script), projectId, newId),
                                                    Extract(ContentOf(script), projectId, newId)]
      && r == Created201(Script(newId, projectId, script.title, ContentOf(script), createdAt, updatedAt))
    ensures old(db.WellFormed()) ==> db.WellFormed()
  {
    if !IsValid(projectId) {
      return BadRequest400(INVALID_PROJECT_ID);
    }
    if Parse(projectId) !in db.projects {
      return NotFound404(PROJECT_NOT_FOUND);
    }
    var scriptDict := NewScriptDoc(projectId, script, createdAt, updatedAt);
    db.scripts := db.scripts[newId := scriptDict];
    var created := db.scripts[newId];
    var scriptId: string := newId;
    tasks.AddTask(Embed(ContentOf(script), projectId, scriptId));
    tasks.AddTask(Extract(ContentOf(script), projectId, scriptId));
    return Created201(ScriptHelper(newId, created).value);
  }

  /** The list `get_scripts_for_project` may return: every stored script whose
      `project_id` is the given string, once each, converted by
      `script_helper`. */
  predicate ListsScriptsOf(list: seq<Script>, scripts: map<ObjectId, ScriptDoc>, projectId: string) {
    && (forall i :: 0 <= i < |list| ==>
          && list[i].id in scripts && scripts[list[i].id].projectId == projectId
          && ScriptHelper(list[i].id, scripts[list[i].id]) == Ok(list[i]))
    && (forall k :: k in scripts && scripts[k].projectId == projectId ==> exists i :: 0 <= i < |list| && list[i].id == k)
    && (forall i, j :: 0 <= i < j < |list| ==> list[i].id != list[j].id)
  }

  /** `GET /projects/{projectId}/scripts`. The project itself is not looked
      up: an unknown project has an empty list. */
  method GetScriptsForProject(db: Db, projectId: string) returns (r: Response<seq<Script>>)
    ensures r.BadRequest400? <==> !IsValid(projectId)
    ensures r.BadRequest400? ==> r.detail == INVALID_PROJECT_ID
    ensures r.Ok200? || r.BadRequest400? || r.ServerError500?
    ensures IsValid(projectId) && db.WellFormed() ==> r.Ok200?
    ensures r.Ok200? ==> ListsScriptsOf(r.body, db.scripts, projectId)
  {
    if !IsValid(projectId) {
      return BadRequest400(INVALID_PROJECT_ID);
    }
    var scripts: seq<Script> := [];
    var cursor := db.scripts.Keys;
    while cursor != {}
      invariant cursor <= db.scripts.Keys
      invariant forall i :: 0 <= i < |scripts| ==>
        && scripts[i].id in db.scripts && scripts[i].id !in cursor
        && db.scripts[scripts[i].id].projectId == projectId
        && ScriptHelper(scripts[i].id, db.scripts[scripts[i].id]) == Ok(scripts[i])
      invariant forall k :: k in db.scripts && k !in cursor && db.scripts[k].projectId == projectId ==>
        exists i :: 0 <= i < |scripts| && scripts[i].id == k
      invariant forall i, j :: 0 <= i < j < |scripts| ==> scripts[i].id != scripts[j].id
    {
      var id :| id in cursor;
      cursor := cursor - {id};
      if db.scripts[id].projectId == projectId {
        match ScriptHelper(id, db.scripts[id]) {
          case Err(_) =>
            return ServerError500;
          case Ok(script) =>
            ghost var before := scripts;
            scripts := scripts + [script];
            forall k | k in db.scripts && k !in cursor && db.scripts[k].projectId == projectId
              ensures exists i :: 0 <= i < |scripts| && scripts[i].id == k
            {
              if k == id {
                assert scripts[|scripts| - 1].id == k;
              } else {
                var i :| 0 <= i < |before| && before[i].id == k;
                assert scripts[i] == before[i];
              }
            }
        }
      }
    }
    return Ok200(scripts);
  }

  /** `$set` of the fields the client sent (`exclude_unset`) plus `updated_at`.
      The title is required in the body, so it is always set. */
  function UpdateScriptDoc(doc: ScriptDoc, data: ScriptCreate, now: Time): (d: ScriptDoc)
    ensures d.title == data.title && d.updatedAt == now
    ensures d.projectId == doc.projectId && d.createdAt == doc.createdAt
    ensures data.content.Absent? ==> d.content == doc.content
    ensures data.content.Present? ==> d.content == data.content
  {
    doc.(title := data.title,
         content := if data.content.Present? then data.content else doc.content,
         updatedAt := now)
  }

  /** `PUT /scripts/{scriptId}`: updates the sent fields and, when the script
      exists, schedules both jobs on its stored content (`""` if the document
      has no content key). */
  method UpdateScript(db: Db, tasks: BackgroundTasks, scriptId: string, data: ScriptCreate, now: Time)
    returns (r: Response<Script>)
    modifies db, tasks
    ensures db.projects == old(db.projects) && db.entities == old(db.entities)
    ensures !IsValid(scriptId) ==>
      r == BadRequest400(INVALID_SCRIPT_ID) && db.scripts == old(db.scripts) && tasks.scheduled == old(tasks.scheduled)
    ensures IsValid(scriptId) && Parse(scriptId) !in old(db.scripts) ==>
      r == NotFound404(ScriptNotFound(scriptId)) && db.scripts == old(db.scripts) && tasks.scheduled == old(tasks.scheduled)
    ensures IsValid(scriptId) && Parse(scriptId) in old(db.scripts) ==>
      var id := Parse(scriptId);
      var doc := UpdateScriptDoc(old(db.scripts)[id], data, now);
      var content := GetOr(doc.content, Some(""));
      && db.scripts == old(db.scripts)[id := doc]
      && tasks.scheduled == old(tasks.scheduled) + [Embed(content, doc.projectId, scriptId),
                                                    Extract(content, doc.projectId, scriptId)]
      && r == Ok200(ScriptHelper(id, doc).value)
    ensures old(db.WellFormed()) ==> db.WellFormed()
  {
    if !IsValid(scriptId) {
      return BadRequest400(INVALID_SCRIPT_ID);
    }
    var id := Parse(scriptId);
    if id in db.scripts {
      db.scripts := db.scripts[id := UpdateScriptDoc(db.scripts[id], data, now)];
    }
    if id in db.scripts {
      var updated := db.scripts[id];
      var projectId := updated.projectId;
      var content := GetOr(updated.content, Some(""));
      tasks.AddTask(Embed(content, projectId, scriptId));
      tasks.AddTask(Extract(content, projectId, scriptId));
      return Ok200(ScriptHelper(id, updated).value);
    }
    return NotFound404(ScriptNotFound(scriptId));
  }

  /** `DELETE /scripts/{scriptId}`: removes the script and, only when it
      existed, the entities whose `script_id` is the path string and the
      script's vectors. The vector store's `NotFoundException`
      (`indexNotFound`) is not caught: the request fails with 500 after the
      MongoDB deletes, which stay done. */
  method DeleteScript(db: Db, index: Index, scriptId: string, indexNotFound: bool) returns (r: Response<MessageResponse>)
    modifies db, index
    ensures !IsValid(scriptId) ==>
      r == BadRequest400(INVALID_SCRIPT_ID) && unchanged(db) && unchanged(index)
    ensures IsValid(scriptId) && Parse(scriptId) !in old(db.scripts) ==>
      r == NotFound404(ScriptNotFound(scriptId)) && unchanged(db) && unchanged(index)
    ensures IsValid(scriptId) && Parse(scriptId) in old(db.scripts) ==>
      && db.projects == old(db.projects)
      && db.scripts == old(db.scripts) - {Parse(scriptId)}
      && db.entities == DeleteEntities(old(db.entities), ByScript(scriptId))
      && (indexNotFound ==> r == ServerError500 && index.vectors == old(index.vectors))
      && (!indexNotFound ==>
            && r == Ok200(MessageResponse("Script " + scriptId + " deleted successfully"))
            && index.vectors == Without(old(index.vectors), ByScript(scriptId)))
    ensures old(db.WellFormed()) ==> db.WellFormed()
  {
    if !IsValid(scriptId) {
      return BadRequest400(INVALID_SCRIPT_ID);
    }
    var id := Parse(scriptId);
    var deletedCount := 0;
    if id in db.scripts {
      db.scripts := db.scripts - {id};
      deletedCount := 1;
    }
    if deletedCount == 1 {
      db.entities := DeleteEntities(db.entities, ByScript(scriptId));
      var raised := index.Delete(ByScript(scriptId), indexNotFound);
      if raised {
        return ServerError500;
      }
      return Ok200(MessageResponse("Script " + scriptId + " deleted successfully"));
    }
    return NotFound404(ScriptNotFound(scriptId));
  }
}
