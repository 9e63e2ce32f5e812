/** routes/projects.py: the `/projects` endpoints over the `projects`
    collection, with the cascade on delete. */
module ProjectRoutes {
  import opened Values
  import opened ObjectIds
  import opened Models
  import opened Database
  import opened Vectors

  const INVALID_PROJECT_ID: string := "Invalid project ID"

  function ProjectNotFound(projectId: string): string {
    "Project " + projectId + " not found"
  }

  /** The list `get_all_projects` may return: every stored project once (in
      the cursor's order, which is not fixed), converted by `project_helper`. */
  predicate ListsAllProjects(list: seq<Project>, projects: map<ObjectId, ProjectDoc>) {
    && |list| == |projects|
    && (forall i :: 0 <= i < |list| ==> list[i].id in projects && ProjectHelper(list[i].id, projects[list[i].id]) == Ok(list[i]))
    && (forall k :: k in projects ==> exists i :: 0 <= i < |list| && list[i].id == k)
  }

  /** `GET /projects` */
  method GetAllProjects(db: Db) returns (r: Response<seq<Project>>)
    ensures r.Ok200? || r.ServerError500?
    ensures db.WellFormed() ==> r.Ok200?
    ensures r.Ok200? ==> ListsAllProjects(r.body, db.projects)
  {
    var projects: seq<Project> := [];
    var cursor := db.projects.Keys;
    while cursor != {}
      invariant cursor <= db.projects.Keys
      invariant |projects| + |cursor| == |db.projects|
      invariant forall i :: 0 <= i < |projects| ==>
        projects[i].id in db.projects && projects[i].id !in cursor
        && ProjectHelper(projects[i].id, db.projects[projects[i].id]) == Ok(projects[i])
      invariant forall k :: k in db.projects && k !in cursor ==> exists i :: 0 <= i < |projects| && projects[i].id == k
    {
      var id :| id in cursor;
      cursor := cursor - {id};
      match ProjectHelper(id, db.projects[id]) {
        case Err(_) =>
          return ServerError500;
        case Ok(project) =>
          ghost var before := projects;
          projects := projects + [project];
          forall k | k in db.projects && k !in cursor
            ensures exists i :: 0 <= i < |projects| && projects[i].id == k
          {
            if k == id {
              assert projects[|projects| - 1].id == k;
            } else {
              var i :| 0 <= i < |before| && before[i].id == k;
              assert projects[i] == before[i];
            }
          }
      }
    }
    return Ok200(projects);
  }

  /** The document `create_project` inserts. */
  function NewProjectDoc(project: ProjectCreate, createdAt: Time, updatedAt: Time): ProjectDoc {
    ProjectDoc(project.title, Present(DescriptionOf(project)), createdAt, updatedAt)
  }

  /** `POST /projects`; `newId` is the id `insert_one` assigns. */
  method CreateProject(db: Db, project: ProjectCreate, newId: ObjectId, createdAt: Time, updatedAt: Time)
    returns (r: Response<Project>)
    requires newId !in db.projects
    modifies db
    ensures db.projects == old(db.projects)[newId := NewProjectDoc(project, createdAt, updatedAt)]
    ensures db.scripts == old(db.scripts) && db.entities == old(db.entities)
    ensures r == Created201(Project(newId, project.title, DescriptionOf(project), createdAt, updatedAt))
    ensures old(db.WellFormed()) ==> db.WellFormed()
  {
    var projectDict := NewProjectDoc(project, createdAt, updatedAt);
    db.projects := db.projects[newId := projectDict];
    var created := ProjectHelper(newId, db.projects[newId]);
    return Created201(created.value);
  }

  /** `GET /projects/{projectId}` */
  method GetProjectById(db: Db, projectId: string) returns (r: Response<Project>)
    ensures r.BadRequest400? <==> !IsValid(projectId)
    ensures r.NotFound404? <==> IsValid(projectId) && Parse(projectId) !in db.projects
    ensures r.Ok200? ==> ProjectHelper(Parse(projectId), db.projects[Parse(projectId)]) == Ok(r.body)
    ensures r.BadRequest400? ==> r.detail == INVALID_PROJECT_ID
    ensures r.NotFound404? ==> r.detail == ProjectNotFound(projectId)
    ensures db.WellFormed() ==> !r.ServerError500? && !r.Created201?
  {
    if !IsValid(projectId) {
      return BadRequest400(INVALID_PROJECT_ID);
    }
    var id := Parse(projectId);
    if id in db.projects {
      match ProjectHelper(id, db.projects[id]) {
        case Err(_) => return ServerError500;
        case Ok(project) => return Ok200(project);
      }
    }
    return NotFound404(ProjectNotFound(projectId));
  }

  /** `$set` of the fields the client sent (`exclude_unset`) plus `updated_at`.
      The title is required in the body, so it is always set. */
  function UpdateProjectDoc(doc: ProjectDoc, data: ProjectCreate, now: Time): (d: ProjectDoc)
    ensures d.title == data.title && d.updatedAt == now && d.createdAt == doc.createdAt
    ensures data.description.Absent? ==> d.description == doc.description
    ensures data.description.Present? ==> d.description == data.description
  {
    doc.(title := data.title,
         description := if data.description.Present? then data.description else doc.description,
         updatedAt := now)
  }

  /** `PUT /projects/{projectId}` */
  method UpdateProject(db: Db, projectId: string, data: ProjectCreate, now: Time) returns (r: Response<Project>)
    modifies db
    ensures db.scripts == old(db.scripts) && db.entities == old(db.entities)
    ensures !IsValid(projectId) ==> r == BadRequest400(INVALID_PROJECT_ID) && db.projects == old(db.projects)
    ensures IsValid(projectId) && Parse(projectId) !in old(db.projects) ==>
      r == NotFound404(ProjectNotFound(projectId)) && db.projects == old(db.projects)
    ensures IsValid(projectId) && Parse(projectId) in old(db.projects) ==>
      var id := Parse(projectId);
      var doc := UpdateProjectDoc(old(db.projects)[id], data, now);
      && db.projects == old(db.projects)[id := doc]
      && r == Ok200(ProjectHelper(id, doc).value)
    ensures old(db.WellFormed()) ==> db.WellFormed()
  {
    if !IsValid(projectId) {
      return BadRequest400(INVALID_PROJECT_ID);
    }
    var id := Parse(projectId);
    if id in db.projects {
      db.projects := db.projects[id := UpdateProjectDoc(db.projects[id], data, now)];
    }
    if id in db.projects {
      match ProjectHelper(id, db.projects[id]) {
        case Err(_) => return ServerError500;
        case Ok(project) => return Ok200(project);
      }
    }
    return NotFound404(ProjectNotFound(projectId));
  }

  /** `DELETE /projects/{projectId}`: removes the project and, only when it
      existed, every script and entity whose `project_id` is the path string
      and the project's vectors. The route does not catch the vector store's
      `NotFoundException` (`indexNotFound`): the request then fails with 500
      after the MongoDB deletes, which stay done. */
  method DeleteProject(db: Db, index: Index, projectId: string, indexNotFound: bool) returns (r: Response<MessageResponse>)
    modifies db, index
    ensures !IsValid(projectId) ==>
      r == BadRequest400(INVALID_PROJECT_ID) && unchanged(db) && unchanged(index)
    ensures IsValid(projectId) && Parse(projectId) !in old(db.projects) ==>
      r == NotFound404(ProjectNotFound(projectId)) && unchanged(db) && unchanged(index)
    ensures IsValid(projectId) && Parse(projectId) in old(db.projects) ==>
      && db.projects == old(db.projects) - {Parse(projectId)}
      && db.scripts == DeleteScriptsOfProject(old(db.scripts), projectId)
      && db.entities == DeleteEntities(old(db.entities), ByProject(projectId))
      && (indexNotFound ==> r == ServerError500 && index.vectors == old(index.vectors))
      && (!indexNotFound ==>
            && r == Ok200(MessageResponse("Project " + projectId + " deleted successfully"))
            && index.vectors == Without(old(index.vectors), ByProject(projectId)))
    ensures old(db.WellFormed()) ==> db.WellFormed()
  {
    if !IsValid(projectId) {
      return BadRequest400(INVALID_PROJECT_ID);
    }
    var id := Parse(projectId);
    var deletedCount := 0;
    if id in db.projects {
      db.projects := db.projects - {id};
      deletedCount := 1;
    }
    if deletedCount == 1 {
      db.scripts := DeleteScriptsOfProject(db.scripts, projectId);
      db.entities := DeleteEntities(db.entities, ByProject(projectId));
      var raised := index.Delete(ByProject(projectId), indexNotFound);
      if raised {
        return ServerError500;
      }
      return Ok200(MessageResponse("Project " + projectId + " deleted successfully"));
    }
    return NotFound404(ProjectNotFound(projectId));
  }
}
