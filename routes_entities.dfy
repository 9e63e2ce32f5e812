/** routes/entities.py: listing a project's extracted entities and asking a
    question about a project. */
module EntityRoutes {
  import opened Values
  import opened ObjectIds
  import opened Models
  import opened Database
  import opened LangchainService

  const INVALID_PROJECT_ID: string := "Invalid project ID"
  const PROJECT_NOT_FOUND: string := "Project not found"

  /** The Mongo query the handler builds: the project id, plus the type when
      one was given. */
  datatype EntityQuery = EntityQuery(projectId: string, entityType: Option<string>)

  /** The query for the `type` parameter as received. The enum listed beside
      the parameter only documents it, so any string arrives here; `if type:`
      adds it only when it is present and not the empty string. */
  function QueryFor(projectId: string, entityType: Option<string>): (q: EntityQuery)
    ensures q.projectId == projectId
    ensures q.entityType.Some? <==> entityType.Some? && entityType.value != ""
    ensures q.entityType.Some? ==> q.entityType == entityType
  {
    if entityType.Some? && entityType.value != "" then EntityQuery(projectId, entityType)
    else EntityQuery(projectId, None)
  }

  predicate Selects(q: EntityQuery, doc: EntityDoc) {
    && doc.projectId == q.projectId
    && (q.entityType.Some? ==> doc.entityType == q.entityType.value)
  }

  /** The list the handler may return for `q`: every selected entity once, in
      the cursor's order, converted by `entity_helper`. */
  predicate ListsEntities(list: seq<Entity>, entities: map<ObjectId, EntityDoc>, q: EntityQuery) {
    && (forall i :: 0 <= i < |list| ==>
          && list[i].id in entities && Selects(q, entities[list[i].id])
          && EntityHelper(list[i].id, entities[list[i].id]) == Ok(list[i]))
    && (forall k :: k in entities && Selects(q, entities[k]) ==> exists i :: 0 <= i < |list| && list[i].id == k)
    && (forall i, j :: 0 <= i < j < |list| ==> list[i].id != list[j].id)
  }

  /** Every selected entity document converts without a validation error. */
  predicate AllConvert(entities: map<ObjectId, EntityDoc>, q: EntityQuery) {
    forall k :: k in entities && Selects(q, entities[k]) ==> EntityHelper(k, entities[k]).Ok?
  }

  /** The loop's progress: `list` lists exactly the selected entities whose
      keys the cursor has already passed. */
  predicate ListedSoFar(list: seq<Entity>, entities: map<ObjectId, EntityDoc>, q: EntityQuery, cursor: set<ObjectId>) {
    && (forall i :: 0 <= i < |list| ==>
          && list[i].id in entities && list[i].id !in cursor && Selects(q, entities[list[i].id])
          && EntityHelper(list[i].id, entities[list[i].id]) == Ok(list[i]))
    && (forall k :: k in entities && k !in cursor && Selects(q, entities[k]) ==> exists i :: 0 <= i < |list| && list[i].id == k)
    && (forall i, j :: 0 <= i < j < |list| ==> list[i].id != list[j].id)
  }

  /** Appending the converted entity under the key just taken from the cursor
      keeps the loop's progress. */
  lemma ListedStep(list: seq<Entity>, e: Entity, entities: map<ObjectId, EntityDoc>, q: EntityQuery,
                   cursor: set<ObjectId>, id: ObjectId)
    requires ListedSoFar(list, entities, q, cursor + {id}) && id !in cursor
    requires id in entities && Selects(q, entities[id]) && EntityHelper(id, entities[id]) == Ok(e)
    ensures ListedSoFar(list + [e], entities, q, cursor)
  {
    var list' := list + [e];
    forall k | k in entities && k !in cursor && Selects(q, entities[k])
      ensures exists i :: 0 <= i < |list'| && list'[i].id == k
    {
      if k == id {
        assert list'[|list|].id == k;
      } else {
        var i :| 0 <= i < |list| && list[i].id == k;
        assert list'[i] == list[i];
      }
    }
  }

  /** A complete listing means every selected document converted. */
  lemma ListedConvert(list: seq<Entity>, entities: map<ObjectId, EntityDoc>, q: EntityQuery)
    requires ListsEntities(list, entities, q)
    ensures AllConvert(entities, q)
  {
  }

  /** `GET /projects/{projectId}/entities?type=...`. As for scripts, the
      project itself is not looked up. */
  method GetEntitiesByProject(db: Db, projectId: string, entityType: Option<string>)
    returns (r: Response<seq<Entity>>)
    ensures r.BadRequest400? <==> !IsValid(projectId)
    ensures r.BadRequest400? ==> r.detail == INVALID_PROJECT_ID
    ensures r.Ok200? || r.BadRequest400? || r.ServerError500?
    ensures IsValid(projectId) ==>
      var q := QueryFor(projectId, entityType);
      && (r.Ok200? <==> AllConvert(db.entities, q))
      && (r.Ok200? ==> ListsEntities(r.body, db.entities, q))
  {
    if !IsValid(projectId) {
      return BadRequest400(INVALID_PROJECT_ID);
    }
    var query := EntityQuery(projectId, None);
    if entityType.Some? && entityType.value != "" {
      query := query.(entityType := entityType);
    }
    var entities: seq<Entity> := [];
    var cursor := db.entities.Keys;
    while cursor != {}
      invariant cursor <= db.entities.Keys
      invariant ListedSoFar(entities, db.entities, query, cursor)
    {
      var id :| id in cursor;
      cursor := cursor - {id};
      if Selects(query, db.entities[id]) {
        var converted := EntityHelper(id, db.entities[id]);
        if converted.Err? {
          return ServerError500;
        }
        ListedStep(entities, converted.value, db.entities, query, cursor, id);
        entities := entities + [converted.value];
      }
    }
    ListedConvert(entities, db.entities, query);
    return Ok200(entities);
  }

  /** `POST /projects/{projectId}/question`. `chain` is what the QA chain
      returns; `query` is the retrieval the handler asks of it, which only
      happens once the project is known to exist. */
  method AskProjectQuestion(db: Db, projectId: string, question: Question, chain: ChainResult)
    returns (r: Response<QAResponse>, query: Option<RetrievalQuery>)
    ensures r.BadRequest400? <==> !IsValid(projectId)
    ensures r.NotFound404? <==> IsValid(projectId) && Parse(projectId) !in db.projects
    ensures r.BadRequest400? ==> r.detail == INVALID_PROJECT_ID
    ensures r.NotFound404? ==> r.detail == PROJECT_NOT_FOUND
    ensures r.Ok200? || r.BadRequest400? || r.NotFound404?
    ensures query.Some? <==> r.Ok200?
    ensures r.Ok200? ==>
      && query.value == QaQuery(projectId, question.question)
      && r.body == AnswerQuestion(question.question, chain)
  {
    if !IsValid(projectId) {
      return BadRequest400(INVALID_PROJECT_ID), None;
    }
    if Parse(projectId) !in db.projects {
      return NotFound404(PROJECT_NOT_FOUND), None;
    }
    query := Some(QaQuery(projectId, question.question));
    r := Ok200(AnswerQuestion(question.question, chain));
  }
}
