/** The three MongoDB collections of the backend and the helpers of
    database.py that turn a stored document into a response record. */
module Database {
  import opened Values
  import opened ObjectIds
  import opened Models

  // ---- stored documents ------------------------------------------------------

  /** A document of the `projects` collection (without its `_id`). */
  datatype ProjectDoc = ProjectDoc(title: string, description: Field<Option<string>>,
                                   createdAt: Time, updatedAt: Time)

  /** A document of the `scripts` collection. `projectId` is the path
      parameter the script was created under, kept as the client wrote it. */
  datatype ScriptDoc = ScriptDoc(projectId: string, title: string, content: Field<Option<string>>,
                                 createdAt: Time, updatedAt: Time)

  /** A document of the `entities` collection, as the extraction step writes
      it: `name`, `description` and `attributes` are whatever JSON the
      language model produced. */
  datatype EntityDoc = EntityDoc(projectId: string, scriptId: string, entityType: string,
                                 name: Json, description: Field<Json>, attributes: Field<Json>,
                                 createdAt: Time)

  // ---- document-to-record helpers --------------------------------------------

  /** `project_helper`: builds a `ProjectDB`, whose title keeps `min_length=1`. */
  function ProjectHelper(id: ObjectId, doc: ProjectDoc): (r: Result<Project, ValidationError>)
    ensures r.Ok? <==> 1 <= |doc.title|
    ensures r.Ok? ==> r.value.id == id && r.value.title == doc.title
    ensures r.Ok? ==> r.value.createdAt == doc.createdAt && r.value.updatedAt == doc.updatedAt
    ensures r.Ok? && doc.description.Absent? ==> r.value.description == None
    ensures r.Ok? && doc.description.Present? ==> r.value.description == doc.description.value
  {
    if |doc.title| < 1 then Err(TooShort("title"))
    else Ok(Project(id, doc.title, GetOr(doc.description, None), doc.createdAt, doc.updatedAt))
  }

  /** `script_helper`: builds a `ScriptDB`, whose title keeps `min_length=1`. */
  function ScriptHelper(id: ObjectId, doc: ScriptDoc): (r: Result<Script, ValidationError>)
    ensures r.Ok? <==> 1 <= |doc.title|
    ensures r.Ok? ==> r.value.id == id && r.value.projectId == doc.projectId && r.value.title == doc.title
    ensures r.Ok? ==> r.value.createdAt == doc.createdAt && r.value.updatedAt == doc.updatedAt
    ensures r.Ok? && doc.content.Absent? ==> r.value.content == Some("")
    ensures r.Ok? && doc.content.Present? ==> r.value.content == doc.content.value
  {
    if |doc.title| < 1 then Err(TooShort("title"))
    else Ok(Script(id, doc.projectId, doc.title, GetOr(doc.content, Some("")), doc.createdAt, doc.updatedAt))
  }

  /** An `Optional[str]` field read with `.get(key)`: a missing key is `None`. */
  function OptionalStringField(name: string, f: Field<Json>): Result<Option<string>, ValidationError> {
    match f
    case Absent => Ok(None)
    case Present(v) => OptionalString(name, v)
  }

  /** A `Dict[str, Any]` field read with `.get(key, {})`. */
  function AttributesField(f: Field<Json>): Result<map<string, Json>, ValidationError> {
    match f
    case Absent => Ok(map[])
    case Present(JObj(m)) => Ok(m)
    case Present(_) => Err(WrongType("attributes"))
  }

  /** `entity_helper`: builds an `EntityDB`; pydantic refuses a name that is
      not a string, a description that is neither a string nor null, and
      attributes that are not an object. */
  function EntityHelper(id: ObjectId, doc: EntityDoc): (r: Result<Entity, ValidationError>)
    ensures r.Ok? <==>
      && doc.name.JStr?
      && (doc.description.Present? ==> doc.description.value.JNull? || doc.description.value.JStr?)
      && (doc.attributes.Present? ==> doc.attributes.value.JObj?)
    ensures r.Ok? ==> r.value.id == id && r.value.projectId == doc.projectId && r.value.scriptId == doc.scriptId
    ensures r.Ok? ==> r.value.entityType == doc.entityType && r.value.name == doc.name.s
    ensures r.Ok? ==> r.value.createdAt == doc.createdAt
    ensures r.Ok? && doc.description.Absent? ==> r.value.description == None
    ensures r.Ok? && doc.attributes.Absent? ==> r.value.attributes == map[]
    ensures r.Ok? && doc.description.Present? && doc.description.value.JStr? ==>
      r.value.description == Some(doc.description.value.s)
    ensures r.Ok? && doc.description.Present? && doc.description.value.JNull? ==> r.value.description == None
    ensures r.Ok? && doc.attributes.Present? ==> r.value.attributes == doc.attributes.value.fields
  {
    if !doc.name.JStr? then Err(WrongType("name"))
    else match OptionalStringField("description", doc.description)
      case Err(e) => Err(e)
      case Ok(description) =>
        match AttributesField(doc.attributes)
        case Err(e) => Err(e)
        case Ok(attributes) =>
          Ok(Entity(id, doc.projectId, doc.scriptId, doc.entityType, doc.name.s,
                    description, attributes, doc.createdAt))
  }

  // ---- the collections ---------------------------------------------------------

  /** A `delete_many` filter on an owner key. */
  datatype Filter = ByProject(projectId: string) | ByScript(scriptId: string)

  predicate EntityMatches(f: Filter, doc: EntityDoc) {
    match f
    case ByProject(p) => doc.projectId == p
    case ByScript(s) => doc.scriptId == s
  }

  /** `entity_collection.delete_many(filter)`: every matching entity goes,
      every other one stays as it was. */
  function DeleteEntities(m: map<ObjectId, EntityDoc>, f: Filter): (r: map<ObjectId, EntityDoc>)
    ensures forall k :: k in r <==> k in m && !EntityMatches(f, m[k])
    ensures forall k :: k in r ==> r[k] == m[k]
  {
    map k | k in m && !EntityMatches(f, m[k]) :: m[k]
  }

  /** `script_collection.delete_many({"project_id": projectId})` */
  function DeleteScriptsOfProject(m: map<ObjectId, ScriptDoc>, projectId: string): (r: map<ObjectId, ScriptDoc>)
    ensures forall k :: k in r <==> k in m && m[k].projectId != projectId
    ensures forall k :: k in r ==> r[k] == m[k]
  {
    map k | k in m && m[k].projectId != projectId :: m[k]
  }

  /** No id occurs twice in `ids`. */
  predicate Distinct(ids: seq<ObjectId>) {
    forall i, j :: 0 <= i < j < |ids| ==> ids[i] != ids[j]
  }

  /** `insert_many(docs)`, the server having chosen the fresh ids `ids`: each
      document is stored under its id and nothing already stored changes. */
  function InsertMany(m: map<ObjectId, EntityDoc>, ids: seq<ObjectId>, docs: seq<EntityDoc>): (r: map<ObjectId, EntityDoc>)
    requires |ids| == |docs| && Distinct(ids)
    requires forall i :: 0 <= i < |ids| ==> ids[i] !in m
    ensures r.Keys == m.Keys + set i | 0 <= i < |ids| :: ids[i]
    ensures forall i :: 0 <= i < |ids| ==> r[ids[i]] == docs[i]
    ensures forall k :: k in m ==> r[k] == m[k]
    decreases |docs|
  {
    if docs == [] then m
    else InsertMany(m[ids[0] := docs[0]], ids[1..], docs[1..])
  }

  /** The database: one map per collection, keyed by `_id`. */
  class Db {
    var projects: map<ObjectId, ProjectDoc>
    var scripts: map<ObjectId, ScriptDoc>
    var entities: map<ObjectId, EntityDoc>

    constructor ()
      ensures projects == map[] && scripts == map[] && entities == map[]
    {
      projects, scripts, entities := map[], map[], map[];
    }

    /** Every stored project and script has a title of length at least 1, as
        the payloads they were written from had (so the helpers accept them). */
    predicate WellFormed()
      reads this
    {
      && (forall k :: k in projects ==> 1 <= |projects[k].title|)
      && (forall k :: k in scripts ==> 1 <= |scripts[k].title|)
    }
  }
}
