/** The request payloads and response records of models.py, with the checks
    pydantic applies to them. */
module Models {
  import opened Values

  // ---- request payloads ------------------------------------------------------

  /** The fields of a `ProjectCreate` body; `description` is `Absent` when the
      client did not send it (that is what `exclude_unset` tells apart). */
  datatype ProjectFields = ProjectFields(title: string, description: Field<Option<string>>)

  /** `ProjectBase`: the title is required and has `min_length=1`. */
  type ProjectCreate = p: ProjectFields | 1 <= |p.title| witness ProjectFields("-", Absent)

  /** The fields of a `ScriptCreate` body; `content` is `Absent` when unset and
      `Present(None)` when the client sent `null`. */
  datatype ScriptFields = ScriptFields(title: string, content: Field<Option<string>>)

  /** `ScriptBase`: the title is required and has `min_length=1`. */
  type ScriptCreate = s: ScriptFields | 1 <= |s.title| witness ScriptFields("-", Absent)

  datatype Question = Question(question: string)

  /** Why pydantic refused a body (FastAPI answers 422). */
  datatype ValidationError = MissingField(name: string) | WrongType(name: string) | TooShort(name: string)

  /** A JSON value accepted by an `Optional[str]` field. */
  function OptionalString(name: string, v: Json): Result<Option<string>, ValidationError> {
    match v
    case JNull => Ok(None)
    case JStr(s) => Ok(Some(s))
    case _ => Err(WrongType(name))
  }

  /** A required `str` field with `min_length=1`. */
  function Title(body: map<string, Json>): (r: Result<string, ValidationError>)
    ensures r.Ok? <==> "title" in body && body["title"].JStr? && |body["title"].s| >= 1
    ensures r.Ok? ==> r.value == body["title"].s
  {
    if "title" !in body then Err(MissingField("title"))
    else match body["title"]
      case JStr(s) => if |s| >= 1 then Ok(s) else Err(TooShort("title"))
      case _ => Err(WrongType("title"))
  }

  /** Validation of a `ProjectCreate` body. Unknown keys are ignored. */
  function ParseProjectCreate(body: map<string, Json>): (r: Result<ProjectCreate, ValidationError>)
    ensures r.Ok? <==> Title(body).Ok? && ("description" in body ==> OptionalString("description", body["description"]).Ok?)
    ensures r.Ok? ==> r.value.title == body["title"].s
    ensures r.Ok? ==> (r.value.description.Absent? <==> "description" !in body)
    ensures r.Ok? && "description" in body && body["description"].JStr? ==> r.value.description == Present(Some(body["description"].s))
    ensures r.Ok? && "description" in body && body["description"].JNull? ==> r.value.description == Present(None)
  {
    match Title(body)
    case Err(e) => Err(e)
    case Ok(title) =>
      if "description" !in body then Ok(ProjectFields(title, Absent))
      else match OptionalString("description", body["description"])
        case Err(e) => Err(e)
        case Ok(d) => Ok(ProjectFields(title, Present(d)))
  }

  /** Validation of a `ScriptCreate` body. Unknown keys are ignored. */
  function ParseScriptCreate(body: map<string, Json>): (r: Result<ScriptCreate, ValidationError>)
    ensures r.Ok? <==> Title(body).Ok? && ("content" in body ==> OptionalString("content", body["content"]).Ok?)
    ensures r.Ok? ==> r.value.title == body["title"].s
    ensures r.Ok? ==> (r.value.content.Absent? <==> "content" !in body)
    ensures r.Ok? && "content" in body && body["content"].JStr? ==> r.value.content == Present(Some(body["content"].s))
    ensures r.Ok? && "content" in body && body["content"].JNull? ==> r.value.content == Present(None)
  {
    match Title(body)
    case Err(e) => Err(e)
    case Ok(title) =>
      if "content" !in body then Ok(ScriptFields(title, Absent))
      else match OptionalString("content", body["content"])
        case Err(e) => Err(e)
        case Ok(c) => Ok(ScriptFields(title, Present(c)))
  }

  /** Validation of a `Question` body. */
  function ParseQuestion(body: map<string, Json>): (r: Result<Question, ValidationError>)
    ensures r.Ok? <==> "question" in body && body["question"].JStr?
    ensures r.Ok? ==> r.value.question == body["question"].s
  {
    if "question" !in body then Err(MissingField("question"))
    else match body["question"]
      case JStr(q) => Ok(Question(q))
      case _ => Err(WrongType("question"))
  }

  /** `project.model_dump()["description"]`: the default is `None`. */
  function DescriptionOf(p: ProjectCreate): Option<string> {
    GetOr(p.description, None)
  }

  /** `script.model_dump()["content"]`, i.e. `script.content`: the default is `""`. */
  function ContentOf(s: ScriptCreate): Option<string> {
    GetOr(s.content, Some(""))
  }

  // ---- response records ------------------------------------------------------

  /** `ProjectDB` / `ProjectResponse` */
  datatype Project = Project(id: string, title: string, description: Option<string>,
                             createdAt: Time, updatedAt: Time)

  /** `ScriptDB` / `ScriptResponse` */
  datatype Script = Script(id: string, projectId: string, title: string, content: Option<string>,
                           createdAt: Time, updatedAt: Time)

  /** `EntityDB` / `EntityResponse` */
  datatype Entity = Entity(id: string, projectId: string, scriptId: string, entityType: string,
                           name: string, description: Option<string>,
                           attributes: map<string, Json>, createdAt: Time)

  datatype QAResponse = QAResponse(question: string, answer: string, sourceChunks: seq<string>)

  datatype MessageResponse = MessageResponse(message: string)

  /** How a route answers. */
  datatype Response<+T> =
    | Ok200(body: T)
    | Created201(body: T)
    | BadRequest400(detail: string)
    | NotFound404(detail: string)
    | ServerError500
}
