# pen-dash (Scribe's Eye) core, modelled in Dafny

This project models the story-writing dashboard pen-dash and proves properties about the model. The backend is a FastAPI service over three MongoDB collections: projects, scripts and extracted entities. Each script is cut into chunks that are written to a vector index. A language model extracts characters, locations and events from the script text, and questions are answered from the indexed chunks. The front end pages work on an in-memory mock store.

What is modelled:

- **Object ids** (`object_id.dfy`).
  - `ObjectId.is_valid` on a path string: 24 hexadecimal digits, in either case.
  - `ObjectId(s)` / `str(oid)` is lower-casing.
  - `PyObjectId.validate`.
- **Payloads and records** (`models.dfy`).
  - The `min_length=1` titles and the field defaults.
  - A set/unset distinction that `exclude_unset` relies on.
  - The JSON-level validation of the three request bodies.
- **Collections** (`database.dfy`). Each collection is a `map` from id to document, held in the fields of a `Db` object. The document-to-record helpers, `delete_many` filters and `insert_many` are included. A stored `project_id` is the path string exactly as the client sent it, as in the code. The jobs `create_script` schedules carry the new script's printed id (`str(_id)`); only `update_script` passes the raw path string, so entities and vectors written by its jobs carry that string as `script_id`.
- **Vector index and background tasks** (`vectors.dfy`, `tasks.dfy`).
  - The vector index is a sequence of (text, metadata) pairs.
  - `BackgroundTasks` is the list of scheduled jobs.
- **Service** (`langchain_service.dfy`).
  - The extraction loop, as a method with loop invariants proved equal to a recursive specification.
  - The replace-on-non-empty store step.
  - The embed step's delete/add control flow.
  - The QA answer dictionary.
- **Routes** (`routes_projects.dfy`, `routes_scripts.dfy`, `routes_entities.dfy`). Every handler is a method on the `Db`.
  - Id validation comes before any lookup.
  - Partial updates.
  - Cascading deletes.
  - Cursor loops whose visiting order is left open.
- **Front-end pages** (`mock_data.dfy`, `script_editor.dfy`, `project_details.dfy`, `dashboard.dfy`, `qa.dfy`).
  - Each page is a class whose fields are the component state.
  - The shared `mockScripts` array is a `ScriptTable` object that the pages write into.

Clocks, generated ids, the language model's output, the text splitter's chunks and the QA chain's result are parameters of the operations that use them.

The code has no task polling, no staleness check and no unsaved-edit tracking. In the editor, "analysis" is a three-second timer that sets `PROCESSING` and then `COMPLETED`, and that is what is modelled.

## Model

| member | source | states |
|---|---|---|
| Text.Trim | src/pages/ScriptEditor.tsx:29 | the trimmed string is empty exactly when every character is whitespace (JavaScript or Python whitespace set); otherwise it starts and ends with a non-space |
| Text.WordCount | src/pages/ScriptEditor.tsx:140 | `split(/\s+/).filter(Boolean).length` equals the number of word starts, i.e. non-space characters at the start or after a space |
| Text.WordCountZero | src/pages/ScriptEditor.tsx:140 | the word count is 0 exactly when the content is blank, so empty content counts 0 words |
| Text.NatToString | frontend/src/pages/Dashboard.tsx:38 | `String(n)` is a non-empty run of decimal digits without a leading zero |
| Text.NatToStringRoundTrip | frontend/src/pages/Dashboard.tsx:38 | reading the digits of `String(n)` back gives `n` |
| Text.NatToStringInjective | frontend/src/pages/Dashboard.tsx:38 | `String(m) == String(n)` exactly when `m == n` |
| ObjectIds.IsValid | backend/scribe_eye_pro/routes/projects.py:31 | every printed id (24 lower-case hex digits) passes `ObjectId.is_valid` |
| ObjectIds.Parse | backend/scribe_eye_pro/routes/projects.py:33 | `ObjectId(s)` keeps every digit and lower-case letter of `s`, so a printed id converts back to itself |
| ObjectIds.ParseSame | backend/scribe_eye_pro/routes/projects.py:31-33 | two valid path strings find the same document exactly when they agree up to letter case |
| ObjectIds.Validate | backend/scribe_eye_pro/models.py:13-16 | `ValueError` exactly when the value is not a valid id; otherwise the converted (lower-case) id |
| Models.Title | backend/scribe_eye_pro/models.py:25 | a title is accepted exactly when present, a string and of length at least 1 |
| Models.ParseProjectCreate | backend/scribe_eye_pro/models.py:24-29 | a project body is accepted exactly when its title is and its description, if sent, is a string or null; a sent string or null is kept as sent, and an unsent description is recorded as unset |
| Models.ParseScriptCreate | backend/scribe_eye_pro/models.py:31-36 | a script body is accepted exactly when its title is and its content, if sent, is a string or null; a sent string or null is kept as sent, and an unsent content is recorded as unset |
| Models.ParseQuestion | backend/scribe_eye_pro/models.py:38-39 | a question body is accepted exactly when `question` is a string |
| Database.ProjectHelper | backend/scribe_eye_pro/database.py:14-21 | conversion succeeds exactly when the stored title has length at least 1; the id, title and timestamps are copied; a missing description becomes None |
| Database.ScriptHelper | backend/scribe_eye_pro/database.py:23-31 | conversion succeeds exactly when the stored title has length at least 1; id, project id, title and timestamps are copied; a missing content becomes `""` |
| Database.EntityHelper | backend/scribe_eye_pro/database.py:33-43 | conversion succeeds exactly when the name is a string, the description (if any) a string or null and the attributes (if any) an object; the ids, type, name and time are copied, and so are a stored description and attributes; defaults None and `{}` |
| Database.DeleteEntities | backend/scribe_eye_pro/routes/scripts.py:77 | exactly the entities matching the owner filter are removed; every other entity is kept unchanged |
| Database.DeleteScriptsOfProject | backend/scribe_eye_pro/routes/projects.py:64 | exactly the scripts whose `project_id` is the given string are removed; the others are kept unchanged |
| Database.InsertMany | backend/scribe_eye_pro/services/langchain_service.py:77 | every document is stored under its fresh id and nothing stored before changes |
| Vectors.Without | backend/scribe_eye_pro/routes/scripts.py:78 | a vector survives a filtered delete exactly when it was there and does not match the filter |
| Vectors.Paired | backend/scribe_eye_pro/services/langchain_service.py:109 | `add_texts` adds one vector per text, carrying that text and its metadata entry |
| Vectors.Index.Delete | backend/scribe_eye_pro/services/langchain_service.py:104-107 | the index afterwards holds the surviving vectors in their order, or is untouched when the store raises `NotFoundException`, which is reported |
| Vectors.Index.AddTexts | backend/scribe_eye_pro/services/langchain_service.py:109 | the new vectors are appended after the existing ones |
| Tasks.BackgroundTasks.AddTask | backend/scribe_eye_pro/routes/scripts.py:31-32 | a job is appended to the scheduled list and nothing else changes |
| LangchainService.Singular | backend/scribe_eye_pro/services/langchain_service.py:61 | `entity_type[:-1]` is the key without its last character ("characters" gives "character") |
| LangchainService.BuildEntityDocs | backend/scribe_eye_pro/services/langchain_service.py:58-73 | the nested append loop builds exactly the documents of the recursive specification `EntityDocs` |
| LangchainService.DocsForListMembers | backend/scribe_eye_pro/services/langchain_service.py:62-73 | a document comes out of one list exactly when an item of it has a truthy name and the document is built from it |
| LangchainService.EntityDocsMembers | backend/scribe_eye_pro/services/langchain_service.py:58-73 | a document is produced exactly when some item has a truthy name; its type is the singular key, its description and attributes default to `""` and `{}` |
| LangchainService.EntityDocsShape | backend/scribe_eye_pro/services/langchain_service.py:63-71 | every produced document has a truthy name and the given project id, script id and time |
| LangchainService.DocsForListCount | backend/scribe_eye_pro/services/langchain_service.py:62-73 | one list yields at most as many documents as it has items |
| LangchainService.EntityDocsCount | backend/scribe_eye_pro/services/langchain_service.py:58-73 | there are at most as many documents as items across all lists |
| LangchainService.ExtractAndStoreEntities | backend/scribe_eye_pro/services/langchain_service.py:49-78 | null content crashes and blank content returns early, both leaving the entities untouched; otherwise the script's entities are replaced by the new documents only when there is at least one |
| LangchainService.ChunkMetadata | backend/scribe_eye_pro/services/langchain_service.py:101 | one metadata entry per chunk, each holding the project and script id |
| LangchainService.ProcessAndEmbedScript | backend/scribe_eye_pro/services/langchain_service.py:82-110 | null content crashes with the index untouched; blank content only deletes the script's vectors; otherwise the script's vectors are deleted and then one vector per chunk is added; a `NotFoundException` from the delete is caught and only skips the delete |
| LangchainService.EmbedReplacesScriptVectors | backend/scribe_eye_pro/services/langchain_service.py:99-109 | after embedding, the script's vectors are exactly the new chunks tagged with both ids, and every vector of another script is still there |
| LangchainService.QaQuery | backend/scribe_eye_pro/services/langchain_service.py:126-145 | the retrieval asks for the question, filtered to the project, top 4 |
| LangchainService.AnswerQuestion | backend/scribe_eye_pro/services/langchain_service.py:139-155 | the answer echoes the question, takes the chain's result or "Could not find an answer.", and lists the page contents of the source documents in order (none when absent) |
| LangchainService.DeletedProjectRetrievesNothing | backend/scribe_eye_pro/services/langchain_service.py:145 | after the project's vectors are deleted, the project filter lets the retriever return no chunk |
| LangchainService.AnswerGrounded | backend/scribe_eye_pro/services/langchain_service.py:126-149 | when the chain answered the query set up for it, the answer cites at most four chunks, all stored for the asked project |
| ProjectRoutes.GetAllProjects | backend/scribe_eye_pro/routes/projects.py:12-17 | on well-formed data the list holds every stored project exactly once, converted; a failing conversion is a 500 |
| ProjectRoutes.CreateProject | backend/scribe_eye_pro/routes/projects.py:19-27 | one project is inserted with the body's title, description (default None) and the two times, and returned with 201; the other collections are untouched |
| ProjectRoutes.GetProjectById | backend/scribe_eye_pro/routes/projects.py:29-36 | 400 exactly for an invalid id, 404 exactly for a valid id with no project, otherwise the converted project |
| ProjectRoutes.UpdateProjectDoc | backend/scribe_eye_pro/routes/projects.py:43-48 | the title and `updated_at` are set, the description only when sent, and `created_at` is kept |
| ProjectRoutes.UpdateProject | backend/scribe_eye_pro/routes/projects.py:38-53 | 400 for an invalid id and 404 for a missing project, both with nothing changed; otherwise only that project's document is updated |
| ProjectRoutes.DeleteProject | backend/scribe_eye_pro/routes/projects.py:55-70 | 400 or 404 leave everything unchanged; otherwise the project and the scripts and entities with that `project_id` are removed; then the project's vectors are removed with 200, or, when the vector store raises `NotFoundException`, the request fails with 500, the MongoDB deletes stay done and the index is untouched |
| ScriptRoutes.CreateScript | backend/scribe_eye_pro/routes/scripts.py:13-34 | 400 for an invalid id and 404 for a missing project insert nothing and schedule nothing; otherwise the script is stored with the path's project id and the body's title and content, and embed then extract are scheduled on that content |
| ScriptRoutes.GetScriptsForProject | backend/scribe_eye_pro/routes/scripts.py:36-44 | 400 exactly for an invalid id; on well-formed data the list holds exactly the scripts whose `project_id` is the path string, once each |
| ScriptRoutes.UpdateScriptDoc | backend/scribe_eye_pro/routes/scripts.py:51-54 | the title and `updated_at` are set, the content only when sent, and project id and `created_at` are kept |
| ScriptRoutes.UpdateScript | backend/scribe_eye_pro/routes/scripts.py:46-66 | 400 or 404 change nothing and schedule no job; otherwise only that script is updated and embed then extract are scheduled on its stored content (`""` if it has none) |
| ScriptRoutes.DeleteScript | backend/scribe_eye_pro/routes/scripts.py:68-82 | 400 or 404 change nothing; otherwise exactly the script and the entities with that `script_id` are removed; then its vectors are removed with 200, or, when the vector store raises `NotFoundException`, the request fails with 500, the MongoDB deletes stay done and the index is untouched |
| EntityRoutes.QueryFor | backend/scribe_eye_pro/routes/entities.py:19-21 | the query filters on the type exactly when a non-empty `type` string was sent, and then on that string; any string is accepted |
| EntityRoutes.ListedStep | backend/scribe_eye_pro/routes/entities.py:24-25 | appending the converted entity under the key just visited keeps the listing invariant |
| EntityRoutes.ListedConvert | backend/scribe_eye_pro/routes/entities.py:23-26 | a complete listing means every selected entity converted |
| EntityRoutes.GetEntitiesByProject | backend/scribe_eye_pro/routes/entities.py:11-26 | 400 exactly for an invalid id; otherwise the result lists exactly the entities of the project (and of the type, when a non-empty one is given, whatever string it is), and it is a 500 exactly when one of them fails to convert |
| EntityRoutes.AskProjectQuestion | backend/scribe_eye_pro/routes/entities.py:28-37 | 400 for an invalid id, then 404 for a missing project; the retrieval is requested only after both checks pass, and the answer is `answer_question`'s |
| MockData.ScriptIndex | src/pages/ScriptEditor.tsx:34 | `findIndex` gives -1 exactly when no entry has the id, otherwise the first entry with it |
| MockData.FindScript | src/pages/ScriptEditor.tsx:19 | `find` gives the entry `findIndex` points at, or nothing |
| MockData.FindProject | src/pages/ProjectDetails.tsx:27 | `find` gives nothing exactly when no project has the id, otherwise the first project with it |
| MockData.ScriptsOf | src/pages/ProjectDetails.tsx:31 | the filter keeps exactly the entries with the project id |
| MockData.ScriptsOfAppend | src/pages/ProjectDetails.tsx:31 | the filter distributes over concatenation, so it keeps table order |
| MockData.NextScriptId | src/pages/ProjectDetails.tsx:43 | the corrected id for a new script, `String(mockScripts.length + 1)`, differs from every id in a sequentially numbered table (see Findings) |
| MockData.NextScriptIdSequential | src/pages/ProjectDetails.tsx:43-51 | appending under that id keeps the table sequentially numbered |
| ScriptEditorPage.Saved | src/pages/ScriptEditor.tsx:36-37 | a saved entry has the edited title and content and keeps id, project id and creation time |
| ScriptEditorPage.ScriptEditor.Script | src/pages/ScriptEditor.tsx:19 | the page's script is an entry of the table with the page's id; none exactly when no entry has it |
| ScriptEditorPage.ScriptEditor.constructor | src/pages/ScriptEditor.tsx:15-26 | on load the form holds the found script's title and content (empty when not found); no analysis status |
| ScriptEditorPage.ScriptEditor.EditTitle | src/pages/ScriptEditor.tsx:82 | only the title changes |
| ScriptEditorPage.ScriptEditor.EditContent | src/pages/ScriptEditor.tsx:133 | only the content changes |
| ScriptEditorPage.ScriptEditor.HandleSave | src/pages/ScriptEditor.tsx:28-41 | a blank title is refused with the table unchanged; otherwise the untrimmed title and the content go into the first entry with the page's id, if any, and every other entry is unchanged |
| ScriptEditorPage.ScriptEditor.HandleAnalyze | src/pages/ScriptEditor.tsx:43-46 | the status becomes `PROCESSING` and a timer starts, with title and content unread and unchanged; the status stays one of null, `PROCESSING`, `COMPLETED` |
| ScriptEditorPage.ScriptEditor.TimerFires | src/pages/ScriptEditor.tsx:47-50 | a firing timer sets `COMPLETED`; `FAILED` is never reached |
| ScriptEditorPage.ScriptEditor.Counts | src/pages/ScriptEditor.tsx:140 | the footer shows the content length and the word count, which is 0 exactly for blank content |
| ProjectDetailsPage.ScriptIdAsWritten | src/pages/ProjectDetails.tsx:43 | `String(mockScripts.length + scripts.length + 1)` is the fresh id `NextScriptId` exactly when the page lists no scripts of its project |
| ProjectDetailsPage.ScriptIdAsWrittenRepeats | src/pages/ProjectDetails.tsx:43 | on a table of two scripts of project "1" and one of project "2", the id given on project "1" and the id given next on project "2" are both "6" (see Findings) |
| ProjectDetailsPage.ProjectDetails.Project | src/pages/ProjectDetails.tsx:27 | the page's project has the page's id; none (the not-found view) exactly when no project has it |
| ProjectDetailsPage.ProjectDetails.constructor | src/pages/ProjectDetails.tsx:23-33 | the initial list is exactly the table's entries of the project, in order; dialog closed, form empty |
| ProjectDetailsPage.ProjectDetails.SetDialogOpen | src/pages/ProjectDetails.tsx:131 | only the dialog flag changes |
| ProjectDetailsPage.ProjectDetails.EditTitle | src/pages/ProjectDetails.tsx:153 | only the form title changes |
| ProjectDetailsPage.ProjectDetails.HandleSubmit | src/pages/ProjectDetails.tsx:35-55 | a blank title changes nothing; only callable when the project was found (the form exists only then); otherwise one script with the id as written, the project id, the title and empty content is appended to both lists, the dialog closes and the form resets |
| ProjectDetailsPage.SubmitTwiceRepeatsId | src/pages/ProjectDetails.tsx:35-55 | two pages over the seeded projects and table, submitting on project "1" and then on project "2", append two scripts that both have id "6" |
| DashboardPage.NextProjectId | frontend/src/pages/Dashboard.tsx:38 | `String(projects.length + 1)` differs from every id of a sequentially numbered list |
| DashboardPage.Dashboard.constructor | frontend/src/pages/Dashboard.tsx:22-28 | the list starts as the seed list, dialog closed, form empty |
| DashboardPage.Dashboard.SetDialogOpen | frontend/src/pages/Dashboard.tsx:62 | only the dialog flag changes |
| DashboardPage.Dashboard.EditTitle | frontend/src/pages/Dashboard.tsx:91 | only the form title changes |
| DashboardPage.Dashboard.EditDescription | frontend/src/pages/Dashboard.tsx:100 | only the form description changes |
| DashboardPage.Dashboard.HandleSubmit | frontend/src/pages/Dashboard.tsx:30-48 | a blank title changes nothing; otherwise exactly one project with the next id and the untrimmed title and description is appended at the end, the dialog closes and the form resets |
| QAPage.QA.constructor | frontend/src/pages/QA.tsx:18-19 | the conversation starts as the seed list, with an empty question |
| QAPage.QA.EditQuestion | frontend/src/pages/QA.tsx:108 | only the question changes |
| QAPage.QA.AskDisabled | frontend/src/pages/QA.tsx:122 | the Ask button is disabled exactly when the question is blank |
| QAPage.QA.HandleSubmit | frontend/src/pages/QA.tsx:21-36 | refused exactly when the Ask button is disabled, with nothing changed; otherwise the question verbatim and the demo answer are appended after the earlier items and the input is cleared |

## Left out

- ObjectIds.IsValid: bson decodes a 24-character string with `bytes.fromhex`, which also skips whitespace between digit pairs. Such strings are valid there but not here. Byte-string ids are not modelled either.
- ScriptEditorPage.ScriptEditor.Counts: `content.length` counts UTF-16 code units. The model counts characters, so the two differ for characters outside the Basic Multilingual Plane.
- LangchainService.ExtractAndStoreEntities: every document gets one time `now`, while the code calls `datetime.utcnow()` once per document.
- LangchainService.ExtractAndStoreEntities: a model answer that is not a map from keys to lists of objects makes the code raise. This shape is assumed, not checked.
- Truthiness of JSON numbers uses mathematical reals, so NaN and the other floating-point details are not modelled.
- The language model, the text splitter, the embeddings and the QA chain are foreign services. Their outputs are inputs here. Pinecone (`vector_store.py`) is reduced to the delete/add behaviour the code relies on.
- Whether Pinecone answers a delete with `NotFoundException` is an input of the operations that delete. `process_and_embed_script` catches it; `delete_project` and `delete_script` do not, so they answer 500. Any other failure of the vector index or of MongoDB is not modelled.
- A stored document missing a mandatory key makes the helpers raise `KeyError`. The document datatypes always carry those keys, because the backend always writes them.
- A body that fails validation gets a 422 from FastAPI before the handler runs. The route methods take already-validated payloads, and `Models.Parse*` model the validation.
- Background jobs are only scheduled, never run here. Their effects are `ExtractAndStoreEntities` and `ProcessAndEmbedScript`. Concurrency between requests and jobs is not modelled.
- The order of a MongoDB cursor is left open. The listing routes are specified up to order.
- The front-end lists are values, so aliasing of the row objects is lost. In the app, an object shared between `mockScripts` and a page's `scripts` list shows later in-place edits in both places.
- React's render and effect scheduling is reduced to one mount step per page. State updates take effect at once.
- Toast rendering, navigation, markup and styling are not modelled. Toasts are returned as values.
- The contents of the seed data are not part of this model: `mockProjects`, `mockScripts`, `mockEntities` and `mockQA` are constructor parameters. `src/pages/Entities.tsx` is not part of this model, nor is the `Entity` interface of the mock data that only it uses.
- Database client setup, configuration, the application entry point and the HTTP client wrappers of the front end are not part of this model.

## Findings

| source | as written | input that shows it | evidently intended | confidence | as-written member | corrected member |
|---|---|---|---|---|---|---|
| src/pages/ProjectDetails.tsx:43 | a new script's id is `String(mockScripts.length + scripts.length + 1)`, which also counts the project's own scripts | table ids "1","2" (project "1") and "3" (project "2"): adding on project "1" gives "6", then adding on project "2" gives "6" again | a fresh id, `String(mockScripts.length + 1)`, which never repeats in a sequentially numbered table | not executed | ProjectDetailsPage.SubmitTwiceRepeatsId | MockData.NextScriptId |
