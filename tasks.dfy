/** FastAPI's `BackgroundTasks` as the script routes use it: a list of jobs
    that run after the response is sent. Only the scheduling is modelled. */
module Tasks {
  import opened Values

  /** A scheduled call of `process_and_embed_script` (Embed) or of
      `extract_and_store_entities` (Extract) with its arguments. */
  datatype Job =
    | Embed(content: Option<string>, projectId: string, scriptId: string)
    | Extract(content: Option<string>, projectId: string, scriptId: string)

  class BackgroundTasks {
    var scheduled: seq<Job>

    constructor ()
      ensures scheduled == []
    {
      scheduled := [];
    }

    /** `background_tasks.add_task(...)` */
    method AddTask(job: Job)
      modifies this
      ensures scheduled == old(scheduled) + [job]
    {
      scheduled := scheduled + [job];
    }
  }
}
