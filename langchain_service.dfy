/** services/langchain_service.py: turning the language model's answer into
    entity documents and storing them, writing a script's chunks to the
    vector index, and shaping a question's answer. The model calls and the
    text splitter are outside the model: their outputs are inputs here. */
module LangchainService {
  import opened Values
  import opened Text
  import opened ObjectIds
  import opened Database
  import opened Vectors
  import opened Models

  // ---- entity extraction -------------------------------------------------------

  /** One JSON object of an entity list. */
  type Item = map<string, Json>

  /** The parsed answer of the extraction chain, in the order its keys were
      produced: a plural key such as "characters" and the items under it. */
  type Extracted = seq<(string, seq<Item>)>

  /** `entity_type[:-1]`: the key without its last character ("" stays ""). */
  function Singular(key: string): (r: string)
    ensures key == [] ==> r == []
    ensures key != [] ==> r + [key[|key| - 1]] == key
  {
    if key == [] then [] else key[..|key| - 1]
  }

  /** `item.get("name")` */
  function NameOf(item: Item): Json {
    Lookup(item, "name", JNull)
  }

  /** The document built for one item whose name is truthy. */
  function MakeDoc(key: string, item: Item, projectId: string, scriptId: string, now: Time): EntityDoc {
    EntityDoc(projectId, scriptId, Singular(key), NameOf(item),
              Present(Lookup(item, "description", JStr(""))),
              Present(Lookup(item, "attributes", JObj(map[]))),
              now)
  }

  /** The documents the inner loop appends for one list. */
  function DocsForList(key: string, items: seq<Item>, projectId: string, scriptId: string, now: Time): seq<EntityDoc>
  {
    if items == [] then []
    else
      var last := items[|items| - 1];
      DocsForList(key, items[..|items| - 1], projectId, scriptId, now)
      + (if Truthy(NameOf(last)) then [MakeDoc(key, last, projectId, scriptId, now)] else [])
  }

  /** The documents the nested loop builds for the whole answer. */
  function EntityDocs(extracted: Extracted, projectId: string, scriptId: string, now: Time): seq<EntityDoc>
  {
    if extracted == [] then []
    else
      var last := extracted[|extracted| - 1];
      EntityDocs(extracted[..|extracted| - 1], projectId, scriptId, now)
      + DocsForList(last.0, last.1, projectId, scriptId, now)
  }

  /** The number of items across all lists. */
  function TotalItems(extracted: Extracted): nat {
    if extracted == [] then 0
    else TotalItems(extracted[..|extracted| - 1]) + |extracted[|extracted| - 1].1|
  }

  /** The loop of lines 58-73: one document per item with a truthy name, in
      the order of the keys and of the items. */
  method BuildEntityDocs(extracted: Extracted, projectId: string, scriptId: string, now: Time)
    returns (docs: seq<EntityDoc>)
    ensures docs == EntityDocs(extracted, projectId, scriptId, now)
  {
    docs := [];
    var i := 0;
    while i < |extracted|
      invariant 0 <= i <= |extracted|
      invariant docs == EntityDocs(extracted[..i], projectId, scriptId, now)
    {
      var (entityType, entityList) := extracted[i];
      var singularType := Singular(entityType);
      ghost var before := docs;
      var j := 0;
      while j < |entityList|
        invariant 0 <= j <= |entityList|
        invariant docs == before + DocsForList(entityType, entityList[..j], projectId, scriptId, now)
      {
        var item := entityList[j];
        if Truthy(Lookup(item, "name", JNull)) {
          var entityDoc := EntityDoc(projectId, scriptId, singularType, Lookup(item, "name", JNull),
                                     Present(Lookup(item, "description", JStr(""))),
                                     Present(Lookup(item, "attributes", JObj(map[]))),
                                     now);
          docs := docs + [entityDoc];
        }
        assert entityList[..j + 1][..j] == entityList[..j];
        j := j + 1;
      }
      assert entityList[..|entityList|] == entityList;
      assert extracted[..i + 1][..i] == extracted[..i];
      i := i + 1;
    }
    assert extracted[..|extracted|] == extracted;
  }

  /** A document comes out of one list exactly when some item of it has a
      truthy name and the document is built from that item. */
  lemma {:induction false} DocsForListMembers(key: string, items: seq<Item>, projectId: string, scriptId: string,
                                              now: Time, d: EntityDoc)
    ensures d in DocsForList(key, items, projectId, scriptId, now) <==>
            exists j :: 0 <= j < |items| && Truthy(NameOf(items[j])) && d == MakeDoc(key, items[j], projectId, scriptId, now)
  {
    if items != [] {
      var init := items[..|items| - 1];
      DocsForListMembers(key, init, projectId, scriptId, now, d);
      if d in DocsForList(key, items, projectId, scriptId, now) {
        if d in DocsForList(key, init, projectId, scriptId, now) {
          var j :| 0 <= j < |init| && Truthy(NameOf(init[j])) && d == MakeDoc(key, init[j], projectId, scriptId, now);
          assert items[j] == init[j];
        } else {
          assert Truthy(NameOf(items[|items| - 1]));
        }
      }
      if exists j :: 0 <= j < |items| && Truthy(NameOf(items[j])) && d == MakeDoc(key, items[j], projectId, scriptId, now) {
        var j :| 0 <= j < |items| && Truthy(NameOf(items[j])) && d == MakeDoc(key, items[j], projectId, scriptId, now);
        if j < |items| - 1 {
          assert init[j] == items[j];
        }
      }
    }
  }

  /** `d` is the document built from item `j` of list `i`, whose name is
      truthy. */
  predicate BuiltFrom(extracted: Extracted, projectId: string, scriptId: string, now: Time,
                      d: EntityDoc, i: int, j: int) {
    && 0 <= i < |extracted| && 0 <= j < |extracted[i].1|
    && Truthy(NameOf(extracted[i].1[j]))
    && d == MakeDoc(extracted[i].0, extracted[i].1[j], projectId, scriptId, now)
  }

  lemma {:induction false} EntityDocsSound(extracted: Extracted, projectId: string, scriptId: string,
                                           now: Time, d: EntityDoc)
    requires d in EntityDocs(extracted, projectId, scriptId, now)
    ensures exists i, j :: BuiltFrom(extracted, projectId, scriptId, now, d, i, j)
  {
    var init := extracted[..|extracted| - 1];
    var last := extracted[|extracted| - 1];
    if d in EntityDocs(init, projectId, scriptId, now) {
      EntityDocsSound(init, projectId, scriptId, now, d);
      var i, j :| BuiltFrom(init, projectId, scriptId, now, d, i, j);
      assert extracted[i] == init[i];
      assert BuiltFrom(extracted, projectId, scriptId, now, d, i, j);
    } else {
      DocsForListMembers(last.0, last.1, projectId, scriptId, now, d);
      var j :| 0 <= j < |last.1| && Truthy(NameOf(last.1[j])) && d == MakeDoc(last.0, last.1[j], projectId, scriptId, now);
      assert BuiltFrom(extracted, projectId, scriptId, now, d, |extracted| - 1, j);
    }
  }

  lemma {:induction false} EntityDocsComplete(extracted: Extracted, projectId: string, scriptId: string,
                                              now: Time, d: EntityDoc, i: int, j: int)
    requires BuiltFrom(extracted, projectId, scriptId, now, d, i, j)
    ensures d in EntityDocs(extracted, projectId, scriptId, now)
  {
    var init := extracted[..|extracted| - 1];
    var last := extracted[|extracted| - 1];
    if i < |extracted| - 1 {
      assert init[i] == extracted[i];
      EntityDocsComplete(init, projectId, scriptId, now, d, i, j);
    } else {
      DocsForListMembers(last.0, last.1, projectId, scriptId, now, d);
    }
  }

  /** A document is produced exactly when some item of some list has a truthy
      name and the document is built from that item: its type is the list's
      key without the last character, it carries the given project and script
      ids, the item's name, and the item's description and attributes with the
      defaults `""` and `{}`. */
  lemma EntityDocsMembers(extracted: Extracted, projectId: string, scriptId: string,
                          now: Time, d: EntityDoc)
    ensures d in EntityDocs(extracted, projectId, scriptId, now) <==>
            exists i, j :: BuiltFrom(extracted, projectId, scriptId, now, d, i, j)
  {
    if d in EntityDocs(extracted, projectId, scriptId, now) {
      EntityDocsSound(extracted, projectId, scriptId, now, d);
    }
    if exists i, j :: BuiltFrom(extracted, projectId, scriptId, now, d, i, j) {
      var i, j :| BuiltFrom(extracted, projectId, scriptId, now, d, i, j);
      EntityDocsComplete(extracted, projectId, scriptId, now, d, i, j);
    }
  }

  /** Every produced document has a truthy name and carries the given project
      id, script id and time. */
  lemma EntityDocsShape(extracted: Extracted, projectId: string, scriptId: string, now: Time)
    ensures forall d :: d in EntityDocs(extracted, projectId, scriptId, now) ==>
      Truthy(d.name) && d.projectId == projectId && d.scriptId == scriptId && d.createdAt == now
  {
    forall d | d in EntityDocs(extracted, projectId, scriptId, now)
      ensures Truthy(d.name) && d.projectId == projectId && d.scriptId == scriptId && d.createdAt == now
    {
      EntityDocsMembers(extracted, projectId, scriptId, now, d);
    }
  }

  lemma {:induction false} DocsForListCount(key: string, items: seq<Item>, projectId: string, scriptId: string, now: Time)
    ensures |DocsForList(key, items, projectId, scriptId, now)| <= |items|
  {
    if items != [] {
      DocsForListCount(key, items[..|items| - 1], projectId, scriptId, now);
    }
  }

  /** There are at most as many documents as items. */
  lemma {:induction false} EntityDocsCount(extracted: Extracted, projectId: string, scriptId: string, now: Time)
    ensures |EntityDocs(extracted, projectId, scriptId, now)| <= TotalItems(extracted)
  {
    if extracted != [] {
      var last := extracted[|extracted| - 1];
      EntityDocsCount(extracted[..|extracted| - 1], projectId, scriptId, now);
      DocsForListCount(last.0, last.1, projectId, scriptId, now);
    }
  }

  /** How a run of `extract_and_store_entities` ends. */
  datatype ExtractOutcome =
    | Crashed        // the content was `null`: `.strip()` raises
    | SkippedBlank   // blank content: returns before calling the model
    | Stored(count: nat)

  /** `extract_and_store_entities(content, projectId, scriptId)`. `answer` is
      what the extraction chain returns for the content; `newIds` are the ids
      `insert_many` assigns. */
  method ExtractAndStoreEntities(db: Db, content: Option<string>, projectId: string, scriptId: string,
                                 answer: Extracted, newIds: seq<ObjectId>, now: Time)
    returns (outcome: ExtractOutcome)
    requires |newIds| >= TotalItems(answer) && Distinct(newIds)
    requires forall i :: 0 <= i < |newIds| ==> newIds[i] !in db.entities
    modifies db
    ensures db.projects == old(db.projects) && db.scripts == old(db.scripts)
    ensures content.None? ==> outcome == Crashed && db.entities == old(db.entities)
    ensures content.Some? && Blank(Py, content.value) ==> outcome == SkippedBlank && db.entities == old(db.entities)
    ensures content.Some? && !Blank(Py, content.value) ==>
      var docs := EntityDocs(answer, projectId, scriptId, now);
      && outcome == Stored(|docs|)
      && |docs| <= |newIds|
      && db.entities == if docs == [] then old(db.entities)
                        else InsertMany(DeleteEntities(old(db.entities), ByScript(scriptId)), newIds[..|docs|], docs)
  {
    if content.None? {
      return Crashed;
    }
    if Trim(Py, content.value) == [] {
      return SkippedBlank;
    }
    var entitiesToInsert := BuildEntityDocs(answer, projectId, scriptId, now);
    EntityDocsCount(answer, projectId, scriptId, now);
    if entitiesToInsert != [] {
      var kept := DeleteEntities(db.entities, ByScript(scriptId));
      db.entities := InsertMany(kept, newIds[..|entitiesToInsert|], entitiesToInsert);
    }
    outcome := Stored(|entitiesToInsert|);
  }

  // ---- embedding -------------------------------------------------------------------

  /** `[{"project_id": projectId, "script_id": scriptId} for _ in chunks]` */
  function ChunkMetadata(chunks: seq<string>, projectId: string, scriptId: string): (r: seq<Metadata>)
    ensures |r| == |chunks|
    ensures forall i :: 0 <= i < |r| ==> r[i] == Metadata(projectId, scriptId)
  {
    seq(|chunks|, _ => Metadata(projectId, scriptId))
  }

  /** How a run of `process_and_embed_script` ends. */
  datatype EmbedOutcome =
    | EmbedCrashed          // the content was `null`: `.strip()` raises
    | Cleared               // blank content: the script's vectors are deleted
    | Upserted(count: nat)

  /** `process_and_embed_script(content, projectId, scriptId)`; `chunks` is what
      the text splitter returns for the content, and `indexNotFound` says
      whether the vector store answers the delete with `NotFoundException`,
      which this function catches and ignores. */
  method ProcessAndEmbedScript(index: Index, content: Option<string>, projectId: string, scriptId: string,
                               chunks: seq<string>, indexNotFound: bool)
    returns (outcome: EmbedOutcome)
    modifies index
    ensures content.None? ==> outcome == EmbedCrashed && index.vectors == old(index.vectors)
    ensures content.Some? ==>
      var kept := if indexNotFound then old(index.vectors) else Without(old(index.vectors), ByScript(scriptId));
      && (Blank(Py, content.value) ==> outcome == Cleared && index.vectors == kept)
      && (!Blank(Py, content.value) ==>
            && outcome == Upserted(|chunks|)
            && index.vectors == kept + Paired(chunks, ChunkMetadata(chunks, projectId, scriptId)))
  {
    if content.None? {
      return EmbedCrashed;
    }
    if Trim(Py, content.value) == [] {
      var _ := index.Delete(ByScript(scriptId), indexNotFound);
      return Cleared;
    }
    var metadata := ChunkMetadata(chunks, projectId, scriptId);
    var _ := index.Delete(ByScript(scriptId), indexNotFound);
    index.AddTexts(chunks, metadata);
    outcome := Upserted(|chunks|);
  }

  /** After embedding non-blank content, the vectors of the script are exactly
      the new chunks, each tagged with the project and script ids, and every
      vector of another script is still there. */
  lemma EmbedReplacesScriptVectors(old_vectors: seq<Vector>, chunks: seq<string>, projectId: string, scriptId: string)
    ensures var now_vectors := Without(old_vectors, ByScript(scriptId)) + Paired(chunks, ChunkMetadata(chunks, projectId, scriptId));
      && (forall v :: v in now_vectors && v.meta.scriptId == scriptId ==> v.meta == Metadata(projectId, scriptId) && v.text in chunks)
      && (forall i :: 0 <= i < |chunks| ==> Vector(chunks[i], Metadata(projectId, scriptId)) in now_vectors)
      && (forall v :: v in old_vectors && v.meta.scriptId != scriptId ==> v in now_vectors)
  {
  }

  // ---- question answering -----------------------------------------------------

  /** A document the retriever returned with the chain's answer. */
  datatype SourceDocument = SourceDocument(pageContent: string)

  /** The dict the QA chain returns; either key may be missing. */
  datatype ChainResult = ChainResult(result: Field<string>, sourceDocuments: Field<seq<SourceDocument>>)

  const NO_ANSWER: string := "Could not find an answer."

  /** The retrieval the QA chain is asked to run: the question, restricted to
      the project's chunks, top 4 by similarity. */
  datatype RetrievalQuery = RetrievalQuery(query: string, projectFilter: string, k: nat)

  function QaQuery(projectId: string, question: string): (q: RetrievalQuery)
    ensures q.query == question && q.projectFilter == projectId && q.k == 4
  {
    RetrievalQuery(question, projectId, 4)
  }

  /** The dict `answer_question` returns, given what the chain answered. */
  function AnswerQuestion(question: string, chain: ChainResult): (r: QAResponse)
    ensures r.question == question
    ensures chain.result.Absent? ==> r.answer == NO_ANSWER
    ensures chain.result.Present? ==> r.answer == chain.result.value
    ensures chain.sourceDocuments.Absent? ==> r.sourceChunks == []
    ensures chain.sourceDocuments.Present? ==>
      |r.sourceChunks| == |chain.sourceDocuments.value|
      && forall i :: 0 <= i < |r.sourceChunks| ==> r.sourceChunks[i] == chain.sourceDocuments.value[i].pageContent
  {
    var docs := GetOr(chain.sourceDocuments, []);
    QAResponse(question, GetOr(chain.result, NO_ANSWER), seq(|docs|, i requires 0 <= i < |docs| => docs[i].pageContent))
  }

  /** `chunk` is the text of a stored vector tagged with `projectId`. */
  predicate StoredFor(vectors: seq<Vector>, projectId: string, chunk: string) {
    exists v :: v in vectors && v.meta.projectId == projectId && v.text == chunk
  }

  /** What the retriever may hand the chain for `q`: at most `q.k` stored
      chunks, each tagged with the filtered project. */
  predicate RetrievedFrom(vectors: seq<Vector>, q: RetrievalQuery, docs: seq<SourceDocument>) {
    && |docs| <= q.k
    && forall i :: 0 <= i < |docs| ==> StoredFor(vectors, q.projectFilter, docs[i].pageContent)
  }

  /** An answer cites at most four chunks, and only chunks of the asked
      project, whenever the chain ran the query `answer_question` sets up. */
  lemma AnswerGrounded(vectors: seq<Vector>, projectId: string, question: string, chain: ChainResult)
    requires chain.sourceDocuments.Present? ==>
      RetrievedFrom(vectors, QaQuery(projectId, question), chain.sourceDocuments.value)
    ensures var chunks := AnswerQuestion(question, chain).sourceChunks;
      && |chunks| <= 4
      && forall i :: 0 <= i < |chunks| ==> StoredFor(vectors, projectId, chunks[i])
  {
  }

  /** Once a project's vectors are deleted, the project filter leaves the
      retriever nothing to hand the chain, so no later answer cites a chunk. */
  lemma DeletedProjectRetrievesNothing(vectors: seq<Vector>, projectId: string, question: string,
                                       docs: seq<SourceDocument>)
    requires RetrievedFrom(Without(vectors, ByProject(projectId)), QaQuery(projectId, question), docs)
    ensures docs == []
  {
    var kept := Without(vectors, ByProject(projectId));
    forall v | v in kept
      ensures v.meta.projectId != projectId
    {
      assert !VectorMatches(ByProject(projectId), v);
    }
    assert |docs| > 0 ==> StoredFor(kept, projectId, docs[0].pageContent);
  }
}
