/** The vector index the backend writes script chunks to. Only what the
    backend does with it is modelled: deleting the vectors that match an owner
    filter and adding texts with their metadata. */
module Vectors {
  import opened Database

  /** The metadata stored beside each chunk. */
  datatype Metadata = Metadata(projectId: string, scriptId: string)

  datatype Vector = Vector(text: string, meta: Metadata)

  predicate VectorMatches(f: Filter, v: Vector) {
    match f
    case ByProject(p) => v.meta.projectId == p
    case ByScript(s) => v.meta.scriptId == s
  }

  /** The vectors that a `delete(filter=f)` keeps, in order. */
  function Without(vs: seq<Vector>, f: Filter): (r: seq<Vector>)
    ensures forall v :: v in r <==> v in vs && !VectorMatches(f, v)
  {
    if vs == [] then []
    else (if VectorMatches(f, vs[0]) then [] else [vs[0]]) + Without(vs[1..], f)
  }

  /** The vectors that `add_texts(texts, metadatas)` adds. */
  function Paired(texts: seq<string>, metadatas: seq<Metadata>): (r: seq<Vector>)
    requires |texts| == |metadatas|
    ensures |r| == |texts|
    ensures forall i :: 0 <= i < |r| ==> r[i].text == texts[i] && r[i].meta == metadatas[i]
  {
    seq(|texts|, i requires 0 <= i < |texts| => Vector(texts[i], metadatas[i]))
  }

  class Index {
    var vectors: seq<Vector>

    constructor ()
      ensures vectors == []
    {
      vectors := [];
    }

    /** `vector_store_instance.delete(filter=...)`. Whether the store answers
        with `NotFoundException` is its own business, so it is the input
        `notFound`: then nothing is deleted and `raised` reports the exception. */
    method Delete(f: Filter, notFound: bool) returns (raised: bool)
      modifies this
      ensures raised == notFound
      ensures !notFound ==> vectors == Without(old(vectors), f)
      ensures notFound ==> vectors == old(vectors)
    {
      if notFound {
        return true;
      }
      vectors := Without(vectors, f);
      return false;
    }

    /** `vector_store_instance.add_texts(texts=..., metadatas=...)` */
    method AddTexts(texts: seq<string>, metadatas: seq<Metadata>)
      requires |texts| == |metadatas|
      modifies this
      ensures vectors == old(vectors) + Paired(texts, metadatas)
    {
      vectors := vectors + Paired(texts, metadatas);
    }
  }
}
