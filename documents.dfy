/**
 * The store's records: a `Document` as it is kept, the `DocumentChunk` a query hands back,
 * the projection from one to the other, and the amount derived from a record's metadata.
 */
module Documents {
  import opened Wrappers

  /**
   * A metadata value, seen through the two things the store does with one: `str(v)`, which
   * keyword search matches against, and `float(v)`, which the amount lookup tries. `number` is
   * what `float(v)` returns, or None where it raises ValueError or TypeError; Python's rules
   * for converting a string are not modelled, only their outcome.
   */
  datatype MetaValue =
    | Null                                        // Python's None
    | Value(text: string, number: Option<real>)   // any other value
    | Label(text: string)                         // a title or type the store copies into a chunk

  type Metadata = map<string, MetaValue>

  /** A stored record. Its metadata is a free-form dictionary. */
  datatype Document = Document(
    docId: string,
    title: string,
    content: string,
    docType: string,
    metadata: Metadata)

  /** What a query returns for one record. */
  datatype Chunk = Chunk(
    docId: string,
    content: string,
    metadata: Metadata,
    score: real)

  /** `str(v)`. */
  function Str(v: MetaValue): string
  {
    match v
    case Null => "None"
    case Value(t, _) => t
    case Label(t) => t
  }

  /**
   * `float(v)` where it returns. `float(None)` raises TypeError. A label is never converted:
   * the store only writes labels under "title" and "doc_type", which are not amount fields.
   */
  function Convert(v: MetaValue): Option<real>
  {
    match v
    case Value(_, n) => n
    case _ => None
  }

  /**
   * The chunk for `d`: `{"title": ..., "doc_type": ..., **d.metadata}`. The record's own
   * metadata wins where it has a "title" or "doc_type" key of its own.
   */
  function Project(d: Document, score: real): (c: Chunk)
    ensures c.docId == d.docId && c.content == d.content && c.score == score
  {
    Chunk(d.docId, d.content,
      map["title" := Label(d.title), "doc_type" := Label(d.docType)] + d.metadata,
      score)
  }

  /** A chunk's metadata is the record's, plus a "title" and a "doc_type" label where the record has none. */
  lemma ProjectMetadata(d: Document, score: real)
    ensures var c := Project(d, score);
      && c.metadata.Keys == d.metadata.Keys + {"title", "doc_type"}
      && (forall k :: k in d.metadata ==> c.metadata[k] == d.metadata[k])
      && ("title" !in d.metadata ==> c.metadata["title"] == Label(d.title))
      && ("doc_type" !in d.metadata ==> c.metadata["doc_type"] == Label(d.docType))
  {
  }

  /** The metadata keys that may hold a record's amount, highest priority first. */
  const AMOUNT_FIELDS: seq<string> := ["total", "amount", "value", "total_amount", "total_value"]

  /** `field` is present, not None, and `float()` accepts its value. */
  predicate Usable(meta: Metadata, field: string)
  {
    field in meta && meta[field] != Null && Convert(meta[field]).Some?
  }

  /** The priority lookup of `_get_document_amount` over `fields`. */
  function AmountIn(meta: Metadata, fields: seq<string>): Option<real>
  {
    if fields == [] then None
    else if Usable(meta, fields[0]) then Convert(meta[fields[0]])
    else AmountIn(meta, fields[1..])
  }

  /** A record's derived amount; None when no amount field is usable (absent, not zero). */
  function Amount(d: Document): Option<real>
  {
    AmountIn(d.metadata, AMOUNT_FIELDS)
  }

  /** Field `fields[i]` is usable and no field before it is. */
  predicate FirstUsable(meta: Metadata, fields: seq<string>, i: int)
  {
    && 0 <= i < |fields|
    && Usable(meta, fields[i])
    && forall j :: 0 <= j < i ==> !Usable(meta, fields[j])
  }

  /**
   * The derived amount is the converted value of the first usable field; a later field counts
   * only when every earlier one is absent, None or not convertible; with no usable field the
   * amount is absent.
   */
  lemma {:induction false} AmountIsFirstUsable(meta: Metadata, fields: seq<string>)
    ensures AmountIn(meta, fields) == None <==> forall i :: 0 <= i < |fields| ==> !Usable(meta, fields[i])
    ensures forall i :: FirstUsable(meta, fields, i) ==> AmountIn(meta, fields) == Convert(meta[fields[i]])
  {
    if fields != [] {
      AmountIsFirstUsable(meta, fields[1..]);
      if !Usable(meta, fields[0]) {
        forall i | FirstUsable(meta, fields, i)
          ensures AmountIn(meta, fields) == Convert(meta[fields[i]])
        {
          assert FirstUsable(meta, fields[1..], i - 1);
        }
        forall i | 0 <= i < |fields[1..]| && !Usable(meta, fields[1..][i])
          ensures !Usable(meta, fields[i + 1])
        {
        }
      }
    }
  }

  /** The lookup of `_get_document_amount_from_chunk` over `fields`: no None test, 0.0 when nothing converts. */
  function ChunkAmountIn(meta: Metadata, fields: seq<string>): real
  {
    if fields == [] then 0.0
    else if fields[0] in meta && Convert(meta[fields[0]]).Some? then Convert(meta[fields[0]]).value
    else ChunkAmountIn(meta, fields[1..])
  }

  /** The amount a chunk is sorted by. */
  function ChunkAmount(c: Chunk): real
  {
    ChunkAmountIn(c.metadata, AMOUNT_FIELDS)
  }

  lemma {:induction false} ChunkAmountInAgrees(d: Document, score: real, fields: seq<string>)
    requires forall i :: 0 <= i < |fields| ==> fields[i] != "title" && fields[i] != "doc_type"
    ensures ChunkAmountIn(Project(d, score).metadata, fields) == AmountIn(d.metadata, fields).GetOr(0.0)
  {
    if fields != [] {
      ChunkAmountInAgrees(d, score, fields[1..]);
    }
  }

  /**
   * Sorting chunks by their chunk-side amount is sorting by the record's derived amount: the
   * missing None test changes nothing, since `float(None)` raises and is skipped too, and a
   * record without an amount would sort as 0.0.
   */
  lemma ChunkAmountOfProjection(d: Document, score: real)
    ensures ChunkAmount(Project(d, score)) == Amount(d).GetOr(0.0)
  {
    ChunkAmountInAgrees(d, score, AMOUNT_FIELDS);
  }
}
