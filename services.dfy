/**
 * The boundary to the external capabilities the scoring engine calls: the
 * embedding service, the loaded professor catalog, and the two float powers
 * the source takes. They are passed in as one value instead of module-level
 * clients.
 */
module Services {
  import opened Wrappers
  import opened Similarity
  import opened Catalog

  /** The exceptions the scoring code lets propagate. */
  datatype Error =
    | EmbeddingFailed          // the embedding service raised
    | EmbeddingTooShort        // fewer vectors than texts: the next index raises IndexError
    | MissingKey(key: string)  // `d[key]` on a JSON object without that key
    | NoWorkers                // `ThreadPoolExecutor(max_workers=0)` raises ValueError

  datatype Env = Env(
    catalog: seq<Item>,                         // the contents of professor_data.json
    embed: seq<string> -> Option<seq<Vector>>,  // one batched embeddings call; None when it raises
    sqrt: real -> real,                         // Python's `x ** 0.5`
    pow15: real -> real)                        // Python's `x ** 1.5`

  /**
   * `embed_texts(texts)`: an empty list is answered without calling the
   * service; a result shorter than the input fails at the first missing index,
   * extra vectors are never read.
   */
  function EmbedTexts(env: Env, texts: seq<string>): (r: Result<seq<Vector>, Error>)
    ensures texts == [] ==> r == Ok([])
    ensures r.Ok? ==> |r.value| == |texts|
    ensures texts != [] && env.embed(texts).None? ==> r == Err(EmbeddingFailed)
    ensures r.Ok? && texts != [] ==> env.embed(texts).Some? && r.value <= env.embed(texts).value
    ensures texts != [] && env.embed(texts).Some? && |env.embed(texts).value| >= |texts| ==>
              r == Ok(env.embed(texts).value[..|texts|])
    ensures texts != [] && env.embed(texts).Some? && |env.embed(texts).value| < |texts| ==>
              r == Err(EmbeddingTooShort)
  {
    if texts == [] then Ok([])
    else match env.embed(texts)
      case None => Err(EmbeddingFailed)
      case Some(vs) => if |vs| < |texts| then Err(EmbeddingTooShort) else Ok(vs[..|texts|])
  }
}
