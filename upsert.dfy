/**
 * Building the vector-index records (embadding.py `upsert_chunks`): one
 * embedded text and one metadata map per catalog item, in input order. The
 * embedding call is a parameter; the final `index.upsert` call hands the
 * records to the index and is not part of this model.
 */
module Upsert {
  import opened Wrappers
  import opened Similarity
  import opened Catalog
  import opened Services

  datatype VectorRecord = VectorRecord(id: string, values: Vector, metadata: map<string, string>)

  function Get(item: Item, key: string, default: string): string {
    if key in item then item[key] else default
  }

  predicate IsQa(item: Item) { Get(item, "type", "") == "qa" }

  /** The text to embed: question and answer for a complete QA item, else the item's `content`. */
  function EmbedText(item: Item): Result<string, Error> {
    if IsQa(item) && "question" in item && "answer" in item then
      Ok("질문: " + item["question"] + "\n답변: " + item["answer"])
    else if "content" in item then Ok(item["content"])
    else Err(MissingKey("content"))
  }

  /** The keys copied from the item when present: question, answer, indicator for QA items, title otherwise. */
  function OptionalKeys(item: Item): seq<string> {
    if IsQa(item) then ["question", "answer", "indicator"] else ["title"]
  }

  function CopyPresent(metadata: map<string, string>, item: Item, keys: seq<string>): map<string, string> {
    if keys == [] then metadata
    else
      var m := CopyPresent(metadata, item, keys[..|keys| - 1]);
      var k := keys[|keys| - 1];
      if k in item then m[k := item[k]] else m
  }

  /** The record for one item, or the first `KeyError` or embedding failure in the source's order. */
  function RecordOf(item: Item, embed: string -> Option<Vector>): Result<VectorRecord, Error> {
    match EmbedText(item)
    case Err(e) => Err(e)
    case Ok(text) =>
      match embed(text)
      case None => Err(EmbeddingFailed)
      case Some(vector) =>
        if "professor_id" !in item then Err(MissingKey("professor_id"))
        else if "chunk_id" !in item then Err(MissingKey("chunk_id"))
        else
          var base := map["professor_id" := item["professor_id"], "chunk_id" := item["chunk_id"],
                          "type" := Get(item, "type", ""), "text" := text];
          Ok(VectorRecord(item["chunk_id"], vector, CopyPresent(base, item, OptionalKeys(item))))
  }

  /** All records in input order, or the failure of the first item that fails. */
  function Records(data: seq<Item>, embed: string -> Option<Vector>): (r: Result<seq<VectorRecord>, Error>)
    ensures r.Ok? ==> |r.value| == |data|
  {
    if data == [] then Ok([])
    else match Records(data[..|data| - 1], embed)
      case Err(e) => Err(e)
      case Ok(init) =>
        match RecordOf(data[|data| - 1], embed)
        case Err(e) => Err(e)
        case Ok(rec) => Ok(init + [rec])
  }

  /** One turn of the loop of `upsert_chunks`: the text, the vector, then the metadata key by key. */
  method BuildRecord(item: Item, embed: string -> Option<Vector>) returns (r: Result<VectorRecord, Error>)
    ensures r == RecordOf(item, embed)
  {
    var text: string;
    if IsQa(item) && "question" in item && "answer" in item {
      text := "질문: " + item["question"] + "\n답변: " + item["answer"];
    } else if "content" in item {
      text := item["content"];
    } else {
      return Err(MissingKey("content"));
    }
    var vector := embed(text);
    if vector.None? {
      return Err(EmbeddingFailed);
    }
    if "professor_id" !in item {
      return Err(MissingKey("professor_id"));
    }
    if "chunk_id" !in item {
      return Err(MissingKey("chunk_id"));
    }
    var metadata := map["professor_id" := item["professor_id"], "chunk_id" := item["chunk_id"],
                        "type" := Get(item, "type", ""), "text" := text];
    ghost var base := metadata;
    if IsQa(item) {
      assert ["question"][..0] == [];
      if "question" in item { metadata := metadata["question" := item["question"]]; }
      assert metadata == CopyPresent(base, item, ["question"]);
      assert ["question", "answer"][..1] == ["question"];
      if "answer" in item { metadata := metadata["answer" := item["answer"]]; }
      assert metadata == CopyPresent(base, item, ["question", "answer"]);
      assert ["question", "answer", "indicator"][..2] == ["question", "answer"];
      if "indicator" in item { metadata := metadata["indicator" := item["indicator"]]; }
      assert metadata == CopyPresent(base, item, ["question", "answer", "indicator"]);
    } else {
      assert ["title"][..0] == [];
      if "title" in item { metadata := metadata["title" := item["title"]]; }
      assert metadata == CopyPresent(base, item, ["title"]);
    }
    r := Ok(VectorRecord(item["chunk_id"], vector.value, metadata));
  }

  /** `upsert_chunks` up to the index call: the records sent, in input order. */
  method UpsertChunks(data: seq<Item>, embed: string -> Option<Vector>) returns (r: Result<seq<VectorRecord>, Error>)
    ensures r == Records(data, embed)
  {
    var vectors: seq<VectorRecord> := [];
    for i := 0 to |data|
      invariant Records(data[..i], embed) == Ok(vectors)
    {
      assert data[..i + 1][..i] == data[..i];
      var rec := BuildRecord(data[i], embed);
      if rec.Err? {
        RecordsAfterFailure(data, i + 1, embed);
        return Err(rec.error);
      }
      vectors := vectors + [rec.value];
    }
    assert data[..|data|] == data;
    r := Ok(vectors);
  }

  // ---------------------------------------------------------------------------
  // Properties

  /** A failed prefix fails the whole run with the same error. */
  lemma {:induction false} RecordsAfterFailure(data: seq<Item>, k: nat, embed: string -> Option<Vector>)
    requires k <= |data| && Records(data[..k], embed).Err?
    ensures Records(data, embed) == Records(data[..k], embed)
    decreases |data| - k
  {
    if k < |data| {
      assert data[..k + 1][..k] == data[..k];
      RecordsAfterFailure(data, k + 1, embed);
    } else {
      assert data[..k] == data;
    }
  }

  /** The copied keys are exactly the optional keys the item has, with the item's values; the rest is untouched. */
  lemma {:induction false} CopyPresentSpec(metadata: map<string, string>, item: Item, keys: seq<string>)
    ensures forall k :: k in CopyPresent(metadata, item, keys) <==> k in metadata || (k in keys && k in item)
    ensures forall k :: k in keys && k in item ==> CopyPresent(metadata, item, keys)[k] == item[k]
    ensures forall k :: k !in keys && k in metadata ==> CopyPresent(metadata, item, keys)[k] == metadata[k]
  {
    if keys != [] {
      CopyPresentSpec(metadata, item, keys[..|keys| - 1]);
      assert forall k :: k in keys <==> k in keys[..|keys| - 1] || k == keys[|keys| - 1];
    }
  }

  /** A record carries the item's chunk id as its id and in its metadata, the professor id, the type (default "") and the embedded text. */
  lemma RecordFields(item: Item, embed: string -> Option<Vector>)
    ensures var r := RecordOf(item, embed);
      r.Ok? ==>
        && EmbedText(item).Ok?
        && "chunk_id" in r.value.metadata && "professor_id" in r.value.metadata
        && "type" in r.value.metadata && "text" in r.value.metadata
        && r.value.id == item["chunk_id"]
        && r.value.metadata["chunk_id"] == item["chunk_id"]
        && r.value.metadata["professor_id"] == item["professor_id"]
        && r.value.metadata["type"] == Get(item, "type", "")
        && r.value.metadata["text"] == EmbedText(item).value
        && embed(EmbedText(item).value) == Some(r.value.values)
        && (forall k :: k in r.value.metadata <==>
              k in {"professor_id", "chunk_id", "type", "text"} || (k in OptionalKeys(item) && k in item))
  {
    var r := RecordOf(item, embed);
    if r.Ok? {
      var text := EmbedText(item).value;
      var base := map["professor_id" := item["professor_id"], "chunk_id" := item["chunk_id"],
                      "type" := Get(item, "type", ""), "text" := text];
      CopyPresentSpec(base, item, OptionalKeys(item));
    }
  }

  /** One record per item, in input order. */
  lemma {:induction false} RecordsInOrder(data: seq<Item>, embed: string -> Option<Vector>)
    ensures var r := Records(data, embed);
      r.Ok? ==> forall i :: 0 <= i < |data| ==> RecordOf(data[i], embed) == Ok(r.value[i])
  {
    if data != [] {
      var init := data[..|data| - 1];
      RecordsInOrder(init, embed);
      var r := Records(data, embed);
      if r.Ok? {
        forall i | 0 <= i < |data|
          ensures RecordOf(data[i], embed) == Ok(r.value[i])
        {
          if i < |init| {
            assert data[i] == init[i];
          }
        }
      }
    }
  }

  /** The run fails exactly when some item's record fails. */
  lemma {:induction false} RecordsFailure(data: seq<Item>, embed: string -> Option<Vector>)
    ensures Records(data, embed).Err? <==> exists i :: 0 <= i < |data| && RecordOf(data[i], embed).Err?
  {
    if data != [] {
      var init := data[..|data| - 1];
      RecordsFailure(init, embed);
      assert forall i :: 0 <= i < |init| ==> init[i] == data[i];
    }
  }
}
