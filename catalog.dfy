/**
 * The professor catalog as read from the JSON file: a list of flat JSON
 * objects. Each object is a map from key to string value; a missing key is a
 * key not in the map (`dict.get` then yields its default, `d[k]` raises).
 */
module Catalog {
  import opened Wrappers

  type Item = map<string, string>

  /** `item.get(key)` */
  function Get(item: Item, key: string): Option<string> {
    if key in item then Some(item[key]) else None
  }

  /** `item.get(key, default)` */
  function GetOr(item: Item, key: string, default: string): string {
    if key in item then item[key] else default
  }

  datatype QaEntry = QaEntry(question: string, answer: string, chunkId: string)

  /** The three conditions of the QA lookup (matching.py:69-71). */
  predicate IsQaOf(item: Item, professorId: string, indicator: string) {
    Get(item, "professor_id") == Some(professorId)
    && Get(item, "type") == Some("qa")
    && Get(item, "indicator") == Some(indicator)
  }

  function EntryOf(item: Item): QaEntry {
    QaEntry(GetOr(item, "question", ""), GetOr(item, "answer", ""), GetOr(item, "chunk_id", ""))
  }

  /** `get_professor_qa_by_indicator` on the loaded data: a filter that keeps order. */
  function QaEntries(data: seq<Item>, professorId: string, indicator: string): (r: seq<QaEntry>)
    ensures |r| <= |data|
  {
    if data == [] then []
    else
      var rest := QaEntries(data[1..], professorId, indicator);
      if IsQaOf(data[0], professorId, indicator) then [EntryOf(data[0])] + rest else rest
  }

  /** Number of catalog items that pass the filter. */
  function CountQa(data: seq<Item>, professorId: string, indicator: string): nat {
    if data == [] then 0
    else (if IsQaOf(data[0], professorId, indicator) then 1 else 0) + CountQa(data[1..], professorId, indicator)
  }

  /** Every entry comes from a matching item, every matching item gives an entry, one per item. */
  lemma {:induction false} QaEntriesExact(data: seq<Item>, professorId: string, indicator: string)
    ensures |QaEntries(data, professorId, indicator)| == CountQa(data, professorId, indicator)
    ensures forall e :: e in QaEntries(data, professorId, indicator) <==>
      exists i :: 0 <= i < |data| && IsQaOf(data[i], professorId, indicator) && e == EntryOf(data[i])
  {
    if data != [] {
      QaEntriesExact(data[1..], professorId, indicator);
      forall e ensures e in QaEntries(data, professorId, indicator) <==>
        exists i :: 0 <= i < |data| && IsQaOf(data[i], professorId, indicator) && e == EntryOf(data[i])
      {
        if e in QaEntries(data[1..], professorId, indicator) {
          var i :| 0 <= i < |data[1..]| && IsQaOf(data[1..][i], professorId, indicator) && e == EntryOf(data[1..][i]);
          assert data[1..][i] == data[i + 1];
        }
        if exists i :: 0 <= i < |data| && IsQaOf(data[i], professorId, indicator) && e == EntryOf(data[i]) {
          var i :| 0 <= i < |data| && IsQaOf(data[i], professorId, indicator) && e == EntryOf(data[i]);
          if i > 0 {
            assert data[1..][i - 1] == data[i];
          }
        }
      }
    }
  }

  /** `list(set(item["professor_id"] for item in data))`; a missing key raises. */
  function CatalogProfessorIds(data: seq<Item>): (r: Result<set<string>, string>)
    ensures r.Ok? <==> forall i :: 0 <= i < |data| ==> "professor_id" in data[i]
    ensures r.Ok? ==> forall p :: p in r.value <==> exists i :: 0 <= i < |data| && data[i]["professor_id"] == p
    ensures r.Err? ==> r.error == "professor_id"
  {
    if data == [] then Ok({})
    else if "professor_id" !in data[0] then Err("professor_id")
    else match CatalogProfessorIds(data[1..])
      case Err(k) => Err(k)
      case Ok(ids) =>
        assert forall i :: 1 <= i < |data| ==> data[i] == data[1..][i - 1];
        Ok({data[0]["professor_id"]} + ids)
  }
}
