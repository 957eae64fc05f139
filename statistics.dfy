/**
  The quiz-result log kept in the browser store under one key
  (utils/statistics.ts): read, append and clear. Reading never fails: a
  missing key, an empty string and text that does not parse all read as the
  empty log.
*/
module Statistics {
  import opened Types
  import opened LocalStorage

  const StatsKey: string := "eliteSimulaProStats"

  /** JSON.parse of the stored text as a result list; None where it throws. */
  function Parse(v: StoredValue): (parsed: Option<seq<QuizResult>>)
    ensures parsed.Some? <==> v.Serialized?
    ensures v.Serialized? ==> parsed == Some(v.results)
  {
    match v
    case Serialized(results) => Some(results)
    case Text(_) => None
  }

  /**
    The log as getQuizResults reads it from a store content: the stored list
    when the slot holds one, and the empty log otherwise.
  */
  function StoredResults(items: map<string, StoredValue>): (results: seq<QuizResult>)
    ensures StatsKey !in items || items[StatsKey].Text? ==> results == []
    ensures StatsKey in items && items[StatsKey].Serialized? ==> results == items[StatsKey].results
  {
    if StatsKey !in items || items[StatsKey] == Text("") then []
    else match Parse(items[StatsKey])
      case Some(results) => results
      case None => []
  }

  /** The slot holds non-empty text that is not a result list. */
  predicate Corrupt(items: map<string, StoredValue>)
  {
    StatsKey in items && items[StatsKey].Text? && items[StatsKey] != Text("")
  }

  /** The store content after saveQuizResult: the log read so far, plus `result`, written back under the key. */
  function Saved(items: map<string, StoredValue>, result: QuizResult): (after: map<string, StoredValue>)
    ensures StatsKey in after && after[StatsKey].Serialized?
    ensures forall k :: k != StatsKey ==> (k in after <==> k in items)
    ensures forall k :: k != StatsKey && k in items ==> after[k] == items[k]
  {
    items[StatsKey := Serialized(StoredResults(items) + [result])]
  }

  /** The store content after clearQuizResults: the key is gone and every other key is as it was. */
  function Cleared(items: map<string, StoredValue>): (after: map<string, StoredValue>)
    ensures StatsKey !in after
    ensures forall k :: k != StatsKey ==> (k in after <==> k in items)
    ensures forall k :: k in after ==> after[k] == items[k]
  {
    items - {StatsKey}
  }

  method GetQuizResults(storage: Storage) returns (results: seq<QuizResult>)
    ensures results == StoredResults(storage.items)
    ensures StatsKey !in storage.items || storage.items[StatsKey].Text? ==> results == []
    ensures StatsKey in storage.items && storage.items[StatsKey].Serialized?
            ==> results == storage.items[StatsKey].results
  {
    var json := storage.GetItem(StatsKey);
    if json.None? || json.value == Text("") {
      return [];
    }
    match Parse(json.value)
    case Some(parsed) =>
      results := parsed;
    case None =>
      results := [];
  }

  method SaveQuizResult(storage: Storage, result: QuizResult)
    modifies storage
    ensures storage.items == Saved(old(storage.items), result)
    ensures StoredResults(storage.items) == old(StoredResults(storage.items)) + [result]
  {
    var existing := GetQuizResults(storage);
    var updated := existing + [result];
    storage.SetItem(StatsKey, Serialized(updated));
    SaveAppends(old(storage.items), result);
  }

  method ClearQuizResults(storage: Storage)
    modifies storage
    ensures storage.items == Cleared(old(storage.items))
    ensures StoredResults(storage.items) == []
  {
    storage.RemoveItem(StatsKey);
  }

  /**
    Saving appends: the log grows by exactly one entry, the new last entry is
    the saved result, the earlier entries are untouched, and no other key of
    the store changes.
  */
  lemma SaveAppends(items: map<string, StoredValue>, result: QuizResult)
    ensures StoredResults(Saved(items, result)) == StoredResults(items) + [result]
    ensures |StoredResults(Saved(items, result))| == |StoredResults(items)| + 1
    ensures StoredResults(Saved(items, result))[|StoredResults(items)|] == result
    ensures StoredResults(Saved(items, result))[..|StoredResults(items)|] == StoredResults(items)
    ensures forall k :: k != StatsKey ==> (k in Saved(items, result) <==> k in items)
    ensures forall k :: k != StatsKey && k in items ==> Saved(items, result)[k] == items[k]
  {
  }

  /** Saving never deduplicates: the same result saved twice is logged twice. */
  lemma SaveTwiceLogsTwice(items: map<string, StoredValue>, result: QuizResult)
    ensures StoredResults(Saved(Saved(items, result), result)) == StoredResults(items) + [result, result]
  {
    SaveAppends(items, result);
    SaveAppends(Saved(items, result), result);
  }

  /** A corrupt log is replaced, on the next save, by a log of just that result. */
  lemma SaveOverCorrupt(items: map<string, StoredValue>, result: QuizResult)
    requires Corrupt(items)
    ensures StoredResults(items) == []
    ensures Saved(items, result)[StatsKey] == Serialized([result])
  {
  }

  /** Clearing and then reading gives the empty log whatever was stored, and leaves every other key alone. */
  lemma ClearThenRead(items: map<string, StoredValue>)
    ensures StoredResults(Cleared(items)) == []
    ensures forall k :: k != StatsKey ==> (k in Cleared(items) <==> k in items)
  {
  }
}
