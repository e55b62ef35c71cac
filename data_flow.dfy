/**
 * The tasks of data_flow.py: fetch_data (one attempt), process_data,
 * aggregate_results and save_results. A record is the dict fetch_data
 * returns; process_data adds two keys to it in place.
 */
module DataFlow {
  import opened Wrappers
  import opened Decimal

  /** The exceptions the tasks can raise, other than a failed fetch. */
  datatype Error = ZeroDivisionError | KeyError(key: string)

  /**
   * The contents of a record dict at one moment. `processed` and
   * `processedValue` are None while those keys are absent.
   */
  datatype RecordView = RecordView(
    sourceId: int,
    data: int,
    timestamp: real,
    processed: Option<bool>,
    processedValue: Option<int>)

  /** The dict `{"source_id": …, "data": …, "timestamp": …}` and the keys process_data adds. */
  class Record {
    var sourceId: int
    var data: int
    var timestamp: real
    var processed: Option<bool>
    var processedValue: Option<int>

    constructor (sourceId: int, data: int, timestamp: real)
      ensures View() == RecordView(sourceId, data, timestamp, None, None)
    {
      this.sourceId := sourceId;
      this.data := data;
      this.timestamp := timestamp;
      this.processed := None;
      this.processedValue := None;
    }

    function View(): RecordView
      reads this
    {
      RecordView(sourceId, data, timestamp, processed, processedValue)
    }
  }

  /** What `future.result()` gives for a submitted fetch, after the framework's retries. */
  datatype FetchOutcome = Fetched(record: Record) | FetchFailed(message: string)

  /** `random.random() < 0.2` makes an attempt fail. */
  const FAILURE_PROBABILITY: real := 0.2
  /** The range of `random.randint(100, 1000)`, both ends included. */
  const MIN_DATA: int := 100
  const MAX_DATA: int := 1000

  function FetchFailureMessage(sourceId: int): string {
    "Failed to fetch data from source " + IntToString(sourceId)
  }

  /**
   * One attempt of fetch_data. The random draws and the clock are inputs:
   * `roll` is `random.random()`, `value` is `random.randint(100, 1000)`,
   * `timestamp` is `time.time()`. The raised exception becomes FetchFailed
   * carrying its `str`.
   */
  method FetchData(sourceId: int, roll: real, value: int, timestamp: real) returns (outcome: FetchOutcome)
    ensures outcome.FetchFailed? <==> roll < FAILURE_PROBABILITY
    ensures outcome.FetchFailed? ==> outcome.message == FetchFailureMessage(sourceId)
    ensures outcome.Fetched? ==>
      fresh(outcome.record) && outcome.record.View() == RecordView(sourceId, value, timestamp, None, None)
  {
    if roll < FAILURE_PROBABILITY {
      return FetchFailed(FetchFailureMessage(sourceId));
    }
    var record := new Record(sourceId, value, timestamp);
    return Fetched(record);
  }

  /** What fetch_data returns: data drawn from [100, 1000], and neither processing key yet. */
  predicate AsFetched(v: RecordView) {
    MIN_DATA <= v.data <= MAX_DATA && v.processed == None && v.processedValue == None
  }

  /** A record's contents once process_data has run on it. */
  function ProcessedView(v: RecordView): RecordView {
    v.(processed := Some(true), processedValue := Some(v.data * 2))
  }

  function ProcessedViews(vs: seq<RecordView>): seq<RecordView> {
    seq(|vs|, j requires 0 <= j < |vs| => ProcessedView(vs[j]))
  }

  /** Processing twice is processing once, so a record reached twice ends the same. */
  lemma ProcessedViewIdempotent(v: RecordView)
    ensures ProcessedView(ProcessedView(v)) == ProcessedView(v)
  {
  }

  /** process_data: sets `processed` and `processed_value` on the dict itself and returns that dict. */
  method ProcessData(data: Record) returns (result: Record)
    modifies data
    ensures result == data
    ensures data.processed == Some(true) && data.processedValue == Some(2 * data.data)
    ensures data.sourceId == old(data.sourceId) && data.data == old(data.data)
    ensures data.timestamp == old(data.timestamp)
    ensures data.View() == ProcessedView(old(data.View()))
  {
    data.processed := Some(true);
    data.processedValue := Some(data.data * 2);
    result := data;
  }

  /** Every record has the `processed_value` key. */
  predicate AllProcessed(results: seq<RecordView>) {
    forall j :: 0 <= j < |results| ==> results[j].processedValue.Some?
  }

  /** `sum(result["processed_value"] for result in results)`, added left to right. */
  function Total(results: seq<RecordView>): int
    requires AllProcessed(results)
  {
    if |results| == 0 then 0
    else Total(results[..|results| - 1]) + results[|results| - 1].processedValue.value
  }

  /** The dict aggregate_results returns. */
  datatype Aggregated = Aggregated(total: int, average: real, count: nat, sources: seq<int>)

  /**
   * aggregate_results. The sum runs first, so a record without
   * `processed_value` raises KeyError; then the division by `len(results)`
   * raises ZeroDivisionError on an empty list.
   */
  function AggregateResults(results: seq<RecordView>): (r: Result<Aggregated, Error>)
    ensures r == Err(KeyError("processed_value")) <==> !AllProcessed(results)
    ensures r == Err(ZeroDivisionError) <==> AllProcessed(results) && |results| == 0
    ensures r.Ok? <==> AllProcessed(results) && |results| > 0
    ensures r.Ok? ==> r.value.count == |results| && r.value.total == Total(results)
    ensures r.Ok? ==> r.value.average * (r.value.count as real) == r.value.total as real
    ensures r.Ok? ==> |r.value.sources| == |results|
    ensures r.Ok? ==> forall j :: 0 <= j < |results| ==> r.value.sources[j] == results[j].sourceId
  {
    if !AllProcessed(results) then Err(KeyError("processed_value"))
    else if |results| == 0 then Err(ZeroDivisionError)
    else
      var total := Total(results);
      Ok(Aggregated(
           total,
           total as real / |results| as real,
           |results|,
           seq(|results|, j requires 0 <= j < |results| => results[j].sourceId)))
  }

  lemma {:induction false} TotalAppend(a: seq<RecordView>, b: seq<RecordView>)
    requires AllProcessed(a) && AllProcessed(b)
    ensures AllProcessed(a + b) && Total(a + b) == Total(a) + Total(b)
    decreases |b|
  {
    if |b| > 0 {
      var b' := b[..|b| - 1];
      assert (a + b)[..|a + b| - 1] == a + b';
      TotalAppend(a, b');
    } else {
      assert a + b == a;
    }
  }

  lemma AllProcessedPermutation(a: seq<RecordView>, b: seq<RecordView>)
    requires multiset(a) == multiset(b)
    requires AllProcessed(a)
    ensures AllProcessed(b)
  {
    forall j | 0 <= j < |b|
      ensures b[j].processedValue.Some?
    {
      assert b[j] in multiset(a);
    }
  }

  lemma {:induction false} TotalRemove(b: seq<RecordView>, k: nat)
    requires AllProcessed(b) && k < |b|
    ensures AllProcessed(b[..k] + b[k + 1..])
    ensures Total(b) == Total(b[..k] + b[k + 1..]) + b[k].processedValue.value
    decreases |b|
  {
    var n := |b| - 1;
    var rest := b[..k] + b[k + 1..];
    if k == n {
      assert rest == b[..n];
    } else {
      var init := b[..n];
      assert AllProcessed(init) && init[k] == b[k];
      TotalRemove(init, k);
      var restInit := init[..k] + init[k + 1..];
      assert rest == restInit + [b[n]];
      assert AllProcessed(rest);
      assert rest[..|rest| - 1] == restInit;
      assert Total(rest) == Total(restInit) + b[n].processedValue.value;
      assert Total(b) == Total(init) + b[n].processedValue.value;
    }
  }

  lemma MultisetRemoveLast(a: seq<RecordView>, b: seq<RecordView>, k: nat)
    requires multiset(a) == multiset(b)
    requires |a| > 0 && k < |b| && b[k] == a[|a| - 1]
    ensures multiset(a[..|a| - 1]) == multiset(b[..k] + b[k + 1..])
  {
    var x, a', b' := a[|a| - 1], a[..|a| - 1], b[..k] + b[k + 1..];
    assert a == a' + [x];
    assert b == b[..k] + [x] + b[k + 1..];
    assert multiset(b) == multiset(b') + multiset{x};
    assert multiset(a) == multiset(a') + multiset{x};
    assert multiset(a') == multiset(a) - multiset{x};
    assert multiset(b') == multiset(b) - multiset{x};
  }

  /** The total does not depend on the order of the results. */
  lemma {:induction false} TotalPermutation(a: seq<RecordView>, b: seq<RecordView>)
    requires multiset(a) == multiset(b)
    requires AllProcessed(a)
    ensures AllProcessed(b) && Total(a) == Total(b)
    decreases |a|
  {
    AllProcessedPermutation(a, b);
    if |a| > 0 {
      var x := a[|a| - 1];
      assert x in multiset(b) by { assert x in multiset(a); }
      var k :| 0 <= k < |b| && b[k] == x;
      MultisetRemoveLast(a, b, k);
      TotalPermutation(a[..|a| - 1], b[..k] + b[k + 1..]);
      TotalRemove(b, k);
    } else {
      assert |b| == |multiset(b)| == 0;
    }
  }

  /** Bounds on every processed value bound the total. */
  lemma {:induction false} TotalBounds(results: seq<RecordView>, lo: int, hi: int)
    requires AllProcessed(results)
    requires forall j :: 0 <= j < |results| ==> lo <= results[j].processedValue.value <= hi
    ensures lo * |results| <= Total(results) <= hi * |results|
  {
    if |results| > 0 {
      var n := |results|;
      TotalBounds(results[..n - 1], lo, hi);
      assert lo * n == lo * (n - 1) + lo && hi * n == hi * (n - 1) + hi;
    }
  }

  /**
   * With fetched `data` in [100, 1000], each processed value lies in
   * [200, 2000], and so the aggregated total lies in [200 * count, 2000 * count].
   */
  lemma AggregateOfFetchedInRange(fetched: seq<RecordView>)
    requires |fetched| > 0
    requires forall j :: 0 <= j < |fetched| ==> MIN_DATA <= fetched[j].data <= MAX_DATA
    ensures AggregateResults(ProcessedViews(fetched)).Ok?
    ensures var a := AggregateResults(ProcessedViews(fetched)).value;
      && a.count == |fetched|
      && 2 * MIN_DATA * a.count <= a.total <= 2 * MAX_DATA * a.count
  {
    TotalBounds(ProcessedViews(fetched), 2 * MIN_DATA, 2 * MAX_DATA);
  }

  /** Raw data 1, 2, 3 process to 2, 4, 6 and aggregate to total 12, average 4, count 3. */
  lemma AggregateExample(t: real)
    ensures AggregateResults(ProcessedViews([RecordView(0, 1, t, None, None),
                                             RecordView(1, 2, t, None, None),
                                             RecordView(2, 3, t, None, None)]))
            == Ok(Aggregated(12, 4.0, 3, [0, 1, 2]))
  {
    var p0, p1, p2 := RecordView(0, 1, t, Some(true), Some(2)), RecordView(1, 2, t, Some(true), Some(4)),
                      RecordView(2, 3, t, Some(true), Some(6));
    var vs := ProcessedViews([RecordView(0, 1, t, None, None),
                              RecordView(1, 2, t, None, None),
                              RecordView(2, 3, t, None, None)]);
    assert vs == [p0, p1, p2];
    assert [p0, p1, p2][..2] == [p0, p1] && [p0, p1][..1] == [p0] && [p0][..0] == [];
    assert Total([p0]) == 2;
    assert Total([p0, p1]) == 6;
    assert Total(vs) == 12;
    var a := AggregateResults(vs).value;
    assert a.sources == [0, 1, 2];
    assert a.average * 3.0 == 12.0;
  }

  function SavedMessage(count: int): string {
    "Results saved successfully: " + IntToString(count) + " sources processed"
  }

  /** save_results: the message only (the simulated database write is a sleep). */
  function SaveResults(aggregated: Aggregated): string {
    SavedMessage(|aggregated.sources|)
  }

  lemma FramedPartsEqual(p: string, x: string, y: string, q: string)
    requires p + x + q == p + y + q
    ensures x == y
  {
    var s := p + x + q;
    assert x == s[|p|..|s| - |q|];
    assert y == s[|p|..|s| - |q|];
  }

  /** The saved message determines the number of sources it reports, and so is read back exactly. */
  lemma SaveResultsReportsSources(a: Aggregated, b: Aggregated)
    ensures SaveResults(a) == SaveResults(b) <==> |a.sources| == |b.sources|
  {
    if SaveResults(a) == SaveResults(b) {
      FramedPartsEqual("Results saved successfully: ", IntToString(|a.sources|),
                       IntToString(|b.sources|), " sources processed");
      IntToStringInjective(|a.sources|, |b.sources|);
    }
  }
}
