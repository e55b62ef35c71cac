/**
 * The two flows of data_flow.py, with each submitted fetch already resolved
 * to its final outcome. The outcomes are listed in submission order, one per
 * source id 0, 1, 2, ...
 */
module Flows {
  import opened Wrappers
  import opened Decimal
  import opened PyDict
  import opened DataFlow

  /** A flow either returns its string or ends with an exception. */
  datatype FlowResult = Returned(value: string) | Raised(error: Error)

  /** The advanced flow processes only with at least this many successful fetches. */
  const MIN_SUCCESSES: nat := 3

  /** `len(range(numSources))` */
  function RangeLength(numSources: int): nat {
    if numSources > 0 then numSources else 0
  }

  // ---------------------------------------------------------------------------
  // What the loops over the outcomes collect

  /** The fetched records, in submission order. */
  function Successes(outcomes: seq<FetchOutcome>): seq<Record> {
    if |outcomes| == 0 then []
    else
      var last := outcomes[|outcomes| - 1];
      Successes(outcomes[..|outcomes| - 1]) + (if last.Fetched? then [last.record] else [])
  }

  /** The indices of the successful fetches, in increasing order. */
  function SuccessIndices(outcomes: seq<FetchOutcome>): (ids: seq<nat>)
    ensures forall j :: 0 <= j < |ids| ==> ids[j] < |outcomes|
  {
    if |outcomes| == 0 then []
    else
      var i := |outcomes| - 1;
      SuccessIndices(outcomes[..i]) + (if outcomes[i].Fetched? then [i] else [])
  }

  /** `(i, str(e))` for each failed fetch, in increasing order of i. */
  function FailedEntries(outcomes: seq<FetchOutcome>): seq<(nat, string)> {
    if |outcomes| == 0 then []
    else
      var i := |outcomes| - 1;
      FailedEntries(outcomes[..i]) + (if outcomes[i].FetchFailed? then [(i, outcomes[i].message)] else [])
  }

  /** The records a flow may change: those its fetches returned. */
  function RecordsOf(outcomes: seq<FetchOutcome>): set<Record> {
    set r | r in Successes(outcomes)
  }

  /** The contents of the records, in order. */
  function Views(rs: seq<Record>): (vs: seq<RecordView>)
    reads set r | r in rs
    ensures |vs| == |rs|
    ensures forall j :: 0 <= j < |rs| ==> vs[j] == rs[j].View()
  {
    if |rs| == 0 then [] else Views(rs[..|rs| - 1]) + [rs[|rs| - 1].View()]
  }

  /** The successful fetches are exactly the records at the successful indices, one to one, in order. */
  lemma {:induction false} SuccessesAtIndices(outcomes: seq<FetchOutcome>)
    ensures |Successes(outcomes)| == |SuccessIndices(outcomes)|
    ensures forall j :: 0 <= j < |SuccessIndices(outcomes)| ==>
      SuccessIndices(outcomes)[j] < |outcomes| &&
      outcomes[SuccessIndices(outcomes)[j]] == Fetched(Successes(outcomes)[j])
  {
    if |outcomes| > 0 {
      var i := |outcomes| - 1;
      SuccessesAtIndices(outcomes[..i]);
    }
  }

  lemma {:induction false} SuccessIndexMembership(outcomes: seq<FetchOutcome>)
    ensures forall i :: 0 <= i < |outcomes| ==> (i in SuccessIndices(outcomes) <==> outcomes[i].Fetched?)
  {
    if |outcomes| > 0 {
      SuccessIndexMembership(outcomes[..|outcomes| - 1]);
    }
  }

  lemma {:induction false} FailedEntryMembership(outcomes: seq<FetchOutcome>)
    ensures forall i :: 0 <= i < |outcomes| && outcomes[i].FetchFailed? ==>
      (i, outcomes[i].message) in FailedEntries(outcomes)
    ensures forall e :: e in FailedEntries(outcomes) ==> e.0 < |outcomes| && outcomes[e.0] == FetchFailed(e.1)
  {
    if |outcomes| > 0 {
      FailedEntryMembership(outcomes[..|outcomes| - 1]);
    }
  }

  lemma {:induction false} PartitionSizes(outcomes: seq<FetchOutcome>)
    ensures |SuccessIndices(outcomes)| + |FailedEntries(outcomes)| == |outcomes|
  {
    if |outcomes| > 0 {
      PartitionSizes(outcomes[..|outcomes| - 1]);
    }
  }

  /** Every index ends up in exactly one place: among the successes or, with its message, among the failures. */
  lemma IndicesPartition(outcomes: seq<FetchOutcome>)
    ensures forall i :: 0 <= i < |outcomes| ==> (i in SuccessIndices(outcomes) <==> outcomes[i].Fetched?)
    ensures forall i :: 0 <= i < |outcomes| && outcomes[i].FetchFailed? ==>
      (i, outcomes[i].message) in FailedEntries(outcomes)
    ensures forall e :: e in FailedEntries(outcomes) ==> e.0 < |outcomes| && outcomes[e.0] == FetchFailed(e.1)
    ensures |SuccessIndices(outcomes)| + |FailedEntries(outcomes)| == |outcomes|
  {
    SuccessIndexMembership(outcomes);
    FailedEntryMembership(outcomes);
    PartitionSizes(outcomes);
  }

  /** Both lists are in strictly increasing index order. */
  lemma {:induction false} IndicesIncreasing(outcomes: seq<FetchOutcome>)
    ensures forall j, k :: 0 <= j < k < |SuccessIndices(outcomes)| ==>
      SuccessIndices(outcomes)[j] < SuccessIndices(outcomes)[k]
    ensures forall j, k :: 0 <= j < k < |FailedEntries(outcomes)| ==>
      FailedEntries(outcomes)[j].0 < FailedEntries(outcomes)[k].0
  {
    if |outcomes| > 0 {
      var i := |outcomes| - 1;
      IndicesIncreasing(outcomes[..i]);
      SuccessesAtIndices(outcomes[..i]);
      IndicesPartition(outcomes[..i]);
    }
  }

  /** One more outcome extends each list by at most its own entry. */
  lemma PrefixStep(outcomes: seq<FetchOutcome>, i: nat)
    requires i < |outcomes|
    ensures Successes(outcomes[..i + 1]) ==
      Successes(outcomes[..i]) + (if outcomes[i].Fetched? then [outcomes[i].record] else [])
    ensures SuccessIndices(outcomes[..i + 1]) ==
      SuccessIndices(outcomes[..i]) + (if outcomes[i].Fetched? then [i] else [])
    ensures FailedEntries(outcomes[..i + 1]) ==
      FailedEntries(outcomes[..i]) + (if outcomes[i].FetchFailed? then [(i, outcomes[i].message)] else [])
  {
    assert outcomes[..i + 1][..i] == outcomes[..i];
  }

  lemma {:induction false} FetchedIsSuccess(outcomes: seq<FetchOutcome>, i: nat)
    requires i < |outcomes| && outcomes[i].Fetched?
    ensures outcomes[i].record in Successes(outcomes)
  {
    var n := |outcomes| - 1;
    if i < n {
      FetchedIsSuccess(outcomes[..n], i);
    }
  }

  // ---------------------------------------------------------------------------
  // What the flows return

  /** Process every fetched record, aggregate, save: the common tail of both flows. */
  function ProcessAggregateSave(fetched: seq<RecordView>): FlowResult {
    match AggregateResults(ProcessedViews(fetched))
    case Ok(aggregated) => Returned(SaveResults(aggregated))
    case Err(e) => Raised(e)
  }

  const INSUFFICIENT_PREFIX: string := "Flow failed: insufficient data sources ("

  function InsufficientMessage(succeeded: int, numSources: int): string {
    INSUFFICIENT_PREFIX + IntToString(succeeded) + "/" + IntToString(numSources) + ")"
  }

  /** The threshold rule of the advanced flow, on the fetched records' contents. */
  function AdvancedOutcome(fetched: seq<RecordView>, numSources: int): FlowResult {
    if |fetched| >= MIN_SUCCESSES then ProcessAggregateSave(fetched)
    else Returned(InsufficientMessage(|fetched|, numSources))
  }

  /** The tail reports as many sources as there were successful fetches, and raises only when there were none. */
  lemma ProcessAggregateSaveCases(fetched: seq<RecordView>)
    ensures ProcessAggregateSave(fetched) ==
      if |fetched| == 0 then Raised(ZeroDivisionError) else Returned(SavedMessage(|fetched|))
  {
    var processed := ProcessedViews(fetched);
    assert AllProcessed(processed);
  }

  /** k >= 3 successes: the saved message for k sources; fewer: the failure description. Never raises. */
  lemma AdvancedOutcomeCases(fetched: seq<RecordView>, numSources: int)
    ensures AdvancedOutcome(fetched, numSources) ==
      Returned(if |fetched| >= MIN_SUCCESSES then SavedMessage(|fetched|)
               else InsufficientMessage(|fetched|, numSources))
  {
    ProcessAggregateSaveCases(fetched);
  }

  lemma FirstSlash(a: string, b: string)
    requires forall j :: 0 <= j < |a| ==> a[j] != '/'
    ensures (a + "/" + b)[|a|] == '/'
    ensures forall j :: 0 <= j < |a| ==> (a + "/" + b)[j] != '/'
  {
  }

  lemma SlashSplit(a: string, b: string, c: string, d: string)
    requires forall j :: 0 <= j < |a| ==> a[j] != '/'
    requires forall j :: 0 <= j < |c| ==> c[j] != '/'
    requires a + "/" + b == c + "/" + d
    ensures a == c && b == d
  {
    var s := a + "/" + b;
    FirstSlash(a, b);
    FirstSlash(c, d);
    assert |a| == |c|;
    assert a == s[..|a|] && c == s[..|c|];
    assert b == s[|a| + 1..] && d == s[|c| + 1..];
  }

  lemma InsufficientMessageParts(a: string, b: string)
    ensures INSUFFICIENT_PREFIX + a + "/" + b + ")" == INSUFFICIENT_PREFIX + (a + "/" + b) + ")"
  {
  }

  /** The failure description can be read back: it determines both counts. */
  lemma InsufficientMessageInjective(k1: int, n1: int, k2: int, n2: int)
    ensures InsufficientMessage(k1, n1) == InsufficientMessage(k2, n2) <==> k1 == k2 && n1 == n2
  {
    if InsufficientMessage(k1, n1) == InsufficientMessage(k2, n2) {
      var a1, b1, a2, b2 := IntToString(k1), IntToString(n1), IntToString(k2), IntToString(n2);
      InsufficientMessageParts(a1, b1);
      InsufficientMessageParts(a2, b2);
      FramedPartsEqual(INSUFFICIENT_PREFIX, a1 + "/" + b1, a2 + "/" + b2, ")");
      SlashSplit(a1, b1, a2, b2);
      IntToStringInjective(k1, k2);
      IntToStringInjective(n1, n2);
    }
  }

  /** A caller can tell the two outcomes of the advanced flow apart from the string alone. */
  lemma SavedIsNotInsufficient(k: int, succeeded: int, numSources: int)
    ensures SavedMessage(k) != InsufficientMessage(succeeded, numSources)
  {
    var x := IntToString(succeeded) + "/" + IntToString(numSources) + ")";
    assert InsufficientMessage(succeeded, numSources) == INSUFFICIENT_PREFIX + x;
    assert (INSUFFICIENT_PREFIX + x)[0] == 'F';
    assert SavedMessage(k)[0] == 'R';
  }

  /** Every fetched record holds its own index as `source_id` and is as fetch_data returned it. */
  predicate FetchedAsSubmitted(outcomes: seq<FetchOutcome>)
    reads set k | 0 <= k < |outcomes| && outcomes[k].Fetched? :: outcomes[k].record
  {
    forall k :: 0 <= k < |outcomes| && outcomes[k].Fetched? ==>
      outcomes[k].record.sourceId == k && AsFetched(outcomes[k].record.View())
  }

  /**
   * On the outcomes of freshly submitted fetches, the aggregated `sources`
   * list is the list of the successful indices in submission order, and the
   * total lies in [200 * count, 2000 * count].
   */
  lemma SourcesAreSuccessfulIndices(outcomes: seq<FetchOutcome>)
    requires FetchedAsSubmitted(outcomes)
    requires |Successes(outcomes)| > 0
    ensures AggregateResults(ProcessedViews(Views(Successes(outcomes)))).Ok?
    ensures AggregateResults(ProcessedViews(Views(Successes(outcomes)))).value.sources == SuccessIndices(outcomes)
    ensures var a := AggregateResults(ProcessedViews(Views(Successes(outcomes)))).value;
      2 * MIN_DATA * a.count <= a.total <= 2 * MAX_DATA * a.count
  {
    SuccessesAtIndices(outcomes);
    var fetched := Views(Successes(outcomes));
    forall j | 0 <= j < |fetched|
      ensures fetched[j].sourceId == SuccessIndices(outcomes)[j]
      ensures MIN_DATA <= fetched[j].data <= MAX_DATA
    {
      var k := SuccessIndices(outcomes)[j];
      assert outcomes[k] == Fetched(Successes(outcomes)[j]);
    }
    AggregateOfFetchedInRange(fetched);
  }

  // ---------------------------------------------------------------------------
  // The flows

  /** Once every fetched record is processed, the snapshot of the successes is the processed snapshot. */
  twostate lemma ProcessedSnapshot(outcomes: seq<FetchOutcome>)
    requires forall i :: 0 <= i < |outcomes| && outcomes[i].Fetched? ==>
      outcomes[i].record.View() == ProcessedView(old(outcomes[i].record.View()))
    ensures Views(Successes(outcomes)) == ProcessedViews(old(Views(Successes(outcomes))))
  {
    SuccessesAtIndices(outcomes);
    var now, before := Views(Successes(outcomes)), old(Views(Successes(outcomes)));
    forall j | 0 <= j < |now|
      ensures now[j] == ProcessedView(before[j])
    {
      var i, r := SuccessIndices(outcomes)[j], Successes(outcomes)[j];
      assert outcomes[i] == Fetched(r);
      assert r.View() == ProcessedView(old(r.View()));
      assert now[j] == r.View() && before[j] == old(r.View());
    }
    assert |now| == |ProcessedViews(before)|;
  }

  /** Fetch k of the first |outcomes| failed exactly when its roll was low, and otherwise returned what it drew for source k. */
  predicate SubmittedSoFar(outcomes: seq<FetchOutcome>, rolls: seq<real>, values: seq<int>, timestamps: seq<real>)
    requires |outcomes| <= |rolls| && |outcomes| <= |values| && |outcomes| <= |timestamps|
    reads set k | 0 <= k < |outcomes| && outcomes[k].Fetched? :: outcomes[k].record
  {
    forall k :: 0 <= k < |outcomes| ==>
      && (outcomes[k].FetchFailed? <==> rolls[k] < FAILURE_PROBABILITY)
      && (outcomes[k].FetchFailed? ==> outcomes[k].message == FetchFailureMessage(k))
      && (outcomes[k].Fetched? ==>
            outcomes[k].record.View() == RecordView(k, values[k], timestamps[k], None, None))
  }

  lemma SubmittedStep(outcomes: seq<FetchOutcome>, outcome: FetchOutcome, rolls: seq<real>, values: seq<int>, timestamps: seq<real>)
    requires |outcomes| < |rolls| && |outcomes| < |values| && |outcomes| < |timestamps|
    requires SubmittedSoFar(outcomes, rolls, values, timestamps)
    requires outcome.FetchFailed? <==> rolls[|outcomes|] < FAILURE_PROBABILITY
    requires outcome.FetchFailed? ==> outcome.message == FetchFailureMessage(|outcomes|)
    requires outcome.Fetched? ==>
      outcome.record.View() == RecordView(|outcomes|, values[|outcomes|], timestamps[|outcomes|], None, None)
    ensures SubmittedSoFar(outcomes + [outcome], rolls, values, timestamps)
  {
    var next := outcomes + [outcome];
    forall k | 0 <= k < |next|
      ensures next[k] == if k < |outcomes| then outcomes[k] else outcome
    {
    }
  }

  /**
   * Pattern 1 of both flows: one fetch per source id in `range(num_sources)`,
   * in order. `rolls[i]`, `values[i]` and `timestamps[i]` are the draws of the
   * final attempt of fetch i, the one that decides its resolved outcome once
   * the retries are spent; the values lie in [100, 1000] because
   * `random.randint` draws them there.
   */
  method SubmitFetches(numSources: int, rolls: seq<real>, values: seq<int>, timestamps: seq<real>)
    returns (outcomes: seq<FetchOutcome>)
    requires |rolls| == RangeLength(numSources) && |values| == RangeLength(numSources)
    requires |timestamps| == RangeLength(numSources)
    requires forall i :: 0 <= i < |values| ==> MIN_DATA <= values[i] <= MAX_DATA
    ensures |outcomes| == RangeLength(numSources)
    ensures forall i :: 0 <= i < |outcomes| ==> (outcomes[i].FetchFailed? <==> rolls[i] < FAILURE_PROBABILITY)
    ensures forall i :: 0 <= i < |outcomes| && outcomes[i].FetchFailed? ==>
      outcomes[i].message == FetchFailureMessage(i)
    ensures forall i :: 0 <= i < |outcomes| && outcomes[i].Fetched? ==>
      fresh(outcomes[i].record) && outcomes[i].record.View() == RecordView(i, values[i], timestamps[i], None, None)
    ensures FetchedAsSubmitted(outcomes)
  {
    outcomes := [];
    for i := 0 to RangeLength(numSources)
      invariant |outcomes| == i
      invariant forall k :: 0 <= k < i && outcomes[k].Fetched? ==> fresh(outcomes[k].record)
      invariant SubmittedSoFar(outcomes, rolls, values, timestamps)
    {
      var outcome := FetchData(i, rolls[i], values[i], timestamps[i]);
      SubmittedStep(outcomes, outcome, rolls, values, timestamps);
      outcomes := outcomes + [outcome];
    }
    forall k | 0 <= k < |outcomes| && outcomes[k].Fetched?
      ensures outcomes[k].record.sourceId == k && AsFetched(outcomes[k].record.View())
    {
      assert outcomes[k].record.View() == RecordView(k, values[k], timestamps[k], None, None);
    }
  }

  /**
   * Pattern 2 of parallel_data_flow: for each fetch in submission order, a
   * success is processed and kept, a failure is skipped.
   */
  method GatherProcessed(outcomes: seq<FetchOutcome>) returns (processed: seq<Record>)
    modifies RecordsOf(outcomes)
    ensures processed == Successes(outcomes)
    ensures Views(processed) == ProcessedViews(old(Views(Successes(outcomes))))
    ensures forall i :: 0 <= i < |outcomes| && outcomes[i].Fetched? ==>
      outcomes[i].record.View() == ProcessedView(old(outcomes[i].record.View()))
  {
    processed := [];
    ghost var done: set<Record> := {};
    for i := 0 to |outcomes|
      invariant processed == Successes(outcomes[..i])
      invariant forall k :: 0 <= k < i && outcomes[k].Fetched? ==> outcomes[k].record in done
      invariant forall k :: 0 <= k < |outcomes| && outcomes[k].Fetched? && outcomes[k].record in done ==>
        outcomes[k].record.View() == ProcessedView(old(outcomes[k].record.View()))
      invariant forall k :: 0 <= k < |outcomes| && outcomes[k].Fetched? && outcomes[k].record !in done ==>
        outcomes[k].record.View() == old(outcomes[k].record.View())
    {
      PrefixStep(outcomes, i);
      match outcomes[i]
      case Fetched(data) =>
        FetchedIsSuccess(outcomes, i);
        ProcessedViewIdempotent(old(data.View()));
        var result := ProcessData(data);
        processed := processed + [result];
        done := done + {data};
      case FetchFailed(_) =>
    }
    assert outcomes[..|outcomes|] == outcomes;
    ProcessedSnapshot(outcomes);
  }

  /**
   * parallel_data_flow. It raises ZeroDivisionError when no fetch succeeded;
   * otherwise it returns the saved message for the successful fetches.
   */
  method ParallelDataFlow(outcomes: seq<FetchOutcome>) returns (result: FlowResult)
    modifies RecordsOf(outcomes)
    ensures result == ProcessAggregateSave(old(Views(Successes(outcomes))))
    ensures forall i :: 0 <= i < |outcomes| && outcomes[i].Fetched? ==>
      outcomes[i].record.View() == ProcessedView(old(outcomes[i].record.View()))
  {
    var processedResults := GatherProcessed(outcomes);
    var aggregated := AggregateResults(Views(processedResults));
    match aggregated
    case Ok(a) => result := Returned(SaveResults(a));
    case Err(e) => result := Raised(e);
  }

  /** What the loop of advanced_parallel_flow has built after the first `i` fetches. */
  ghost predicate SplitSoFar(outcomes: seq<FetchOutcome>, i: nat, completed: Dict<nat, Record>, failed: seq<(nat, string)>)
    requires i <= |outcomes|
  {
    && Valid(completed)
    && completed.keys == SuccessIndices(outcomes[..i])
    && (forall k :: k in completed.entries ==> k < i && outcomes[k] == Fetched(completed.entries[k]))
    && Values(completed) == Successes(outcomes[..i])
    && failed == FailedEntries(outcomes[..i])
  }

  lemma SplitStep(outcomes: seq<FetchOutcome>, i: nat, completed: Dict<nat, Record>, failed: seq<(nat, string)>)
    requires i < |outcomes| && SplitSoFar(outcomes, i, completed, failed)
    ensures outcomes[i].Fetched? ==> SplitSoFar(outcomes, i + 1, Store(completed, i, outcomes[i].record), failed)
    ensures outcomes[i].FetchFailed? ==> SplitSoFar(outcomes, i + 1, completed, failed + [(i, outcomes[i].message)])
  {
    PrefixStep(outcomes, i);
    if outcomes[i].Fetched? {
      ValuesAfterStore(completed, i, outcomes[i].record);
    }
  }

  /**
   * The loop of advanced_parallel_flow over the fetch futures: successes go
   * into `completed_fetches` under their index, failures into `failed_fetches`.
   */
  method SplitFetches(outcomes: seq<FetchOutcome>) returns (completed: Dict<nat, Record>, failed: seq<(nat, string)>)
    ensures Valid(completed)
    ensures completed.keys == SuccessIndices(outcomes)
    ensures forall i :: i in completed.entries ==> i < |outcomes| && outcomes[i] == Fetched(completed.entries[i])
    ensures Values(completed) == Successes(outcomes)
    ensures failed == FailedEntries(outcomes)
  {
    completed := Empty();
    failed := [];
    for i := 0 to |outcomes|
      invariant SplitSoFar(outcomes, i, completed, failed)
    {
      SplitStep(outcomes, i, completed, failed);
      match outcomes[i]
      case Fetched(result) =>
        completed := Store(completed, i, result);
      case FetchFailed(message) =>
        failed := failed + [(i, message)];
    }
    assert outcomes[..|outcomes|] == outcomes;
  }

  /** `[process_data(data) for data in records]`, in order. */
  method ProcessAll(records: seq<Record>) returns (processed: seq<Record>)
    modifies set r | r in records
    ensures processed == records
    ensures Views(processed) == ProcessedViews(old(Views(records)))
    ensures forall r :: r in records ==> r.View() == ProcessedView(old(r.View()))
  {
    processed := [];
    for i := 0 to |records|
      invariant processed == records[..i]
      invariant forall r :: r in records ==>
        r.View() == if r in processed then ProcessedView(old(r.View())) else old(r.View())
    {
      ProcessedViewIdempotent(old(records[i].View()));
      var result := ProcessData(records[i]);
      processed := processed + [result];
    }
  }

  /** The branch of advanced_parallel_flow that goes on: process, aggregate, save. */
  method ProcessAndSave(records: seq<Record>) returns (message: string)
    requires |records| > 0
    modifies set r | r in records
    ensures message == SavedMessage(|records|)
    ensures forall r :: r in records ==> r.View() == ProcessedView(old(r.View()))
  {
    var processedResults := ProcessAll(records);
    assert AllProcessed(Views(processedResults));
    var aggregated := AggregateResults(Views(processedResults));
    message := SaveResults(aggregated.value);
  }

  /**
   * advanced_parallel_flow. It processes the fetched records only when at
   * least MIN_SUCCESSES fetches succeeded, and always returns a string.
   */
  method AdvancedParallelFlow(numSources: int, outcomes: seq<FetchOutcome>) returns (result: string)
    requires |outcomes| == RangeLength(numSources)
    modifies RecordsOf(outcomes)
    ensures Returned(result) == AdvancedOutcome(old(Views(Successes(outcomes))), numSources)
    ensures forall i :: 0 <= i < |outcomes| && outcomes[i].Fetched? ==>
      outcomes[i].record.View() ==
        if |Successes(outcomes)| >= MIN_SUCCESSES then ProcessedView(old(outcomes[i].record.View()))
        else old(outcomes[i].record.View())
  {
    ghost var fetched := Views(Successes(outcomes));
    AdvancedOutcomeCases(fetched, numSources);
    var completed, failed := SplitFetches(outcomes);
    if Len(completed) >= MIN_SUCCESSES {
      result := ProcessAndSave(Values(completed));
      forall i | 0 <= i < |outcomes| && outcomes[i].Fetched?
        ensures outcomes[i].record in Successes(outcomes)
      {
        FetchedIsSuccess(outcomes, i);
      }
    } else {
      result := InsufficientMessage(Len(completed), numSources);
    }
  }

  lemma SavedThree()
    ensures SavedMessage(3) == "Results saved successfully: 3 sources processed"
  {
    assert IntToString(3) == "3";
  }

  lemma InsufficientTwoOfFive()
    ensures InsufficientMessage(2, 5) == "Flow failed: insufficient data sources (2/5)"
  {
    assert IntToString(2) == "2";
    assert IntToString(5) == "5";
  }

  /**
   * Five sources: with two failures the flow goes on and saves three
   * sources; with three failures it reports 2 of 5.
   */
  lemma FiveSourcesThreshold(fetched: seq<RecordView>)
    ensures |fetched| == 3 ==> AdvancedOutcome(fetched, 5) == Returned("Results saved successfully: 3 sources processed")
    ensures |fetched| == 2 ==> AdvancedOutcome(fetched, 5) == Returned("Flow failed: insufficient data sources (2/5)")
  {
    AdvancedOutcomeCases(fetched, 5);
    SavedThree();
    InsufficientTwoOfFive();
  }
}
