# A verified model of the data flows in `data_flow.py`

`data_flow.py` is a demonstration of a task-orchestration framework. A flow
submits one `fetch_data` task per source id `0 .. num_sources-1`. Each fetch
either returns a record dict (`source_id`, a random `data` value in
[100, 1000], a timestamp) or raises. `process_data` adds
`processed = True` and `processed_value = 2 * data` to the dict itself.
`aggregate_results` sums the processed values, divides by the number of
results, and lists the source ids. `save_results` turns the aggregate into a
message. Two flows combine these tasks:

- `parallel_data_flow` skips the failed fetches, processes the rest in
  submission order, aggregates them and returns the saved message. It raises
  `ZeroDivisionError` when no fetch succeeded.
- `advanced_parallel_flow` sorts the fetches into a dict of completed ones,
  keyed by index, and a list of `(index, message)` failures. It processes and
  saves only when at least three fetches succeeded. Otherwise it returns
  `Flow failed: insufficient data sources (k/num_sources)`. It never raises.

The model leaves out the framework itself. Each submitted fetch is already
resolved to its final outcome, `Fetched(record)` or `FetchFailed(message)`,
after whatever retries the framework made. The random draws and the clock
are inputs.

Files:

- `wrappers.dfy` (`Wrappers`): `Option` for a dict key that may be absent, `Result` for a call that may raise.
- `decimal.dfy` (`Decimal`): how an f-string renders an `int`, with a round trip back to the number.
- `pydict.dfy` (`PyDict`): a Python `dict` that keeps its keys in insertion order.
- `data_flow.dfy` (`DataFlow`): the record. It is a class, because `process_data` updates it in place. `View()` gives its contents as a value. Also the four tasks.
- `flows.dfy` (`Flows`): the two flows as methods with loops, and the functions and lemmas that specify them.

The code raises `ZeroDivisionError` from `parallel_data_flow` when every
fetch failed (line 45), and the model keeps that error path.
`aggregate_results` is total in the model: instead of a
precondition that excludes the empty list, it returns
`Err(ZeroDivisionError)`, and `Err(KeyError("processed_value"))` for a record
that was never processed, because the sum on line 44 runs before the
division on line 45.

## Model

| member | source | states |
|---|---|---|
| `Decimal.NatToString` | data_flow.py:61 | the numeral of a count is non-empty, all digits, starts with `0` only for 0, and is exactly `0` for 0 (no leading zeros) |
| `Decimal.NatToStringRoundTrip` | data_flow.py:61 | reading the rendered digits back gives the number |
| `Decimal.IntToString` | data_flow.py:140 | `str` of an int: a minus sign exactly for negative numbers, followed by digits without leading zeros that read back as the magnitude (for a non-negative number the whole text is its digits) |
| `Decimal.IntToStringInjective` | data_flow.py:61 | two integers render to the same text if and only if they are equal |
| `PyDict.Empty` | data_flow.py:112 | `{}` is a well-formed dict with no entries |
| `PyDict.Store` | data_flow.py:119 | `d[k] = v` keeps the dict well formed, maps `k` to `v`, keeps every other entry, and appends `k` to the key order only when it is new |
| `PyDict.Values` | data_flow.py:130 | `d.values()` lists one value per key, the value of the j-th inserted key at position j |
| `PyDict.ValuesAfterStore` | data_flow.py:119 | storing a new key appends its value to `values()`; storing a present key replaces its value in place |
| `PyDict.Len` | data_flow.py:128 | definition of `len(d)`; specified by `PyDict.LenCountsEntries` |
| `PyDict.LenCountsEntries` | data_flow.py:128 | `len(d)` equals the number of entries of a well-formed dict |
| `DataFlow.Record.constructor` | data_flow.py:19-23 | a fetched record has the given source id, data and timestamp and neither processing key |
| `DataFlow.FetchFailureMessage` | data_flow.py:17 | definition of the exception text; its shape is fixed by `Decimal.IntToString` |
| `DataFlow.FetchData` | data_flow.py:9-23 | an attempt fails exactly when the roll is below 0.2, with message `Failed to fetch data from source <id>`; otherwise it returns a new record holding the id, the drawn value and the timestamp |
| `DataFlow.AsFetched` | data_flow.py:19-23 | definition: data in [100, 1000] and neither processing key; used by `Flows.FetchedAsSubmitted` |
| `DataFlow.ProcessData` | data_flow.py:27-36 | the same dict is returned; `processed` becomes `True` and `processed_value` twice `data`; `source_id`, `data` and `timestamp` are unchanged |
| `DataFlow.ProcessedView` | data_flow.py:34-35 | definition of a record's contents after process_data; used by `DataFlow.ProcessData`, specified by `DataFlow.ProcessedViewIdempotent` |
| `DataFlow.ProcessedViews` | data_flow.py:130-133 | definition of the processed list handed to aggregation (also lines 89-91); used by `Flows.ProcessAll`, `Flows.GatherProcessed` and `Flows.ProcessAggregateSave` |
| `DataFlow.ProcessedViewIdempotent` | data_flow.py:34-35 | processing a record a second time changes nothing |
| `DataFlow.AllProcessed` | data_flow.py:44 | definition: every result has `processed_value`, the condition under which the sum does not raise KeyError; used by `DataFlow.AggregateResults` |
| `DataFlow.Total` | data_flow.py:44 | definition of the sum, added left to right; specified by `DataFlow.TotalAppend`, `DataFlow.TotalPermutation` and `DataFlow.TotalBounds` |
| `DataFlow.AggregateResults` | data_flow.py:40-52 | KeyError exactly when a result lacks `processed_value`; ZeroDivisionError exactly for an empty list; otherwise `count` is the number of results, `total` their sum, `average * count == total` over the reals, and `sources[j]` is the j-th result's source id |
| `DataFlow.TotalAppend` | data_flow.py:44 | the total of two lists joined is the sum of their totals |
| `DataFlow.TotalPermutation` | data_flow.py:44 | the total does not depend on the order of the results |
| `DataFlow.TotalBounds` | data_flow.py:44 | if every processed value lies in [lo, hi], the total lies in [lo * count, hi * count] |
| `DataFlow.AggregateOfFetchedInRange` | data_flow.py:21-51 | for a non-empty list of fetched data in [100, 1000], the processed list aggregates without error and its total lies in [200 * count, 2000 * count] |
| `DataFlow.AggregateExample` | data_flow.py:34-51 | raw data 1, 2, 3 aggregate to total 12, average 4, count 3, sources [0, 1, 2] |
| `DataFlow.SavedMessage` | data_flow.py:61 | definition of the f-string; specified by `DataFlow.SaveResultsReportsSources` and `Flows.SavedIsNotInsufficient` |
| `DataFlow.SaveResults` | data_flow.py:55-61 | definition: the message for the number of listed sources; specified by `DataFlow.SaveResultsReportsSources` |
| `DataFlow.SaveResultsReportsSources` | data_flow.py:56-61 | two aggregates give the same saved message if and only if they list the same number of sources |
| `Flows.RangeLength` | data_flow.py:73 | definition of `len(range(num_sources))` (also line 109); used by `Flows.SubmitFetches` and `Flows.AdvancedParallelFlow` |
| `Flows.Successes` | data_flow.py:78-87 | definition of the records pattern 2 keeps; specified by `Flows.SuccessesAtIndices` and `Flows.FetchedIsSuccess` |
| `Flows.SuccessIndices` | data_flow.py:116-119 | definition of the keys `completed_fetches` receives; specified by `Flows.IndicesPartition` and `Flows.IndicesIncreasing` |
| `Flows.FailedEntries` | data_flow.py:116-121 | definition of `failed_fetches`; specified by `Flows.IndicesPartition` and `Flows.IndicesIncreasing` |
| `Flows.Views` | data_flow.py:89-91 | the snapshot of a list of records has one entry per record, in order |
| `Flows.SuccessesAtIndices` | data_flow.py:72-91 | the records that reach processing are exactly those of the successful fetches, one to one and in submission order |
| `Flows.IndicesPartition` | data_flow.py:112-121 | every index is a completed key if and only if its fetch succeeded, and is listed with its message among the failures if and only if it failed; the two together have `num_sources` entries |
| `Flows.IndicesIncreasing` | data_flow.py:116-121 | completed keys and failed indices both appear in strictly increasing order |
| `Flows.FetchedIsSuccess` | data_flow.py:81-84 | the record of every successful fetch is among those processed |
| `Flows.ProcessAggregateSave` | data_flow.py:94-97 | definition of the common tail of both flows; specified by `Flows.ProcessAggregateSaveCases` |
| `Flows.InsufficientMessage` | data_flow.py:140 | definition of the failure description; specified by `Flows.InsufficientMessageInjective` and `Flows.SavedIsNotInsufficient` |
| `Flows.AdvancedOutcome` | data_flow.py:128-140 | definition of the threshold rule; specified by `Flows.AdvancedOutcomeCases` |
| `Flows.ProcessAggregateSaveCases` | data_flow.py:94-97 | processing, aggregating and saving k fetched records raises ZeroDivisionError when k = 0 and otherwise returns `Results saved successfully: k sources processed` |
| `Flows.AdvancedOutcomeCases` | data_flow.py:128-140 | with k >= 3 successes the result is the saved message for k sources; otherwise it is `Flow failed: insufficient data sources (k/num_sources)`; it never raises |
| `Flows.InsufficientMessageInjective` | data_flow.py:140 | the failure description determines both the success count and `num_sources` |
| `Flows.SavedIsNotInsufficient` | data_flow.py:137-140 | the saved message and the failure description never coincide |
| `Flows.FetchedAsSubmitted` | data_flow.py:19-23 | definition: every fetched record holds its own index as source id, data in [100, 1000] and no processing key; established by `Flows.SubmitFetches` |
| `Flows.SourcesAreSuccessfulIndices` | data_flow.py:19-51 | on outcomes as submitted with at least one success, aggregating the processed successes succeeds, its `sources` list is the list of successful indices in order, and its total lies in [200 * count, 2000 * count] |
| `Flows.SubmitFetches` | data_flow.py:72-75 | one fetch per source id of `range(num_sources)` (also line 109): fetch i fails exactly when the roll of its final attempt is below 0.2, with the message for source i; otherwise it yields a new record holding i and what that attempt drew; the outcomes satisfy `FetchedAsSubmitted` |
| `Flows.GatherProcessed` | data_flow.py:78-87 | the kept results are the successful fetches in submission order, all of them processed; failures are skipped without stopping the loop |
| `Flows.ParallelDataFlow` | data_flow.py:65-100 | the flow's result is process-aggregate-save of the fetched records' contents, and every fetched record ends processed |
| `Flows.SplitFetches` | data_flow.py:109-121 | `completed_fetches` is a well-formed dict whose keys, in insertion order, are the successful indices, each mapped to its record; its values are the successful records in order; `failed_fetches` lists each failure with its message in index order |
| `Flows.ProcessAll` | data_flow.py:130-133 | the processed list is the input list, and every record in it ends processed |
| `Flows.ProcessAndSave` | data_flow.py:130-137 | on a non-empty list of records, every record ends processed and the result is `Results saved successfully: n sources processed` for the n records |
| `Flows.AdvancedParallelFlow` | data_flow.py:104-140 | the flow returns a string, namely the threshold rule's outcome on the fetched records' contents; records are processed exactly when at least three fetches succeeded |
| `Flows.FiveSourcesThreshold` | data_flow.py:128-140 | of five sources, three successes give `Results saved successfully: 3 sources processed` and two give `Flow failed: insufficient data sources (2/5)` |

## Left out

- The framework's `@task`, `@flow`, `.submit()` and `.result()`: each fetch is given as its resolved outcome.
- Retries (`retries=2, retry_delay_seconds=1`): the outcome is whatever the framework reports after them.
- Concurrency, scheduling and timing: the model runs the flows' loops sequentially.
- `time.sleep`, `random.uniform`, `random.random`, `random.randint` and `time.time`: the roll, the drawn value and the timestamp are parameters of `FetchData`.
- The `print` logging, including the failure log of the advanced flow and the "Skipping failed fetch" message: it is output only.
- The `__main__` block and the unused `asyncio` import.
- `parallel_tasks.py` and `hello_tasks.py`: two constant-string tasks and a `print`, with no logic to model.
- Pattern 3 of `parallel_data_flow` (lines 89-91): it is not a separate loop in the model. Processing never fails, so collecting the processing results gives back the list built by pattern 2.
- `DataFlow.AggregateResults`: `average` is exact real division, not Python's floating-point division, so the model states only `average * count == total` over the reals.
- The `num_sources` parameter of `parallel_data_flow`: it only decides how many fetches are submitted, so the model takes the list of outcomes instead; the `requires` of `AdvancedParallelFlow` ties the two where `num_sources` also appears in the message.
- Mutation of a record that two outcomes share: this cannot happen in the source, since every fetch builds a new dict (`SubmitFetches` ensures each fetched record is fresh). The flows still accept any outcome list, and a shared record simply ends processed, because processing is idempotent.
- The default `num_sources = 5` of both flows (lines 65 and 104): Dafny methods have no default arguments, so callers pass it; `AdvancedOutcomeCases` covers every success count for any `num_sources`, the default 5 included, and `FiveSourcesThreshold` gives the literal strings for 3 and for 2 successes out of 5.
