# Speed test run and upload route, modelled in Dafny

This project models the core of a browser speed test built on Next.js.

- **The page's run driver.** `startTest` in `src/app/page.tsx` works in this order:
  - It fetches the caller's IP metadata.
  - It runs three loops of five trials each: ping, download and upload. Every trial has its own `try`/`catch`, so a failed trial is skipped and the loop goes on.
  - A phase that ends with no sample aborts the run with a message for that phase.
  - It aggregates the phases:
    - ping: the mean, and the jitter, which is max minus min;
    - download and upload: sort, `slice(1, -1)`, then the mean.
  - It publishes the rounded results, with `'Unknown'` for missing metadata.

  Along the way it updates the `progress` and `currentSpeed` state. Its `finally` always clears `testing` and sets the progress to 100.
- **The download rate formula** of `measureDownload`.
- **The upload route's `POST` handler** in `src/app/api/speedtest/upload/route.ts`. It times the body read and answers with:
  - the byte count;
  - the duration in milliseconds;
  - the overhead-adjusted Mbps rounded to two decimals;
  - or HTTP 500 when the read fails.

The network does not appear in the model. Every trial is an input outcome: `Option<real>` per trial, five per phase. The metadata request is an input `Metadata` outcome: not ok, threw (with or without an `Error` message), or fetched. The two clock readings of the route, and whether its body read succeeds, are inputs too.

Modules:

- **`Wrappers`**: `Option`.
- **`Rounding`**:
  - JavaScript's `Math.round`, which takes the floor of y + ½;
  - the `Math.round(x * 100) / 100` idiom;
  - a `Number` that is a real or NaN. NaN is the value `0 / 0` yields.
- **`Aggregate`**:
  - the `reduce` sum, the mean, `Math.max`, `Math.min` and the spread;
  - the ascending sort as a reference function `Sort`, and the in-place insertion sort `SortInPlace` on an array, proved equal to it;
  - `slice(1, -1)` and the trimmed mean.
- **`UploadRoute`**: the handler as a function from the start time and the body-read outcome to the response.
- **`SpeedTest`**:
  - What a run means, as pure functions:
    - `Run`: how it ends, either the published results or the error message;
    - `ProgressTrace`: every `setProgress` value, in order;
    - `FinalSpeed`: the `currentSpeed` it leaves.
  - The class `SpeedTestPage`. Its fields are the page's `useState` values, plus a ghost log of the `setProgress` calls.
  - The method `StartTest`, which performs the run step by step:
    - one phase loop, `RunPhase`;
    - the aggregation, `Summarize`;
    - the in-place trimmed average, `TrimmedAverage`.

    It is proved to leave exactly the state those functions describe.
- **`SpeedTestProperties`**: lemmas about that meaning:
  - a phase's samples are its successful outcomes, in order;
  - the progress rises from 0 to 100 within the phase bands;
  - each abort path, with its message, its truncated trace and its unchanged results;
  - when a run completes;
  - the published figures;
  - the link between a page upload sample and the route.
- **`SpeedTestExamples`**: a worked run. Its pings are 20, 22, 19, 25 and 21 ms, two download trials fail, and two upload trials fail.

Three behaviours of the code that a reader might not expect; the model follows the code:

- **Throughput with one or two samples.** The code's `slice(1, -1)` leaves an empty list, so the mean is `0 / 0`. The published figure is then NaN. The model does not fall back to the untrimmed mean.
- **Latency.** The code publishes `ping` and `latency` as `Math.round` of the mean ping. So the worked run's mean of 21.4 ms is published as 21.
- **Re-entrancy.** `startTest` does not check `testing`; only the button's `disabled` attribute guards it. The model claims no no-op-while-running behaviour.

## Model

| member | source | states |
|---|---|---|
| Wrappers.Option.GetOr | src/app/page.tsx:177 | the message of a thrown `Error`, otherwise the fallback text |
| Rounding.JsRound | src/app/page.tsx:162 | `Math.round(y)` is the integer r with r - ½ ≤ y < r + ½, so halves round up |
| Rounding.Round2 | src/app/page.tsx:160-169 | `Math.round(x * 100) / 100` is within 0.005 of x (ties up) and is a whole number of hundredths |
| Rounding.Round2Number | src/app/page.tsx:160-161 | rounding to two decimals keeps NaN as NaN, and rounds a finite value by `Round2` |
| Rounding.JsRoundUnique | src/app/page.tsx:162 | the only integer within a half below or above y (ties up) is `Math.round(y)` |
| Rounding.Round2Monotone | src/app/page.tsx:160-169 | rounding to two decimals preserves order |
| Rounding.Round2Idempotent | src/app/page.tsx:160-169 | rounding an already rounded value changes nothing |
| Rounding.Round2NonNegative | src/app/page.tsx:169 | a non-negative value is never published as negative |
| Rounding.Round2Example | src/app/api/speedtest/upload/route.ts:23 | 12.3456 is published as 12.35 |
| Aggregate.Sum | src/app/page.tsx:133 | the `reduce` sum; it has no `ensures` of its own: `SumAppend` proves it splits over concatenation (so the right fold agrees with `reduce`'s left fold) and `SumPermutation` that order does not matter |
| Aggregate.Average | src/app/page.tsx:109 | the mean ping: its value times the count is the `reduce` sum |
| Aggregate.SumAppend | src/app/page.tsx:133 | the sum of two lists back to back is the sum of their sums, which makes the sum a left fold as `reduce` computes it |
| Aggregate.Max | src/app/page.tsx:110 | `Math.max(...s)` is an element of s that is at least every element |
| Aggregate.Min | src/app/page.tsx:110 | `Math.min(...s)` is an element of s that is at most every element |
| Aggregate.Mean | src/app/page.tsx:133 | the `reduce` mean is NaN exactly when the list is empty; otherwise its value times the count is the sum |
| Aggregate.Spread | src/app/page.tsx:110 | the jitter max - min is never negative, bounds every pairwise difference and is attained by one |
| Aggregate.Insert | src/app/page.tsx:131 | inserting into a sorted list keeps it sorted and adds exactly that element |
| Aggregate.Sort | src/app/page.tsx:131 | the reference ascending sort is sorted and a permutation of its input |
| Aggregate.SliceInner | src/app/page.tsx:132 | `slice(1, -1)` has length n - 2 (0 below two) and holds elements 1 to n - 2 in order |
| Aggregate.TrimmedMean | src/app/page.tsx:131-133 | the sort-slice-mean is NaN exactly when there are fewer than three samples |
| Aggregate.SortedUnique | src/app/page.tsx:131 | two sorted arrangements of the same multiset are equal, so the sorted result is unique |
| Aggregate.SortInPlace | src/app/page.tsx:131 | the in-place sort leaves the array equal to `Sort` of its old contents |
| Aggregate.SiftDown | src/app/page.tsx:131 | one insertion step extends the sorted prefix by one, permutes the array and leaves the part after the prefix untouched |
| Aggregate.SumPermutation | src/app/page.tsx:133 | rearranging samples leaves their sum unchanged |
| Aggregate.AverageBounds | src/app/page.tsx:109 | the mean lies between the minimum and the maximum |
| Aggregate.SortFirstIsMin | src/app/page.tsx:131 | the first element of the sorted list is the minimum |
| Aggregate.SortLastIsMax | src/app/page.tsx:131 | the last element of the sorted list is the maximum |
| Aggregate.InnerOfArrangement | src/app/page.tsx:131-133 | any rearrangement starting with lo and ending with hi keeps, between its ends, the samples less one lo and one hi, with the sum less lo and hi |
| Aggregate.SortEnds | src/app/page.tsx:131 | the sorted list starts with the minimum and ends with the maximum |
| Aggregate.TrimmedMeanDropsExtremes | src/app/page.tsx:131-132 | with three or more samples, the trimmed list is the samples less exactly one minimum and one maximum (as multisets) |
| Aggregate.TrimmedMeanValue | src/app/page.tsx:131-133 | with three or more samples the trimmed mean is (sum - min - max) / (n - 2) |
| Aggregate.TrimmedMeanBounds | src/app/page.tsx:131-133 | with three or more samples the trimmed mean lies between the minimum and the maximum |
| UploadRoute.Mbps | src/app/api/speedtest/upload/route.ts:16-20 | the rate is non-negative, and rate × seconds × 2^20 equals bytes × 1.05 × 8 |
| UploadRoute.Seconds | src/app/api/speedtest/upload/route.ts:12 | the elapsed seconds are positive and are the millisecond difference over 1000 |
| UploadRoute.Post | src/app/api/speedtest/upload/route.ts:3-39 | status 500 with the fixed message exactly when the read fails; otherwise 200 with `status: 'ok'`, `unit: 'Mbps'`, the body's byte count as `size` and the elapsed milliseconds as `duration` |
| UploadRoute.SpeedIsRoundedMbps | src/app/api/speedtest/upload/route.ts:16-23 | `speed` is the overhead-adjusted Mbps with two decimals, that is bytes × 8400 / (ms × 2^20) rounded |
| UploadRoute.MbpsMonotone | src/app/api/speedtest/upload/route.ts:16-20 | for a fixed duration the rate grows with the byte count |
| UploadRoute.SpeedMonotoneInBytes | src/app/api/speedtest/upload/route.ts:16-23 | for a fixed duration `speed` is non-negative and non-decreasing in the byte count |
| UploadRoute.SpeedNearMbps | src/app/api/speedtest/upload/route.ts:23 | `speed` is within 0.005 of the exact rate |
| SpeedTest.DownloadMbps | src/app/page.tsx:45-49 | the download rate is non-negative, and rate × seconds × 2^20 equals bytes × 8 |
| SpeedTest.MeasureDownload | src/app/page.tsx:39-55 | a download yields a sample exactly when the request succeeded; the sample is `DownloadMbps` of its byte count and clock readings, and so non-negative |
| SpeedTest.MeasureUpload | src/app/page.tsx:57-78 | an upload yields a sample only for a 2xx response, and a 2xx measurement yields exactly its `speed` |
| SpeedTest.Successes | src/app/page.tsx:95-103 | a phase collects at most one sample per trial |
| SpeedTest.LastOr | src/app/page.tsx:117-119 | the current speed after a phase is its last sample, or unchanged when it has none |
| SpeedTest.OrUnknown | src/app/page.tsx:165-171 | `value \|\| 'Unknown'` is the value when it is present and non-empty, otherwise 'Unknown' |
| SpeedTest.SpeedTestPage.constructor | src/app/page.tsx:8-25 | the initial `useState` values and an empty progress log |
| SpeedTest.SpeedTestPage.SetProgress | src/app/page.tsx:94 | `setProgress` sets the progress and appends the value to the log, so the progress is the last logged value |
| SpeedTest.SpeedTestPage.RunPhase | src/app/page.tsx:94-103 | one five-trial phase leaves exactly the successful outcomes in trial order as samples, appends its `PhaseTrace` to the log, and leaves its last sample as current speed when it shows speed; the progress is the last value logged |
| SpeedTest.SpeedTestPage.StartTest | src/app/page.tsx:80-182 | a run ends with `testing` false and progress 100, has logged exactly `ProgressTrace`, has left `FinalSpeed` as the current speed, shows `Run`'s message, if any, as `error`, and publishes `Run`'s results or keeps the previous ones; the progress shown is the last value logged |
| SpeedTest.SpeedTestPage.Attempt | src/app/page.tsx:85-91 | a failed metadata request throws its message before any trial; otherwise the phases run |
| SpeedTest.SpeedTestPage.Measure | src/app/page.tsx:93-107 | the ping phase, then an abort when it has no sample, leaving results unchanged |
| SpeedTest.SpeedTestPage.MeasureThroughput | src/app/page.tsx:112-128 | the download phase, then an abort when it has no sample, leaving results unchanged |
| SpeedTest.SpeedTestPage.MeasureUploadPhase | src/app/page.tsx:135-172 | the upload phase, then an abort when it has no sample, or else `setResults` with the aggregate |
| SpeedTest.MetadataMessage | src/app/page.tsx:87-90 | the message a failed metadata request stores through line 177: the fixed text when the response was not ok, a thrown `Error`'s message, or the fallback text; no `ensures` of its own: `SpeedTestProperties.MetadataFailure` states each case |
| SpeedTest.Publish | src/app/page.tsx:159-172 | the `setResults` literal; no `ensures` of its own: `AggregatedLatency`, `AggregatedJitter`, `AggregatedThroughput` and `AggregatedMetadata` in `SpeedTestProperties` state each field |
| SpeedTest.Aggregated | src/app/page.tsx:109-172 | the published results from the three sample lists; no `ensures` of its own: the `Aggregated*` lemmas of `SpeedTestProperties` state each field, and `Summarize` is proved to compute it |
| SpeedTest.PhaseTrace | src/app/page.tsx:94-99 | a phase's `setProgress` calls: its base, then `base + i * step` for each successful trial `i`; no `ensures` of its own: `SpeedTestProperties.PhaseTraceShape`, `ProgressUpToShape` and `PhaseBands` state its shape, and `RunPhase` is proved to log it |
| SpeedTest.Run | src/app/page.tsx:80-182 | how a run ends; no `ensures` of its own: `SpeedTestProperties.CompletedIff`, `MetadataFailure`, `PingsExhausted`, `DownloadsExhausted`, `UploadsExhausted` and `CompletedPublishesAggregate` state each outcome, and `StartTest` is proved against it |
| SpeedTest.ProgressTrace | src/app/page.tsx:80-182 | every `setProgress` value of a run; no `ensures` of its own: `SpeedTestProperties.ProgressTraceShape` proves it rises from 0 to 100 within [0, 100], and `StartTest` is proved to log it |
| SpeedTest.FinalSpeed | src/app/page.tsx:119-142 | the current speed a run leaves; no `ensures` of its own: `SpeedTestProperties.CompletedSpeed` and the abort lemmas state it, and `StartTest` is proved to leave it |
| SpeedTest.Summarize | src/app/page.tsx:109-172 | the figures computed from the three sample lists are exactly `Aggregated` of them |
| SpeedTest.TrimmedAverage | src/app/page.tsx:130-133 | sorting a copy in place, slicing and averaging yields `TrimmedMean` of the samples |
| SpeedTestProperties.SuccessesAppend | src/app/page.tsx:95-103 | the samples of trials run back to back are the samples of each part, in order |
| SpeedTestProperties.SuccessesOfOne | src/app/page.tsx:97-102 | one trial contributes its sample when it succeeded and nothing when it failed |
| SpeedTestProperties.SuccessesMembers | src/app/page.tsx:95-103 | a value is a sample exactly when some trial succeeded with it |
| SpeedTestProperties.NoSamplesIffAllFailed | src/app/page.tsx:105 | a phase has no sample exactly when all of its trials failed |
| SpeedTestProperties.ProgressUpToShape | src/app/page.tsx:99 | a phase's per-trial progress values are one per success, strictly rising and within base to base + (n - 1) × step |
| SpeedTestProperties.PhaseTraceShape | src/app/page.tsx:94-99 | a phase publishes its base first, then non-decreasing values within base to base + 4 × step |
| SpeedTestProperties.PhaseBands | src/app/page.tsx:94-143 | ping progress lies in [10, 26], download in [30, 62], upload in [70, 94] |
| SpeedTestProperties.ProgressTraceShape | src/app/page.tsx:82-180 | the progress a run publishes starts at 0, ends at 100, never decreases and stays within [0, 100] |
| SpeedTestProperties.MetadataFailure | src/app/page.tsx:87-90 | a failed metadata request ends the run with its message, progress 0 then 100 only, and the current speed untouched |
| SpeedTestProperties.PingsExhausted | src/app/page.tsx:105-107 | all pings failing ends the run with the ping message after the ping phase only, current speed untouched |
| SpeedTestProperties.DownloadsExhausted | src/app/page.tsx:126-128 | all downloads failing ends the run with the download message after the ping and download phases, current speed untouched |
| SpeedTestProperties.UploadsExhausted | src/app/page.tsx:149-151 | all uploads failing ends the run with the upload message after all three phases, current speed the last download sample |
| SpeedTestProperties.CompletedIff | src/app/page.tsx:87-151 | a run completes exactly when the metadata arrived and each phase had a successful trial |
| SpeedTestProperties.CompletedPublishesAggregate | src/app/page.tsx:159-172 | a completed run publishes `Aggregated` of its three sample lists |
| SpeedTestProperties.AggregatedLatency | src/app/page.tsx:109-170 | `ping` and `latency` are both `Math.round` of the mean ping, and the mean lies between the fastest and the slowest ping |
| SpeedTestProperties.AggregatedJitter | src/app/page.tsx:110-169 | `jitter` is the spread of the pings with two decimals, never negative |
| SpeedTestProperties.PublishedThroughput | src/app/page.tsx:131-160 | a published throughput is NaN exactly below three samples; otherwise (sum - min - max) / (n - 2) with two decimals |
| SpeedTestProperties.AggregatedThroughput | src/app/page.tsx:131-161 | the published download and upload figures are those trimmed means |
| SpeedTestProperties.AggregatedMetadata | src/app/page.tsx:163-171 | the IP as received, and each missing or empty location field and ISP as 'Unknown' |
| SpeedTestProperties.CompletedSpeed | src/app/page.tsx:140-142 | after a completed run the current speed is the last upload sample |
| SpeedTestProperties.UploadSampleFromRoute | src/app/page.tsx:71-73 | the page's upload sample is the route's rounded overhead-adjusted rate, and a failed read is a failed trial |
| SpeedTestProperties.UploadRateIsOverheadOfDownloadRate | src/app/api/speedtest/upload/route.ts:16-20 | for the same bytes and interval the upload rate is 1.05 times the page's download rate |
| SpeedTestProperties.DownloadMbpsExample | src/app/page.tsx:45-49 | 1 MiB in one second is 8 Mbps |
| SpeedTestExamples.ExampleSamples | src/app/page.tsx:95-147 | the worked run's phases collect [20, 22, 19, 25, 21], [50, 60, 55] and [10, 12, 11] |
| SpeedTestExamples.ExampleTrace | src/app/page.tsx:94-143 | the worked run's phases publish [10, 10, 14, 18, 22, 26], [30, 30, 46, 62] and [70, 70, 76, 82] |
| SpeedTestExamples.ExamplePingMean | src/app/page.tsx:109-162 | a mean ping of 21.4 ms is published as 21 |
| SpeedTestExamples.ExamplePingSpread | src/app/page.tsx:110-169 | the worked run's jitter is 25 - 19 = 6 |
| SpeedTestExamples.ExampleRunProgress | src/app/page.tsx:80-182 | the worked run publishes 0, 10, 10, 14, 18, 22, 26, 30, 30, 46, 62, 70, 70, 76, 82, 100 and ends with current speed 11 |
| SpeedTestExamples.ExampleLatency | src/app/page.tsx:159-172 | the worked run publishes ping and latency 21 and jitter 6 |
| SpeedTestExamples.InnerOfThree | src/app/page.tsx:131-133 | of three samples whose last lies strictly between the others, dropping the extremes leaves the last |
| SpeedTestExamples.TrimmedOfThree | src/app/page.tsx:131-133 | the trimmed mean of such three samples is the middle one |
| SpeedTestExamples.ExampleThroughput | src/app/page.tsx:159-161 | the worked run publishes download 55 and upload 11 |

## Left out

- Network I/O and clocks: `fetch`, `response.ok`, `arrayBuffer()`, `json()` and `Date.now()` are not modelled. Trial outcomes, the metadata outcome and the route's clock readings are inputs.
- A ping sample is its measured round trip in milliseconds, given directly. The `Date.now() - start` of `measurePing` is not modelled.
- The random upload payload: its contents do not affect any result, and its size is not used by the aggregation.
- The `localStorage.setItem('lastTest', ...)` side effect: it is storage, not logic, and it could throw into the `catch`. It serializes the `results` value captured when `startTest` began, not the one just set.
- Rendering, `SpeedMeter`, `TestResults` and the button's `disabled` attribute. Concurrent or overlapping runs are not modelled.
- `IpData.ip` is a string that is always present. The page publishes `ipData.ip` as it arrives, so an answer without that field would publish `undefined`; that case is not modelled.
- `SpeedTest.SpeedTestPage.StartTest`: its contract covers the final state only. That `testing` is true while the run is in progress is not stated.
- IEEE-754 floating point: arithmetic is over exact reals. NaN appears only as the `0 / 0` of an empty trimmed list, and rounding error is not modelled.
- `UploadRoute.Post`: requires the clock to have advanced during the read. A read within the same millisecond divides by zero. The resulting Infinity or NaN speed, which JSON serializes as null, is not modelled.
- `SpeedTest.DownloadMbps`: requires the clock to have advanced, for the same reason. A zero-duration download is not modelled.
- `SpeedTest.MeasureUpload`: a 2xx response whose body is not a measurement counts as a failed trial. The page would push the undefined `speed` instead. The modelled route never answers that way.
- `console.error` logging.
- The download route, `src/app/api/speedtest/download/route.ts`, is not part of this model. It returns a 100 MiB zero buffer, despite its "1MB" comment.
- `src/config/servers.ts` holds configuration constants only and is not part of this model.
- The order of the aggregate computations: the page computes the ping mean and the jitter before the download phase, and the download figure before the upload phase; `Summarize` computes all of them after the upload phase. Nothing observable happens in between, and an aborted run discards it in both orders.
