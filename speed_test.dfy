/**
 * The speed-test page, src/app/page.tsx: `startTest`, which fetches the
 * caller's IP metadata, runs five ping, five download and five upload trials,
 * aggregates each phase and publishes the results, together with the
 * measurement helpers whose outcomes it consumes.
 *
 * The network is not modelled. Every trial arrives as an input outcome: `None`
 * for a trial whose request threw or answered with a non-success status, and
 * `Some(sample)` for its measured value (milliseconds for a ping, Mbps for a
 * download or upload). The metadata request arrives as a `Metadata` outcome.
 *
 * The pure part of the module says what a run MEANS (`Run`, `ProgressTrace`,
 * `FinalSpeed`); the class `SpeedTestPage` holds the page's React state and its
 * method `StartTest` performs the run step by step against that meaning.
 */
module SpeedTest {
  import opened Wrappers
  import opened Rounding
  import opened Aggregate
  import UploadRoute

  /** Every phase makes exactly this many attempts. */
  const Trials: nat := 5

  const MetadataFailedMessage: string := "Failed to fetch IP data"
  const PingFailedMessage: string := "All ping tests failed. Please check your connection."
  const DownloadFailedMessage: string := "All download tests failed. Please check your connection."
  const UploadFailedMessage: string := "All upload tests failed. Please check your connection."
  /** Shown when something that is not an `Error` was thrown. */
  const FallbackMessage: string := "Failed to complete the speed test. Please try again."
  const Unknown: string := "Unknown"

  /** Where each phase's progress band starts, and by how much each trial index advances it. */
  const PingBase: int := 10
  const PingStep: int := 4
  const DownloadBase: int := 30
  const DownloadStep: int := 8
  const UploadBase: int := 70
  const UploadStep: int := 6
  const Done: int := 100

  // ---- data ------------------------------------------------------------------

  datatype Location = Location(city: string, country: string, region: string)

  /** The published `results` state. */
  datatype TestResults = TestResults(
    download: Number,
    upload: Number,
    ping: int,
    ip: string,
    location: Location,
    jitter: real,
    latency: int,
    isp: string)

  /** The value `results` holds before any run has completed. */
  const InitialResults: TestResults :=
    TestResults(Finite(0.0), Finite(0.0), 0, "", Location("", "", ""), 0.0, 0, "")

  /** The JSON the IP endpoint answers with; a field may be absent. */
  datatype IpData = IpData(
    ip: string,
    city: Option<string>,
    country: Option<string>,
    region: Option<string>,
    isp: Option<string>)

  /**
   * The outcome of the metadata request: a non-success status, an exception
   * from `fetch` or `json()` (with its message when it is an `Error`), or the data.
   */
  datatype Metadata =
    | NotOk
    | Threw(message: Option<string>)
    | Fetched(data: IpData)

  /** What one run ends with: the results to publish, or the message to show. */
  datatype Outcome = Completed(results: TestResults) | Failed(message: string)
  {
    /** The `error` state a run leaves: the message of a failed run, null after a completed one. */
    function ErrorShown(): Option<string>
    {
      if Failed? then Some(message) else None
    }

    /** The `results` state a run leaves: a failed run keeps the `previous` results. */
    function ResultsShown(previous: TestResults): TestResults
    {
      if Completed? then results else previous
    }
  }

  /** One timed download: the body's byte length and the clock before the request and after the body. */
  datatype Transfer = Transfer(bytes: nat, startMs: int, endMs: int)

  // ---- the measurement helpers ------------------------------------------------

  /** `bits / (1024 * 1024) / seconds` for a download of `bytes` timed in milliseconds. */
  function DownloadMbps(bytes: nat, startMs: int, endMs: int): (r: real)
    requires endMs > startMs
    ensures r >= 0.0
    ensures r * UploadRoute.Seconds(startMs, endMs) * UploadRoute.BitsPerMegabit == bytes as real * UploadRoute.BitsPerByte
  {
    var duration := UploadRoute.Seconds(startMs, endMs);
    (bytes as real * UploadRoute.BitsPerByte) / UploadRoute.BitsPerMegabit / duration
  }

  /** `measureDownload` as an outcome: a failed request is a failed trial. */
  function MeasureDownload(t: Option<Transfer>): (r: Option<real>)
    requires t.Some? ==> t.value.endMs > t.value.startMs
    ensures r.Some? <==> t.Some?
    ensures t.Some? ==> r.value >= 0.0
    ensures t.Some? ==> r.value == DownloadMbps(t.value.bytes, t.value.startMs, t.value.endMs)
  {
    match t
    case None => None
    case Some(x) => Some(DownloadMbps(x.bytes, x.startMs, x.endMs))
  }

  /**
   * `measureUpload` as an outcome: the sample is the `speed` the server
   * reports. A request that threw (`None`) or a response whose status is not
   * 2xx is a failed trial.
   */
  function MeasureUpload(response: Option<UploadRoute.Response>): (r: Option<real>)
    ensures r.Some? ==> response.Some? && 200 <= response.value.httpStatus < 300
    ensures response.Some? && 200 <= response.value.httpStatus < 300 && response.value.body.Measurement? ==>
              r == Some(response.value.body.speed)
  {
    match response
    case None => None
    case Some(resp) =>
      if 200 <= resp.httpStatus < 300 && resp.body.Measurement? then Some(resp.body.speed) else None
  }

  // ---- what a run means --------------------------------------------------------

  /** The samples a phase collects: the successful outcomes, in trial order. */
  function Successes(outcomes: seq<Option<real>>): (r: seq<real>)
    ensures |r| <= |outcomes|
  {
    SuccessesUpTo(outcomes, |outcomes|)
  }

  /** The samples collected by the first `n` trials. */
  function SuccessesUpTo(outcomes: seq<Option<real>>, n: nat): (r: seq<real>)
    requires n <= |outcomes|
    ensures |r| <= n
  {
    if n == 0 then []
    else SuccessesUpTo(outcomes, n - 1) + (if outcomes[n - 1].Some? then [outcomes[n - 1].value] else [])
  }

  /** The `setProgress(base + i * step)` calls of a phase: one per successful trial `i`. */
  function PhaseProgress(base: int, step: int, outcomes: seq<Option<real>>): seq<int>
  {
    ProgressUpTo(base, step, outcomes, |outcomes|)
  }

  /** The `setProgress` calls made by the first `n` trials of a phase. */
  function ProgressUpTo(base: int, step: int, outcomes: seq<Option<real>>, n: nat): seq<int>
    requires n <= |outcomes|
  {
    if n == 0 then []
    else ProgressUpTo(base, step, outcomes, n - 1) + (if outcomes[n - 1].Some? then [base + (n - 1) * step] else [])
  }

  /** The last sample of a phase, or `current` when it has none. */
  function LastOr(current: real, samples: seq<real>): (r: real)
    ensures |samples| == 0 ==> r == current
    ensures |samples| > 0 ==> r == samples[|samples| - 1]
  {
    if |samples| == 0 then current else samples[|samples| - 1]
  }

  /** `value || 'Unknown'`: an absent or empty string becomes 'Unknown'. */
  function OrUnknown(value: Option<string>): (r: string)
    ensures r != ""
    ensures value.Some? && value.value != "" ==> r == value.value
    ensures value.None? || value.value == "" ==> r == Unknown
  {
    if value.Some? && value.value != "" then value.value else Unknown
  }

  /** The message a failed metadata request is shown with. */
  function MetadataMessage(meta: Metadata): string
    requires !meta.Fetched?
  {
    match meta
    case NotOk => MetadataFailedMessage
    case Threw(m) => m.GetOr(FallbackMessage)
  }

  /**
   * The `setResults` argument, built from the phases' aggregates: the mean
   * ping, the spread of the pings, and the two trimmed throughput means.
   */
  function Publish(data: IpData, avgPing: real, spread: real, avgDownload: Number,
                   avgUpload: Number): TestResults
  {
    TestResults(
      download := Round2Number(avgDownload),
      upload := Round2Number(avgUpload),
      ping := JsRound(avgPing),
      ip := data.ip,
      location := Location(OrUnknown(data.city), OrUnknown(data.country), OrUnknown(data.region)),
      jitter := Round2(spread),
      latency := JsRound(avgPing),
      isp := OrUnknown(data.isp))
  }

  /** The results a run publishes from its metadata and its three non-empty-ping sample lists. */
  function Aggregated(data: IpData, pings: seq<real>, downloads: seq<real>, uploads: seq<real>): TestResults
    requires |pings| > 0
  {
    Publish(data, Average(pings), Spread(pings), TrimmedMean(downloads), TrimmedMean(uploads))
  }

  /** How a run ends, for the given metadata and trial outcomes. */
  function Run(meta: Metadata, pings: seq<Option<real>>, downloads: seq<Option<real>>,
               uploads: seq<Option<real>>): Outcome
  {
    if !meta.Fetched? then Failed(MetadataMessage(meta))
    else if |Successes(pings)| == 0 then Failed(PingFailedMessage)
    else if |Successes(downloads)| == 0 then Failed(DownloadFailedMessage)
    else if |Successes(uploads)| == 0 then Failed(UploadFailedMessage)
    else Completed(Aggregated(meta.data, Successes(pings), Successes(downloads), Successes(uploads)))
  }

  /** Every value a run passes to `setProgress`, in order. */
  function ProgressTrace(meta: Metadata, pings: seq<Option<real>>, downloads: seq<Option<real>>,
                         uploads: seq<Option<real>>): seq<int>
  {
    [0] + (if meta.Fetched? then TraceFromPing(pings, downloads, uploads) else []) + [Done]
  }

  /** The `setProgress` calls of one phase: its base when it starts, then one per successful trial. */
  function PhaseTrace(base: int, step: int, outcomes: seq<Option<real>>): seq<int>
  {
    [base] + PhaseProgress(base, step, outcomes)
  }

  /** The `setProgress` calls from the ping phase on, up to the first exhausted phase. */
  function TraceFromPing(pings: seq<Option<real>>, downloads: seq<Option<real>>,
                         uploads: seq<Option<real>>): seq<int>
  {
    PhaseTrace(PingBase, PingStep, pings) +
    (if |Successes(pings)| == 0 then [] else TraceFromDownload(downloads, uploads))
  }

  /** The `setProgress` calls from the download phase on. */
  function TraceFromDownload(downloads: seq<Option<real>>, uploads: seq<Option<real>>): seq<int>
  {
    PhaseTrace(DownloadBase, DownloadStep, downloads) +
    (if |Successes(downloads)| == 0 then [] else PhaseTrace(UploadBase, UploadStep, uploads))
  }

  /** Appending is associative; the phase methods compose their traces with it. */
  lemma AppendAssoc(a: seq<int>, b: seq<int>, c: seq<int>)
    ensures a + (b + c) == a + b + c
  {
  }

  /** Appending nothing changes nothing. */
  lemma AppendEmpty(a: seq<int>)
    ensures a + [] == a
  {
  }

  /** The `currentSpeed` a run leaves behind, starting from `current`. */
  function FinalSpeed(current: real, meta: Metadata, pings: seq<Option<real>>,
                      downloads: seq<Option<real>>, uploads: seq<Option<real>>): real
  {
    if !meta.Fetched? || |Successes(pings)| == 0 || |Successes(downloads)| == 0 then current
    else LastOr(LastOr(current, Successes(downloads)), Successes(uploads))
  }

  // ---- the page's state ----------------------------------------------------------

  /**
   * The state `Home` keeps with `useState`. Each setter call becomes an
   * assignment; every `setProgress` call is also recorded, in order, in the
   * ghost `progressLog` of the current run.
   */
  class SpeedTestPage {
    var testing: bool
    var progress: int
    var currentSpeed: real
    var results: TestResults
    var error: Option<string>
    ghost var progressLog: seq<int>

    /** The initial `useState` values. */
    constructor ()
      ensures !testing && progress == 0 && currentSpeed == 0.0
      ensures results == InitialResults && error == None
      ensures progressLog == []
    {
      testing := false;
      progress := 0;
      currentSpeed := 0.0;
      results := InitialResults;
      error := None;
      progressLog := [];
    }

    /** `progress` holds the value of the last `setProgress` call. */
    ghost predicate ProgressLogged()
      reads this
    {
      |progressLog| > 0 && progress == progressLog[|progressLog| - 1]
    }

    /** `setProgress(value)`. */
    method SetProgress(value: int)
      modifies this`progress, this`progressLog
      ensures progress == value
      ensures progressLog == old(progressLog) + [value]
      ensures ProgressLogged()
    {
      progress := value;
      progressLog := progressLog + [value];
    }

    /**
     * One phase: `setProgress(base)`, then its `for (let i = 0; i < 5; i++)`
     * loop, each trial in its own try/catch, a success pushed onto the phase's
     * list, shown as the current speed when `showsSpeed` (the download and
     * upload loops) and followed by `setProgress(base + i * step)`; a failure
     * is skipped.
     */
    method RunPhase(base: int, step: int, outcomes: seq<Option<real>>, showsSpeed: bool)
      returns (samples: seq<real>)
      requires |outcomes| == Trials
      modifies this`progress, this`progressLog, this`currentSpeed
      ensures samples == Successes(outcomes)
      ensures progressLog == old(progressLog) + PhaseTrace(base, step, outcomes)
      ensures currentSpeed == if showsSpeed then LastOr(old(currentSpeed), samples) else old(currentSpeed)
      ensures ProgressLogged()
    {
      SetProgress(base);
      ghost var start := progressLog;
      samples := [];
      for i := 0 to Trials
        invariant samples == SuccessesUpTo(outcomes, i)
        invariant progressLog == start + ProgressUpTo(base, step, outcomes, i)
        invariant currentSpeed == if showsSpeed then LastOr(old(currentSpeed), samples) else old(currentSpeed)
        invariant ProgressLogged()
      {
        match outcomes[i]
        case Some(sample) =>
          samples := samples + [sample];
          if showsSpeed {
            currentSpeed := sample;
          }
          SetProgress(base + i * step);
        case None =>
      }
      AppendAssoc(old(progressLog), [base], PhaseProgress(base, step, outcomes));
    }

    /**
     * `startTest`. The `try` block becomes `Attempt`, which stops at the first
     * error thrown; the `catch` stores that error's message, and the `finally`
     * clears `testing` and sets the progress to 100 on every path.
     */
    method StartTest(meta: Metadata, pings: seq<Option<real>>, downloads: seq<Option<real>>,
                     uploads: seq<Option<real>>)
      requires |pings| == Trials && |downloads| == Trials && |uploads| == Trials
      modifies this
      ensures !testing && progress == Done && ProgressLogged()
      ensures progressLog == ProgressTrace(meta, pings, downloads, uploads)
      ensures currentSpeed == FinalSpeed(old(currentSpeed), meta, pings, downloads, uploads)
      ensures error == Run(meta, pings, downloads, uploads).ErrorShown()
      ensures results == Run(meta, pings, downloads, uploads).ResultsShown(old(results))
    {
      testing := true;
      progressLog := [];
      SetProgress(0);
      assert progressLog == [0];
      error := None;
      var thrown := Attempt(meta, pings, downloads, uploads);
      // The `catch` stores the thrown message; when nothing was thrown,
      // `error` keeps the null stored above, which is `thrown` as well.
      error := thrown;
      testing := false;
      SetProgress(Done);
    }

    /**
     * The `try` block: the metadata request, which throws when it failed, then
     * the three phases. Returns the message of the error thrown, if any.
     */
    method Attempt(meta: Metadata, pings: seq<Option<real>>, downloads: seq<Option<real>>,
                   uploads: seq<Option<real>>) returns (thrown: Option<string>)
      requires |pings| == Trials && |downloads| == Trials && |uploads| == Trials
      requires ProgressLogged()
      modifies this`progress, this`progressLog, this`currentSpeed, this`results
      ensures ProgressLogged()
      ensures progressLog == old(progressLog) + (if meta.Fetched? then TraceFromPing(pings, downloads, uploads) else [])
      ensures currentSpeed == FinalSpeed(old(currentSpeed), meta, pings, downloads, uploads)
      ensures thrown == Run(meta, pings, downloads, uploads).ErrorShown()
      ensures results == Run(meta, pings, downloads, uploads).ResultsShown(old(results))
    {
      if !meta.Fetched? {
        AppendEmpty(progressLog);
        return Some(MetadataMessage(meta));
      }
      thrown := Measure(meta.data, pings, downloads, uploads);
    }

    /**
     * The body of the `try` block once the metadata has arrived: the ping
     * phase, which throws when it collected no sample, then the rest.
     * Returns the message of the error thrown, if any.
     */
    method Measure(ipData: IpData, pings: seq<Option<real>>, downloads: seq<Option<real>>,
                   uploads: seq<Option<real>>) returns (thrown: Option<string>)
      requires |pings| == Trials && |downloads| == Trials && |uploads| == Trials
      modifies this`progress, this`progressLog, this`currentSpeed, this`results
      ensures progressLog == old(progressLog) + TraceFromPing(pings, downloads, uploads)
      ensures ProgressLogged()
      ensures currentSpeed == FinalSpeed(old(currentSpeed), Fetched(ipData), pings, downloads, uploads)
      ensures match Run(Fetched(ipData), pings, downloads, uploads)
              case Completed(r) => results == r && thrown == None
              case Failed(m) => results == old(results) && thrown == Some(m)
    {
      ghost var log0 := progressLog;
      var pingTimes := RunPhase(PingBase, PingStep, pings, false);
      ghost var ping := PhaseTrace(PingBase, PingStep, pings);
      if |pingTimes| == 0 {
        AppendEmpty(ping);
        return Some(PingFailedMessage);
      }
      thrown := MeasureThroughput(ipData, pingTimes, downloads, uploads);
      AppendAssoc(log0, ping, TraceFromDownload(downloads, uploads));
    }

    /** The download phase, which throws when it collected no sample, then the upload phase. */
    method MeasureThroughput(ipData: IpData, pingTimes: seq<real>, downloads: seq<Option<real>>,
                             uploads: seq<Option<real>>) returns (thrown: Option<string>)
      requires |pingTimes| > 0 && |downloads| == Trials && |uploads| == Trials
      modifies this`progress, this`progressLog, this`currentSpeed, this`results
      ensures progressLog == old(progressLog) + TraceFromDownload(downloads, uploads)
      ensures ProgressLogged()
      ensures currentSpeed == if |Successes(downloads)| == 0 then old(currentSpeed)
                              else LastOr(LastOr(old(currentSpeed), Successes(downloads)), Successes(uploads))
      ensures |Successes(downloads)| == 0 ==> results == old(results) && thrown == Some(DownloadFailedMessage)
      ensures |Successes(downloads)| > 0 && |Successes(uploads)| == 0 ==>
                results == old(results) && thrown == Some(UploadFailedMessage)
      ensures |Successes(downloads)| > 0 && |Successes(uploads)| > 0 ==>
                results == Aggregated(ipData, pingTimes, Successes(downloads), Successes(uploads)) &&
                thrown == None
    {
      ghost var log0 := progressLog;
      var downloadSpeeds := RunPhase(DownloadBase, DownloadStep, downloads, true);
      ghost var download := PhaseTrace(DownloadBase, DownloadStep, downloads);
      if |downloadSpeeds| == 0 {
        AppendEmpty(download);
        return Some(DownloadFailedMessage);
      }
      thrown := MeasureUploadPhase(ipData, pingTimes, downloadSpeeds, uploads);
      AppendAssoc(log0, download, PhaseTrace(UploadBase, UploadStep, uploads));
    }

    /** The upload phase, which throws when it collected no sample, then `setResults`. */
    method MeasureUploadPhase(ipData: IpData, pingTimes: seq<real>, downloadSpeeds: seq<real>,
                              uploads: seq<Option<real>>) returns (thrown: Option<string>)
      requires |pingTimes| > 0 && |uploads| == Trials
      modifies this`progress, this`progressLog, this`currentSpeed, this`results
      ensures progressLog == old(progressLog) + PhaseTrace(UploadBase, UploadStep, uploads)
      ensures ProgressLogged()
      ensures currentSpeed == LastOr(old(currentSpeed), Successes(uploads))
      ensures |Successes(uploads)| == 0 ==> results == old(results) && thrown == Some(UploadFailedMessage)
      ensures |Successes(uploads)| > 0 ==>
                results == Aggregated(ipData, pingTimes, downloadSpeeds, Successes(uploads)) && thrown == None
    {
      var uploadSpeeds := RunPhase(UploadBase, UploadStep, uploads, true);
      if |uploadSpeeds| == 0 {
        return Some(UploadFailedMessage);
      }
      results := Summarize(ipData, pingTimes, downloadSpeeds, uploadSpeeds);
      thrown := None;
    }
  }

  /**
   * The aggregation `startTest` performs on the collected samples: the
   * `reduce` mean and the max-minus-min spread of the pings, the sort-slice-mean
   * of each throughput list, and the `setResults` argument built from them.
   */
  method Summarize(data: IpData, pingTimes: seq<real>, downloadSpeeds: seq<real>, uploadSpeeds: seq<real>)
    returns (r: TestResults)
    requires |pingTimes| > 0
    ensures r == Aggregated(data, pingTimes, downloadSpeeds, uploadSpeeds)
  {
    var avgPing := Sum(pingTimes) / |pingTimes| as real;
    var jitter := Max(pingTimes) - Min(pingTimes);
    assert jitter == Spread(pingTimes);
    var avgDownload := TrimmedAverage(downloadSpeeds);
    var avgUpload := TrimmedAverage(uploadSpeeds);
    r := Publish(data, avgPing, jitter, avgDownload, avgUpload);
  }

  /**
   * `list.sort((a, b) => a - b); list = list.slice(1, -1)` followed by the
   * `reduce` mean: the throughput aggregate, with the sort done in place on
   * an array.
   */
  method TrimmedAverage(samples: seq<real>) returns (avg: Number)
    ensures avg == TrimmedMean(samples)
  {
    var list := new real[|samples|](i requires 0 <= i < |samples| => samples[i]);
    assert list[..] == samples;
    SortInPlace(list);
    var trimmed := SliceInner(list[..]);
    avg := Mean(trimmed);
  }
}
