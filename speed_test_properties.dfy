/**
 * What a run of `startTest` guarantees, stated over the meaning functions of
 * module SpeedTest (`Successes`, `PhaseTrace`, `ProgressTrace`, `Run`,
 * `FinalSpeed`), which `SpeedTestPage.StartTest` is proved to follow.
 */
module SpeedTestProperties {
  import opened Wrappers
  import opened Rounding
  import opened Aggregate
  import opened SpeedTest
  import UploadRoute

  // ---- the samples of a phase ----------------------------------------------------

  /** The first `n` trials collect the same samples whatever trials follow them. */
  lemma {:induction false} SuccessesUpToPrefix(a: seq<Option<real>>, b: seq<Option<real>>, n: nat)
    requires n <= |a|
    ensures SuccessesUpTo(a + b, n) == SuccessesUpTo(a, n)
    decreases n
  {
    if n > 0 {
      SuccessesUpToPrefix(a, b, n - 1);
      assert (a + b)[n - 1] == a[n - 1];
    }
  }

  /** Trials past the end of `a` add exactly the samples of the trials of `b` they cover. */
  lemma {:induction false} SuccessesUpToAppend(a: seq<Option<real>>, b: seq<Option<real>>, n: nat)
    requires |a| <= n <= |a| + |b|
    ensures SuccessesUpTo(a + b, n) == Successes(a) + SuccessesUpTo(b, n - |a|)
    decreases n
  {
    if n == |a| {
      SuccessesUpToPrefix(a, b, n);
    } else {
      SuccessesUpToAppend(a, b, n - 1);
      assert (a + b)[n - 1] == b[n - 1 - |a|];
      var tail := if b[n - 1 - |a|].Some? then [b[n - 1 - |a|].value] else [];
      assert Successes(a) + SuccessesUpTo(b, n - 1 - |a|) + tail
          == Successes(a) + (SuccessesUpTo(b, n - 1 - |a|) + tail);
    }
  }

  /**
   * The samples of trials run back to back are the samples of each run, in
   * order; with `SuccessesOfOne` this pins `Successes` down as the list of
   * successful outcomes in trial order.
   */
  lemma {:induction false} SuccessesAppend(a: seq<Option<real>>, b: seq<Option<real>>)
    ensures Successes(a + b) == Successes(a) + Successes(b)
  {
    SuccessesUpToAppend(a, b, |a| + |b|);
  }

  /** A single trial contributes its sample when it succeeded and nothing when it failed. */
  lemma {:induction false} SuccessesOfOne(t: Option<real>)
    ensures Successes([t]) == if t.Some? then [t.value] else []
  {
    assert SuccessesUpTo([t], 0) == [];
  }

  /** A value is among the first `n` trials' samples exactly when one of those trials produced it. */
  lemma {:induction false} SuccessesUpToMembers(outcomes: seq<Option<real>>, n: nat, x: real)
    requires n <= |outcomes|
    ensures x in SuccessesUpTo(outcomes, n) <==> exists i :: 0 <= i < n && outcomes[i] == Some(x)
    decreases n
  {
    if n > 0 {
      SuccessesUpToMembers(outcomes, n - 1, x);
      if x in SuccessesUpTo(outcomes, n) && x !in SuccessesUpTo(outcomes, n - 1) {
        assert outcomes[n - 1] == Some(x);
      }
      if outcomes[n - 1] == Some(x) {
        assert SuccessesUpTo(outcomes, n)[|SuccessesUpTo(outcomes, n)| - 1] == x;
      }
    }
  }

  /** A value is a phase sample exactly when some trial of the phase succeeded with it. */
  lemma {:induction false} SuccessesMembers(outcomes: seq<Option<real>>, x: real)
    ensures x in Successes(outcomes) <==> exists i :: 0 <= i < |outcomes| && outcomes[i] == Some(x)
  {
    SuccessesUpToMembers(outcomes, |outcomes|, x);
  }

  /** A phase collects no sample exactly when every one of its trials failed. */
  lemma {:induction false} NoSamplesIffAllFailed(outcomes: seq<Option<real>>)
    ensures |Successes(outcomes)| == 0 <==> forall i :: 0 <= i < |outcomes| ==> outcomes[i].None?
  {
    if |Successes(outcomes)| > 0 {
      var x := Successes(outcomes)[0];
      SuccessesMembers(outcomes, x);
    } else {
      forall i | 0 <= i < |outcomes| ensures outcomes[i].None? {
        if outcomes[i].Some? {
          SuccessesMembers(outcomes, outcomes[i].value);
        }
      }
    }
  }

  // ---- progress ------------------------------------------------------------------

  /** Every value of `s` lies between `lo` and `hi`. */
  ghost predicate Within(s: seq<int>, lo: int, hi: int)
  {
    forall k :: 0 <= k < |s| ==> lo <= s[k] <= hi
  }

  ghost predicate NonDecreasing(s: seq<int>)
  {
    forall i, j :: 0 <= i < j < |s| ==> s[i] <= s[j]
  }

  /**
   * The calls a phase makes after its first `n` trials: one per successful
   * trial, each `base + i * step` for a trial index `i < n`, so they rise
   * strictly and stay within `[base, base + (n - 1) * step]`.
   */
  lemma {:induction false} ProgressUpToShape(base: int, step: int, outcomes: seq<Option<real>>, n: nat)
    requires n <= |outcomes| && step > 0
    ensures |ProgressUpTo(base, step, outcomes, n)| == |SuccessesUpTo(outcomes, n)|
    ensures Within(ProgressUpTo(base, step, outcomes, n), base, base + (n - 1) * step)
    ensures forall k, l :: 0 <= k < l < |ProgressUpTo(base, step, outcomes, n)| ==>
              ProgressUpTo(base, step, outcomes, n)[k] < ProgressUpTo(base, step, outcomes, n)[l]
    decreases n
  {
    if n > 0 {
      ProgressUpToShape(base, step, outcomes, n - 1);
      var prev := ProgressUpTo(base, step, outcomes, n - 1);
      var top := base + (n - 1) * step;
      assert base + (n - 2) * step == top - step;
      assert ProgressUpTo(base, step, outcomes, n) == prev + (if outcomes[n - 1].Some? then [top] else []);
      assert SuccessesUpTo(outcomes, n)
          == SuccessesUpTo(outcomes, n - 1) + (if outcomes[n - 1].Some? then [outcomes[n - 1].value] else []);
      assert base <= top;
      forall k | 0 <= k < |prev| ensures base <= prev[k] < top {
        assert prev[k] <= top - step;
      }
    }
  }

  /** Joining two ordered traces, the first below the second, gives an ordered trace. */
  lemma {:induction false} JoinOrdered(a: seq<int>, b: seq<int>, lo: int, mid: int, hi: int)
    requires lo <= mid <= hi
    requires NonDecreasing(a) && Within(a, lo, mid)
    requires NonDecreasing(b) && Within(b, mid, hi)
    ensures NonDecreasing(a + b) && Within(a + b, lo, hi)
  {
    forall i, j | 0 <= i < j < |a + b| ensures (a + b)[i] <= (a + b)[j] {
      if j < |a| {
        assert (a + b)[i] == a[i] && (a + b)[j] == a[j];
      } else if i >= |a| {
        assert (a + b)[i] == b[i - |a|] && (a + b)[j] == b[j - |a|];
      } else {
        assert (a + b)[i] == a[i] && (a + b)[j] == b[j - |a|];
      }
    }
    forall k | 0 <= k < |a + b| ensures lo <= (a + b)[k] <= hi {
      if k < |a| {
        assert (a + b)[k] == a[k];
      } else {
        assert (a + b)[k] == b[k - |a|];
      }
    }
  }

  /**
   * A five-trial phase publishes its base first and then rising values
   * `base + i * step`, all within `[base, base + 4 * step]`.
   */
  lemma {:induction false} PhaseTraceShape(base: int, step: int, outcomes: seq<Option<real>>)
    requires |outcomes| == Trials && step > 0
    ensures PhaseTrace(base, step, outcomes)[0] == base
    ensures NonDecreasing(PhaseTrace(base, step, outcomes))
    ensures Within(PhaseTrace(base, step, outcomes), base, base + 4 * step)
  {
    ProgressUpToShape(base, step, outcomes, |outcomes|);
    JoinOrdered([base], PhaseProgress(base, step, outcomes), base, base, base + 4 * step);
  }

  /** The bands of the three phases: ping in [10, 26], download in [30, 62], upload in [70, 94]. */
  lemma {:induction false} PhaseBands(pings: seq<Option<real>>, downloads: seq<Option<real>>,
                                      uploads: seq<Option<real>>)
    requires |pings| == Trials && |downloads| == Trials && |uploads| == Trials
    ensures Within(PhaseTrace(PingBase, PingStep, pings), 10, 26)
    ensures Within(PhaseTrace(DownloadBase, DownloadStep, downloads), 30, 62)
    ensures Within(PhaseTrace(UploadBase, UploadStep, uploads), 70, 94)
  {
    PhaseTraceShape(PingBase, PingStep, pings);
    PhaseTraceShape(DownloadBase, DownloadStep, downloads);
    PhaseTraceShape(UploadBase, UploadStep, uploads);
  }

  /** The calls from the download phase on rise and stay within [30, 94]. */
  lemma {:induction false} TraceFromDownloadShape(downloads: seq<Option<real>>, uploads: seq<Option<real>>)
    requires |downloads| == Trials && |uploads| == Trials
    ensures NonDecreasing(TraceFromDownload(downloads, uploads))
    ensures Within(TraceFromDownload(downloads, uploads), 30, 94)
  {
    PhaseTraceShape(DownloadBase, DownloadStep, downloads);
    PhaseTraceShape(UploadBase, UploadStep, uploads);
    var rest := if |Successes(downloads)| == 0 then [] else PhaseTrace(UploadBase, UploadStep, uploads);
    JoinOrdered(PhaseTrace(DownloadBase, DownloadStep, downloads), rest, 30, 70, 94);
  }

  /** The calls from the ping phase on rise and stay within [10, 94]. */
  lemma {:induction false} TraceFromPingShape(pings: seq<Option<real>>, downloads: seq<Option<real>>,
                                              uploads: seq<Option<real>>)
    requires |pings| == Trials && |downloads| == Trials && |uploads| == Trials
    ensures NonDecreasing(TraceFromPing(pings, downloads, uploads))
    ensures Within(TraceFromPing(pings, downloads, uploads), 10, 94)
  {
    PhaseTraceShape(PingBase, PingStep, pings);
    TraceFromDownloadShape(downloads, uploads);
    var rest := if |Successes(pings)| == 0 then [] else TraceFromDownload(downloads, uploads);
    JoinOrdered(PhaseTrace(PingBase, PingStep, pings), rest, 10, 30, 94);
  }

  /**
   * Whatever the outcomes, the progress a run publishes starts at 0, never
   * goes down, stays within [0, 100] and ends at 100.
   */
  lemma {:induction false} ProgressTraceShape(meta: Metadata, pings: seq<Option<real>>,
                                              downloads: seq<Option<real>>, uploads: seq<Option<real>>)
    requires |pings| == Trials && |downloads| == Trials && |uploads| == Trials
    ensures ProgressTrace(meta, pings, downloads, uploads)[0] == 0
    ensures ProgressTrace(meta, pings, downloads, uploads)[|ProgressTrace(meta, pings, downloads, uploads)| - 1] == Done
    ensures NonDecreasing(ProgressTrace(meta, pings, downloads, uploads))
    ensures Within(ProgressTrace(meta, pings, downloads, uploads), 0, Done)
  {
    TraceFromPingShape(pings, downloads, uploads);
    var middle := if meta.Fetched? then TraceFromPing(pings, downloads, uploads) else [];
    JoinOrdered([0], middle, 0, 10, 94);
    JoinOrdered([0] + middle, [Done], 0, Done, Done);
  }

  // ---- how a run ends --------------------------------------------------------------

  /**
   * A failed metadata request aborts the run before any trial: the message is
   * the request's, progress goes straight from 0 to 100, and the current
   * speed is untouched.
   */
  lemma {:induction false} MetadataFailure(meta: Metadata, pings: seq<Option<real>>, downloads: seq<Option<real>>,
                                           uploads: seq<Option<real>>, current: real)
    requires !meta.Fetched?
    ensures Run(meta, pings, downloads, uploads).Failed?
    ensures meta.NotOk? ==> Run(meta, pings, downloads, uploads).message == MetadataFailedMessage
    ensures meta.Threw? && meta.message.Some? ==> Run(meta, pings, downloads, uploads).message == meta.message.value
    ensures meta.Threw? && meta.message.None? ==> Run(meta, pings, downloads, uploads).message == FallbackMessage
    ensures ProgressTrace(meta, pings, downloads, uploads) == [0, Done]
    ensures FinalSpeed(current, meta, pings, downloads, uploads) == current
  {
  }

  /**
   * When every ping fails the run stops with the ping message: progress
   * shows the ping phase only, so no download or upload trial ran, and the
   * current speed is untouched.
   */
  lemma {:induction false} PingsExhausted(data: IpData, pings: seq<Option<real>>, downloads: seq<Option<real>>,
                                          uploads: seq<Option<real>>, current: real)
    requires forall i :: 0 <= i < |pings| ==> pings[i].None?
    ensures Run(Fetched(data), pings, downloads, uploads) == Failed(PingFailedMessage)
    ensures ProgressTrace(Fetched(data), pings, downloads, uploads)
         == [0] + PhaseTrace(PingBase, PingStep, pings) + [Done]
    ensures FinalSpeed(current, Fetched(data), pings, downloads, uploads) == current
  {
    NoSamplesIffAllFailed(pings);
    assert PhaseTrace(PingBase, PingStep, pings) + [] == PhaseTrace(PingBase, PingStep, pings);
  }

  /**
   * When some ping succeeds but every download fails the run stops with the
   * download message after the ping and download phases, no upload trial
   * ran, and the current speed is untouched.
   */
  lemma {:induction false} DownloadsExhausted(data: IpData, pings: seq<Option<real>>, downloads: seq<Option<real>>,
                                              uploads: seq<Option<real>>, current: real)
    requires exists i :: 0 <= i < |pings| && pings[i].Some?
    requires forall i :: 0 <= i < |downloads| ==> downloads[i].None?
    ensures Run(Fetched(data), pings, downloads, uploads) == Failed(DownloadFailedMessage)
    ensures ProgressTrace(Fetched(data), pings, downloads, uploads)
         == [0] + PhaseTrace(PingBase, PingStep, pings) + PhaseTrace(DownloadBase, DownloadStep, downloads) + [Done]
    ensures FinalSpeed(current, Fetched(data), pings, downloads, uploads) == current
  {
    NoSamplesIffAllFailed(pings);
    NoSamplesIffAllFailed(downloads);
    var ping, download := PhaseTrace(PingBase, PingStep, pings), PhaseTrace(DownloadBase, DownloadStep, downloads);
    assert TraceFromDownload(downloads, uploads) == download + [];
    assert [0] + (ping + (download + [])) + [Done] == [0] + ping + download + [Done];
  }

  /**
   * When pings and downloads succeed but every upload fails the run stops
   * with the upload message after all three phases, and the current speed
   * is the last download sample.
   */
  lemma {:induction false} UploadsExhausted(data: IpData, pings: seq<Option<real>>, downloads: seq<Option<real>>,
                                            uploads: seq<Option<real>>, current: real)
    requires exists i :: 0 <= i < |pings| && pings[i].Some?
    requires exists i :: 0 <= i < |downloads| && downloads[i].Some?
    requires forall i :: 0 <= i < |uploads| ==> uploads[i].None?
    ensures Run(Fetched(data), pings, downloads, uploads) == Failed(UploadFailedMessage)
    ensures ProgressTrace(Fetched(data), pings, downloads, uploads)
         == [0] + PhaseTrace(PingBase, PingStep, pings) + PhaseTrace(DownloadBase, DownloadStep, downloads)
            + PhaseTrace(UploadBase, UploadStep, uploads) + [Done]
    ensures FinalSpeed(current, Fetched(data), pings, downloads, uploads)
         == Successes(downloads)[|Successes(downloads)| - 1]
  {
    NoSamplesIffAllFailed(pings);
    NoSamplesIffAllFailed(downloads);
    NoSamplesIffAllFailed(uploads);
    var ping, download := PhaseTrace(PingBase, PingStep, pings), PhaseTrace(DownloadBase, DownloadStep, downloads);
    var upload := PhaseTrace(UploadBase, UploadStep, uploads);
    assert [0] + (ping + (download + upload)) + [Done] == [0] + ping + download + upload + [Done];
  }

  /** A run completes exactly when the metadata arrived and every phase had a successful trial. */
  lemma {:induction false} CompletedIff(meta: Metadata, pings: seq<Option<real>>, downloads: seq<Option<real>>,
                                        uploads: seq<Option<real>>)
    ensures Run(meta, pings, downloads, uploads).Completed? <==>
              meta.Fetched? &&
              (exists i :: 0 <= i < |pings| && pings[i].Some?) &&
              (exists i :: 0 <= i < |downloads| && downloads[i].Some?) &&
              (exists i :: 0 <= i < |uploads| && uploads[i].Some?)
  {
    NoSamplesIffAllFailed(pings);
    NoSamplesIffAllFailed(downloads);
    NoSamplesIffAllFailed(uploads);
  }

  /** A completed run publishes the aggregate of its three sample lists. */
  lemma {:induction false} CompletedPublishesAggregate(data: IpData, pings: seq<Option<real>>,
                                                       downloads: seq<Option<real>>, uploads: seq<Option<real>>)
    requires Run(Fetched(data), pings, downloads, uploads).Completed?
    ensures |Successes(pings)| > 0
    ensures Run(Fetched(data), pings, downloads, uploads).results
         == Aggregated(data, Successes(pings), Successes(downloads), Successes(uploads))
  {
  }

  /**
   * The latency figures of the published results: `ping` and `latency` are
   * the same `Math.round` of the mean ping (sum over count), and that mean
   * lies between the fastest and the slowest ping.
   */
  lemma {:induction false} AggregatedLatency(data: IpData, p: seq<real>, d: seq<real>, u: seq<real>)
    requires |p| > 0
    ensures Aggregated(data, p, d, u).ping == Aggregated(data, p, d, u).latency == JsRound(Average(p))
    ensures Min(p) <= Average(p) <= Max(p)
  {
    AverageBounds(p);
  }

  /** The published `jitter` is the spread max - min of the pings with two decimals, never negative. */
  lemma {:induction false} AggregatedJitter(data: IpData, p: seq<real>, d: seq<real>, u: seq<real>)
    requires |p| > 0
    ensures Aggregated(data, p, d, u).jitter == Round2(Spread(p))
    ensures Aggregated(data, p, d, u).jitter >= 0.0
  {
    Round2NonNegative(Spread(p));
  }

  /**
   * A published throughput figure: with three or more samples, the sum less
   * one minimum and one maximum over the count less two, with two decimals;
   * with one or two, NaN, as the empty slice's `0 / 0`.
   */
  lemma {:induction false} PublishedThroughput(s: seq<real>)
    ensures Round2Number(TrimmedMean(s)).NaN? <==> |s| < 3
    ensures |s| >= 3 ==> Round2Number(TrimmedMean(s)) == Finite(Round2((Sum(s) - Min(s) - Max(s)) / (|s| - 2) as real))
  {
    if |s| >= 3 {
      TrimmedMeanValue(s);
    }
  }

  /** The download and upload figures of the published results are the trimmed means of their samples. */
  lemma {:induction false} AggregatedThroughput(data: IpData, p: seq<real>, d: seq<real>, u: seq<real>)
    requires |p| > 0
    ensures var r := Aggregated(data, p, d, u);
            (r.download.NaN? <==> |d| < 3) &&
            (|d| >= 3 ==> r.download == Finite(Round2((Sum(d) - Min(d) - Max(d)) / (|d| - 2) as real))) &&
            (r.upload.NaN? <==> |u| < 3) &&
            (|u| >= 3 ==> r.upload == Finite(Round2((Sum(u) - Min(u) - Max(u)) / (|u| - 2) as real)))
  {
    PublishedThroughput(d);
    PublishedThroughput(u);
  }

  /**
   * The metadata figures of the published results: the IP as received, and
   * each missing or empty location field and ISP replaced by 'Unknown'.
   */
  lemma {:induction false} AggregatedMetadata(data: IpData, p: seq<real>, d: seq<real>, u: seq<real>)
    requires |p| > 0
    ensures var r := Aggregated(data, p, d, u);
            r.ip == data.ip &&
            (data.city.Some? && data.city.value != "" ==> r.location.city == data.city.value) &&
            (data.city.None? || data.city.value == "" ==> r.location.city == Unknown) &&
            (data.country.Some? && data.country.value != "" ==> r.location.country == data.country.value) &&
            (data.country.None? || data.country.value == "" ==> r.location.country == Unknown) &&
            (data.region.Some? && data.region.value != "" ==> r.location.region == data.region.value) &&
            (data.region.None? || data.region.value == "" ==> r.location.region == Unknown) &&
            (data.isp.Some? && data.isp.value != "" ==> r.isp == data.isp.value) &&
            (data.isp.None? || data.isp.value == "" ==> r.isp == Unknown)
  {
  }

  /** After a completed run the current speed is the last upload sample. */
  lemma {:induction false} CompletedSpeed(data: IpData, pings: seq<Option<real>>, downloads: seq<Option<real>>,
                                          uploads: seq<Option<real>>, current: real)
    requires Run(Fetched(data), pings, downloads, uploads).Completed?
    ensures FinalSpeed(current, Fetched(data), pings, downloads, uploads)
         == Successes(uploads)[|Successes(uploads)| - 1]
  {
  }

  // ---- the measurements ------------------------------------------------------------

  /**
   * The page's upload sample is the `speed` the route answers with: the
   * overhead-adjusted rate with two decimals when the body was read, and a
   * failed trial when the route answered 500.
   */
  lemma {:induction false} UploadSampleFromRoute(startTime: int, read: UploadRoute.BodyRead)
    requires read.Received? ==> read.endTime > startTime
    ensures read.ReadFailed? ==> MeasureUpload(Some(UploadRoute.Post(startTime, read))) == None
    ensures read.Received? ==>
              MeasureUpload(Some(UploadRoute.Post(startTime, read)))
              == Some(Round2(UploadRoute.Mbps(read.byteLength, UploadRoute.Seconds(startTime, read.endTime))))
  {
    if read.Received? {
      UploadRoute.SpeedIsRoundedMbps(startTime, read.byteLength, read.endTime);
    }
  }

  /**
   * For the same byte count and the same interval, the route's upload rate
   * is the page's download rate raised by the 5% overhead factor.
   */
  lemma {:induction false} UploadRateIsOverheadOfDownloadRate(bytes: nat, startMs: int, endMs: int)
    requires endMs > startMs
    ensures UploadRoute.Mbps(bytes, UploadRoute.Seconds(startMs, endMs))
         == UploadRoute.OverheadFactor * DownloadMbps(bytes, startMs, endMs)
  {
    var s := UploadRoute.Seconds(startMs, endMs);
    var down := DownloadMbps(bytes, startMs, endMs);
    var up := UploadRoute.Mbps(bytes, s);
    assert s == (endMs - startMs) as real / 1000.0;
    assert down * s * 1048576.0 == bytes as real * 8.0;
    assert up * s * 1048576.0 == bytes as real * 1.05 * 8.0;
    assert up * s * 1048576.0 == (1.05 * down) * s * 1048576.0;
    assert s * 1048576.0 > 0.0;
  }

  /** A download of 1 MiB timed at one second is 8 Mbps. */
  lemma {:induction false} DownloadMbpsExample()
    ensures MeasureDownload(Some(Transfer(1048576, 0, 1000))) == Some(8.0)
  {
    assert DownloadMbps(1048576, 0, 1000) * 1.0 * 1048576.0 == 1048576.0 * 8.0;
  }
}
