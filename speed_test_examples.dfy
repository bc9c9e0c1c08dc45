/**
 * A worked run of `startTest`: five answered pings of 20, 22, 19, 25 and
 * 21 ms, downloads whose second and fourth trials fail, and uploads whose
 * last two trials fail. It shows the progress the page publishes, the
 * current speed it ends on, and that the published ping of a 21.4 ms mean
 * is the rounded 21.
 */
module SpeedTestExamples {
  import opened Wrappers
  import opened Rounding
  import opened Aggregate
  import opened SpeedTest
  import opened SpeedTestProperties

  const ExamplePings: seq<Option<real>> := [Some(20.0), Some(22.0), Some(19.0), Some(25.0), Some(21.0)]
  const ExampleDownloads: seq<Option<real>> := [Some(50.0), None, Some(60.0), None, Some(55.0)]
  const ExampleUploads: seq<Option<real>> := [Some(10.0), Some(12.0), Some(11.0), None, None]

  const ExampleData: IpData := IpData("203.0.113.7", Some("Lisbon"), Some("Portugal"), None, Some(""))

  /** The samples each phase of the worked run collects, in trial order. */
  lemma {:induction false} ExampleSamples()
    ensures Successes(ExamplePings) == [20.0, 22.0, 19.0, 25.0, 21.0]
    ensures Successes(ExampleDownloads) == [50.0, 60.0, 55.0]
    ensures Successes(ExampleUploads) == [10.0, 12.0, 11.0]
  {
    var p, d, u := ExamplePings, ExampleDownloads, ExampleUploads;
    assert SuccessesUpTo(p, 1) == [20.0];
    assert SuccessesUpTo(p, 2) == [20.0, 22.0];
    assert SuccessesUpTo(p, 3) == [20.0, 22.0, 19.0];
    assert SuccessesUpTo(p, 4) == [20.0, 22.0, 19.0, 25.0];
    assert SuccessesUpTo(d, 1) == [50.0];
    assert SuccessesUpTo(d, 2) == [50.0];
    assert SuccessesUpTo(d, 3) == [50.0, 60.0];
    assert SuccessesUpTo(d, 4) == [50.0, 60.0];
    assert SuccessesUpTo(u, 1) == [10.0];
    assert SuccessesUpTo(u, 2) == [10.0, 12.0];
    assert SuccessesUpTo(u, 3) == [10.0, 12.0, 11.0];
    assert SuccessesUpTo(u, 4) == [10.0, 12.0, 11.0];
  }

  /** The `setProgress` calls of each phase of the worked run. */
  lemma {:induction false} ExampleTrace()
    ensures PhaseTrace(PingBase, PingStep, ExamplePings) == [10, 10, 14, 18, 22, 26]
    ensures PhaseTrace(DownloadBase, DownloadStep, ExampleDownloads) == [30, 30, 46, 62]
    ensures PhaseTrace(UploadBase, UploadStep, ExampleUploads) == [70, 70, 76, 82]
  {
    var p, d, u := ExamplePings, ExampleDownloads, ExampleUploads;
    assert ProgressUpTo(10, 4, p, 1) == [10];
    assert ProgressUpTo(10, 4, p, 2) == [10, 14];
    assert ProgressUpTo(10, 4, p, 3) == [10, 14, 18];
    assert ProgressUpTo(10, 4, p, 4) == [10, 14, 18, 22];
    assert ProgressUpTo(10, 4, p, 5) == [10, 14, 18, 22, 26];
    assert ProgressUpTo(30, 8, d, 1) == [30];
    assert ProgressUpTo(30, 8, d, 2) == [30];
    assert ProgressUpTo(30, 8, d, 3) == [30, 46];
    assert ProgressUpTo(30, 8, d, 4) == [30, 46];
    assert ProgressUpTo(30, 8, d, 5) == [30, 46, 62];
    assert ProgressUpTo(70, 6, u, 1) == [70];
    assert ProgressUpTo(70, 6, u, 2) == [70, 76];
    assert ProgressUpTo(70, 6, u, 3) == [70, 76, 82];
    assert ProgressUpTo(70, 6, u, 4) == [70, 76, 82];
    assert ProgressUpTo(70, 6, u, 5) == [70, 76, 82];
  }

  /** The extremes and the sum of a three-sample list. */
  lemma {:induction false} ThreeSamples(x: real, y: real, z: real)
    ensures Sum([x, y, z]) == x + y + z
    ensures Max([x, y, z]) == if x >= y && x >= z then x else if y >= z then y else z
    ensures Min([x, y, z]) == if x <= y && x <= z then x else if y <= z then y else z
  {
    var s := [x, y, z];
    assert s[1..] == [y, z] && s[1..][1..] == [z];
    assert Sum([z]) == z + Sum([z][1..]) == z;
    assert Sum([y, z]) == y + Sum([z]);
  }

  /** The mean ping of the worked run is 21.4 ms, which `Math.round` publishes as 21. */
  lemma {:induction false} ExamplePingMean()
    ensures Average([20.0, 22.0, 19.0, 25.0, 21.0]) == 21.4
    ensures JsRound(21.4) == 21
  {
    var p := [20.0, 22.0, 19.0, 25.0, 21.0];
    assert p[1..] == [22.0, 19.0, 25.0, 21.0];
    assert p[1..][1..] == [19.0, 25.0, 21.0];
    assert p[1..][1..][1..] == [25.0, 21.0];
    assert p[1..][1..][1..][1..] == [21.0];
    assert Sum(p) == 107.0;
    JsRoundUnique(21.4, 21);
  }

  /** The pings of the worked run spread over 25 - 19 = 6 ms, published as 6. */
  lemma {:induction false} ExamplePingSpread()
    ensures Spread([20.0, 22.0, 19.0, 25.0, 21.0]) == 6.0
    ensures Round2(6.0) == 6.0
  {
    var p := [20.0, 22.0, 19.0, 25.0, 21.0];
    assert p[1..] == [22.0, 19.0, 25.0, 21.0];
    ThreeSamples(19.0, 25.0, 21.0);
    assert p[1..][1..] == [19.0, 25.0, 21.0];
    assert Max(p) == 25.0;
    assert Min(p) == 19.0;
    JsRoundUnique(600.0, 600);
  }

  /**
   * The whole run publishes 0, each phase's base and per-trial values, and
   * 100, and leaves the last upload sample as the current speed.
   */
  lemma {:induction false} ExampleRunProgress()
    ensures ProgressTrace(Fetched(ExampleData), ExamplePings, ExampleDownloads, ExampleUploads)
         == [0, 10, 10, 14, 18, 22, 26, 30, 30, 46, 62, 70, 70, 76, 82, 100]
    ensures FinalSpeed(0.0, Fetched(ExampleData), ExamplePings, ExampleDownloads, ExampleUploads) == 11.0
  {
    ExampleSamples();
    ExampleTrace();
  }

  /** The latency figures the worked run publishes: ping and latency 21, jitter 6. */
  lemma {:induction false} ExampleLatency()
    ensures var r := Aggregated(ExampleData, [20.0, 22.0, 19.0, 25.0, 21.0], [50.0, 60.0, 55.0], [10.0, 12.0, 11.0]);
            r.ping == 21 && r.latency == 21 && r.jitter == 6.0
  {
    ExamplePingMean();
    ExamplePingSpread();
    AggregatedLatency(ExampleData, [20.0, 22.0, 19.0, 25.0, 21.0], [50.0, 60.0, 55.0], [10.0, 12.0, 11.0]);
    AggregatedJitter(ExampleData, [20.0, 22.0, 19.0, 25.0, 21.0], [50.0, 60.0, 55.0], [10.0, 12.0, 11.0]);
  }

  /** Three samples whose last lies strictly between the other two: dropping the extremes leaves it. */
  lemma {:induction false} InnerOfThree(s: seq<real>)
    requires |s| == 3 && s[0] < s[2] < s[1]
    ensures (Sum(s) - Min(s) - Max(s)) / (|s| - 2) as real == s[2]
  {
    assert s == [s[0], s[1], s[2]];
    ThreeSamples(s[0], s[1], s[2]);
    assert Sum(s) - Min(s) - Max(s) == s[2];
    assert (|s| - 2) as real == 1.0;
  }

  /** The trimmed mean of such three samples is the middle one. */
  lemma {:induction false} TrimmedOfThree(s: seq<real>)
    requires |s| == 3 && s[0] < s[2] < s[1]
    ensures TrimmedMean(s) == Finite(s[2])
  {
    InnerOfThree(s);
    TrimmedMeanValue(s);
  }

  /**
   * The throughput figures the worked run publishes: the middle download 55
   * and the middle upload 11, each the trimmed mean of three samples.
   */
  lemma {:induction false} ExampleThroughput()
    ensures var r := Aggregated(ExampleData, [20.0, 22.0, 19.0, 25.0, 21.0], [50.0, 60.0, 55.0], [10.0, 12.0, 11.0]);
            r.download == Finite(55.0) && r.upload == Finite(11.0)
  {
    TrimmedOfThree([50.0, 60.0, 55.0]);
    TrimmedOfThree([10.0, 12.0, 11.0]);
    JsRoundUnique(5500.0, 5500);
    JsRoundUnique(1100.0, 1100);
  }
}
