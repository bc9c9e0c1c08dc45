/**
 * The server's upload handler, `POST` in src/app/api/speedtest/upload/route.ts.
 * It reads the request body, times the read, and answers with the byte
 * count, the duration in milliseconds and the throughput in Mbps, the byte
 * count raised by 5% for protocol overhead. The two `Date.now()` readings and
 * the outcome of reading the body are the inputs here.
 */
module UploadRoute {
  import opened Rounding

  /** The overhead factor for TCP/IP headers and framing. */
  const OverheadFactor: real := 1.05
  const BitsPerByte: real := 8.0
  /** 1024 * 1024: the route counts megabits in units of 2^20 bits. */
  const BitsPerMegabit: real := 1048576.0
  const HttpOk: nat := 200
  const HttpInternalError: nat := 500
  const FailureMessage: string := "Upload test failed. Please try again."

  /** What `request.arrayBuffer()` produced, and the clock reading taken right after it. */
  datatype BodyRead =
    | ReadFailed
    | Received(byteLength: nat, endTime: int)

  /** The JSON body of the response. */
  datatype Json =
    | Measurement(status: string, size: nat, duration: real, speed: real, unit: string)
    | ErrorBody(error: string)

  datatype Response = Response(httpStatus: nat, body: Json)

  /** `(bytes * 1.05 * 8 / seconds) / (1024 * 1024)`: overhead-adjusted megabits per second. */
  function Mbps(bytes: nat, seconds: real): (r: real)
    requires seconds > 0.0
    ensures r >= 0.0
    ensures r * seconds * BitsPerMegabit == bytes as real * OverheadFactor * BitsPerByte
  {
    ((bytes as real * OverheadFactor) * BitsPerByte / seconds) / BitsPerMegabit
  }

  /**
   * The handler. `startTime` is the clock when the request arrived; a read
   * that succeeds carries the clock after it. The time must have advanced,
   * since the handler divides by the elapsed seconds.
   */
  function Post(startTime: int, read: BodyRead): (r: Response)
    requires read.Received? ==> read.endTime > startTime
    ensures read.ReadFailed? <==> r.httpStatus == HttpInternalError
    ensures read.ReadFailed? ==> r.body == ErrorBody(FailureMessage)
    ensures read.Received? ==>
      r.httpStatus == HttpOk && r.body.Measurement? &&
      r.body.status == "ok" && r.body.unit == "Mbps" &&
      r.body.size == read.byteLength &&
      r.body.duration == (read.endTime - startTime) as real
  {
    match read
    case ReadFailed =>
      Response(HttpInternalError, ErrorBody(FailureMessage))
    case Received(bytes, endTime) =>
      var seconds := Seconds(startTime, endTime);
      var mbps := Mbps(bytes, seconds);
      Response(HttpOk, Measurement("ok", bytes, seconds * 1000.0, Round2(mbps), "Mbps"))
  }

  /** The elapsed seconds of a successful read, the divisor of the throughput. */
  function Seconds(startTime: int, endTime: int): (r: real)
    requires endTime > startTime
    ensures r > 0.0
    ensures r * 1000.0 == (endTime - startTime) as real
  {
    (endTime - startTime) as real / 1000.0
  }

  /** The reported speed is the overhead-adjusted rate published with two decimals. */
  lemma {:induction false} SpeedIsRoundedMbps(startTime: int, bytes: nat, endTime: int)
    requires endTime > startTime
    ensures Post(startTime, Received(bytes, endTime)).body.speed
         == Round2(Mbps(bytes, Seconds(startTime, endTime)))
    ensures Round2(Mbps(bytes, Seconds(startTime, endTime)))
         == Round2(bytes as real * 8400.0 / ((endTime - startTime) as real * BitsPerMegabit))
  {
    var s := Seconds(startTime, endTime);
    var e := (endTime - startTime) as real;
    assert Mbps(bytes, s) == bytes as real * 8400.0 / (e * BitsPerMegabit) by {
      assert s == e / 1000.0;
      assert (bytes as real * OverheadFactor) * BitsPerByte == bytes as real * 8.4;
    }
  }

  /** For a fixed positive duration the reported speed never decreases as more bytes arrive. */
  lemma {:induction false} SpeedMonotoneInBytes(startTime: int, endTime: int, smaller: nat, larger: nat)
    requires endTime > startTime
    requires smaller <= larger
    ensures 0.0 <= Post(startTime, Received(smaller, endTime)).body.speed
    ensures Post(startTime, Received(smaller, endTime)).body.speed
         <= Post(startTime, Received(larger, endTime)).body.speed
  {
    var s := Seconds(startTime, endTime);
    MbpsMonotone(smaller, larger, s);
    SpeedIsRoundedMbps(startTime, smaller, endTime);
    SpeedIsRoundedMbps(startTime, larger, endTime);
    Round2NonNegative(Mbps(smaller, s));
    Round2Monotone(Mbps(smaller, s), Mbps(larger, s));
  }

  /** The unrounded rate grows with the byte count. */
  lemma {:induction false} MbpsMonotone(smaller: nat, larger: nat, seconds: real)
    requires seconds > 0.0
    requires smaller <= larger
    ensures Mbps(smaller, seconds) <= Mbps(larger, seconds)
  {
    var a := (smaller as real * OverheadFactor) * BitsPerByte;
    var b := (larger as real * OverheadFactor) * BitsPerByte;
    assert a <= b;
    assert a / seconds <= b / seconds by {
      assert (b - a) / seconds >= 0.0;
      assert (b - a) / seconds == b / seconds - a / seconds;
    }
  }

  /** The published speed is within half a hundredth of the exact overhead-adjusted rate. */
  lemma {:induction false} SpeedNearMbps(startTime: int, bytes: nat, endTime: int)
    requires endTime > startTime
    ensures var exact := Mbps(bytes, Seconds(startTime, endTime));
            exact - 0.005 < Post(startTime, Received(bytes, endTime)).body.speed <= exact + 0.005
  {
    SpeedIsRoundedMbps(startTime, bytes, endTime);
  }
}
