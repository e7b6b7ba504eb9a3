/** The acquisition routines built on the sensor: `record_stream` (an average
    of channel-1 values over a fixed number of stream reads), `calibrate` (two
    such averages) and `data_puller` (the producer loop that feeds the data
    queue). */
module Acquisition {
  import opened Results
  import opened Codec
  import Commands
  import opened Device
  import opened Streaming

  // ---------------------------------------------------------------------
  // Python arithmetic
  // ---------------------------------------------------------------------

  /** `a // b`: the quotient rounded toward negative infinity. */
  function FloorDiv(a: int, b: int): int
    requires b != 0
  {
    if b > 0 then a / b else (-a) / (-b)
  }

  /** `a // b` is the largest q with q * b <= a when b is positive, and the
      smallest q with q * b >= a when b is negative. */
  lemma FloorDivBounds(a: int, b: int)
    requires b != 0
    ensures var q := FloorDiv(a, b);
      && (b > 0 ==> q * b <= a < q * b + b)
      && (b < 0 ==> q * b >= a > q * b + b)
  {
  }

  /** `len(range(a // b))`: how many times `record_stream` reads. */
  function ReadCount(numSamples: int, numPackets: int): nat
    requires numPackets != 0
  {
    var q := FloorDiv(numSamples, numPackets);
    if q < 0 then 0 else q
  }

  /** With positive operands, `a // b` groups of b cover a up to its
      remainder, and cover all of a exactly when b divides a. */
  lemma ReadCountCovers(numSamples: int, numPackets: int)
    requires numSamples > 0 && numPackets > 0
    ensures ReadCount(numSamples, numPackets) * numPackets == numSamples - numSamples % numPackets
    ensures ReadCount(numSamples, numPackets) * numPackets == numSamples <==> numSamples % numPackets == 0
  {
  }

  /** Dividing a positive sum by more than the count it was gathered over
      gives less than the mean. */
  lemma OverDivisionLowers(average: real, sum: real, count: real, requested: real)
    requires 0.0 < count < requested && sum > 0.0
    requires average * requested == sum
    ensures average < sum / count
  {
  }

  /** `int(x)` for a float: truncation toward zero. */
  function Trunc(x: real): (n: int)
    ensures x >= 0.0 ==> n as real <= x < n as real + 1.0
    ensures x < 0.0 ==> n as real - 1.0 < x <= n as real
  {
    if x >= 0.0 then x.Floor else -((-x).Floor)
  }

  /** `sum([int(c) for c in xs])`. */
  function SumTrunc(xs: seq<real>): int
  {
    if xs == [] then 0 else SumTrunc(xs[..|xs| - 1]) + Trunc(xs[|xs| - 1])
  }

  /** The sum of truncations accumulates over `data += ch1`: summing a
      concatenation adds the sums of its parts. */
  lemma {:induction false} SumTruncAppend(xs: seq<real>, ys: seq<real>)
    ensures SumTrunc(xs + ys) == SumTrunc(xs) + SumTrunc(ys)
    decreases |ys|
  {
    if ys == [] {
      assert xs + ys == xs;
    } else {
      var init := ys[..|ys| - 1];
      assert xs + ys == (xs + init) + [ys[|ys| - 1]];
      assert (xs + ys)[..|xs + ys| - 1] == xs + init;
      SumTruncAppend(xs, init);
    }
  }

  /** Truncating a decoded value gives back the device integer divided by the
      factor, rounded down. */
  lemma TruncScale(t: nat)
    ensures Trunc(Scale(t)) == t / FACTOR
  {
  }

  // ---------------------------------------------------------------------
  // Reading stream lines
  // ---------------------------------------------------------------------

  /** What a run of stream reads leaves: the channel-1 values gathered, the
      number of lines read, and the failure that ended the run, if any. */
  datatype Collected = Collected(values: seq<real>, linesRead: nat, failure: Option<Error>)

  /** The frame `read_stream` returns for each line of the device. */
  function DecodedStream(incoming: nat -> string): nat -> Result<Frame>
  {
    (i: nat) => Decode(incoming(i))
  }

  /** Up to n reads of `read_stream` starting at the device's line `from`,
      appending each frame's channel-1 values; the first line that does not
      decode ends the run. */
  function Collect(frames: nat -> Result<Frame>, from: nat, n: nat): (c: Collected)
    ensures c.linesRead <= n
    ensures c.failure.None? ==> c.linesRead == n
    ensures c.failure.Some? ==> c.linesRead >= 1
  {
    if n == 0 then Collected([], 0, None)
    else
      var c := Collect(frames, from, n - 1);
      if c.failure.Some? then c
      else match frames(from + n - 1)
        case Failure(e) => Collected(c.values, n, Some(e))
        case Success(f) => Collected(c.values + f.ch1, n, None)
  }

  /** One more read after a run that has not failed. */
  lemma CollectNext(frames: nat -> Result<Frame>, from: nat, n: nat)
    requires Collect(frames, from, n).failure.None?
    ensures var c, frame := Collect(frames, from, n), frames(from + n);
      Collect(frames, from, n + 1)
        == if frame.Failure? then Collected(c.values, n + 1, Some(frame.error))
           else Collected(c.values + frame.value.ch1, n + 1, None)
  {
  }

  /** Once a run has failed, reading longer changes nothing: no line after
      the failing one is read. */
  lemma {:induction false} CollectKeepsFailure(frames: nat -> Result<Frame>, from: nat, m: nat, n: nat)
    requires m <= n
    requires Collect(frames, from, m).failure.Some?
    ensures Collect(frames, from, n) == Collect(frames, from, m)
  {
    if m < n {
      CollectKeepsFailure(frames, from, m, n - 1);
    }
  }

  /** A run fails exactly when one of its lines does not decode, and then it
      stops at the first such line, with that line's error. */
  lemma {:induction false} CollectStopsAtFirstFailure(frames: nat -> Result<Frame>, from: nat, n: nat)
    ensures var c := Collect(frames, from, n);
      c.failure.None? <==> forall j :: from <= j < from + n ==> frames(j).Success?
    ensures var c := Collect(frames, from, n);
      c.failure.Some? ==>
        && 1 <= c.linesRead <= n
        && frames(from + c.linesRead - 1) == Failure(c.failure.value)
        && forall j :: from <= j < from + c.linesRead - 1 ==> frames(j).Success?
  {
    if n > 0 {
      CollectStopsAtFirstFailure(frames, from, n - 1);
    }
  }

  /** When every line read holds k channel-1 values, n reads gather n * k
      values. */
  lemma {:induction false} CollectCounts(frames: nat -> Result<Frame>, from: nat, n: nat, k: nat)
    requires forall j :: from <= j < from + n ==> frames(j).Success? && |frames(j).value.ch1| == k
    ensures Collect(frames, from, n).failure.None?
    ensures |Collect(frames, from, n).values| == n * k
  {
    if n > 0 {
      CollectCounts(frames, from, n - 1, k);
      var j := from + n - 1;
      assert frames(j).Success?;
    }
  }

  // ---------------------------------------------------------------------
  // record_stream
  // ---------------------------------------------------------------------

  /** The commands `record_stream` sends before it reads. */
  function Setup(numPackets: int): seq<string>
  {
    [Commands.SetPacketSize(numPackets), Commands.SetStream(false), Commands.SetStream(true)]
  }

  /** Whether `record_stream` gets through all its reads. */
  predicate ReadsComplete(frames: nat -> Result<Frame>, from: nat, numSamples: int, numPackets: int)
  {
    numPackets != 0 && Collect(frames, from + 3, ReadCount(numSamples, numPackets)).failure.None?
  }

  /** The channel-1 values `record_stream` gathers. */
  function RecordedData(frames: nat -> Result<Frame>, from: nat, numSamples: int, numPackets: int): seq<real>
    requires numPackets != 0
  {
    Collect(frames, from + 3, ReadCount(numSamples, numPackets)).values
  }

  /** The result of `record_stream(sensor, numSamples, numPackets)` against a
      device whose next line decodes to `frames(from)`. */
  function RecordedAverage(frames: nat -> Result<Frame>, from: nat, numSamples: int, numPackets: int): Result<real>
  {
    if numPackets == 0 then Failure(DivisionByZero)
    else
      var c := Collect(frames, from + 3, ReadCount(numSamples, numPackets));
      if c.failure.Some? then Failure(c.failure.value)
      else if numSamples == 0 then Failure(DivisionByZero)
      else Success(SumTrunc(c.values) as real / numSamples as real)
  }

  /** The commands that `record_stream` writes. */
  function RecordedCommands(frames: nat -> Result<Frame>, from: nat, numSamples: int, numPackets: int): seq<string>
  {
    Setup(numPackets)
      + (if ReadsComplete(frames, from, numSamples, numPackets) then [Commands.SetStream(false)] else [])
  }

  /** The number of lines that `record_stream` reads, one per command and one
      per stream read. */
  function RecordedLines(frames: nat -> Result<Frame>, from: nat, numSamples: int, numPackets: int): nat
  {
    if numPackets == 0 then 3
    else
      var c := Collect(frames, from + 3, ReadCount(numSamples, numPackets));
      3 + c.linesRead + (if c.failure.None? then 1 else 0)
  }

  /** The `for` loop of `record_stream`: n reads of `read_stream`, each
      frame's channel-1 values appended to the data; an exception from a read
      ends the loop. */
  method ReadPackets(sensor: Sensor, n: nat) returns (data: seq<real>, failure: Option<Error>)
    modifies sensor
    ensures sensor.cursor >= old(sensor.cursor) && sensor.sent == old(sensor.sent)
    ensures Collect(DecodedStream(sensor.incoming), old(sensor.cursor), n)
      == Collected(data, sensor.cursor - old(sensor.cursor), failure)
  {
    data, failure := [], None;
    ghost var start := sensor.cursor;
    var i := 0;
    while i < n && failure.None?
      invariant i <= n && sensor.cursor == start + i && sensor.sent == old(sensor.sent)
      invariant Collect(DecodedStream(sensor.incoming), start, i) == Collected(data, i, failure)
    {
      var frame := sensor.ReadStream();
      CollectNext(DecodedStream(sensor.incoming), start, i);
      if frame.Failure? {
        failure := Some(frame.error);
      } else {
        data := data + frame.value.ch1;
      }
      i := i + 1;
    }
    if failure.Some? {
      CollectKeepsFailure(DecodedStream(sensor.incoming), start, i, n);
    }
  }

  method RecordStream(sensor: Sensor, numSamples: int, numPackets: int) returns (average: Result<real>)
    modifies sensor
    ensures var frames, from := DecodedStream(sensor.incoming), old(sensor.cursor);
      && average == RecordedAverage(frames, from, numSamples, numPackets)
      && sensor.sent == old(sensor.sent) + RecordedCommands(frames, from, numSamples, numPackets)
      && sensor.cursor == from + RecordedLines(frames, from, numSamples, numPackets)
  {
    sensor.SetPacketSize(numPackets);
    sensor.SetStream(false);
    sensor.SetStream(true);
    if numPackets == 0 {
      return Failure(DivisionByZero);
    }
    var data, failure := ReadPackets(sensor, ReadCount(numSamples, numPackets));
    if failure.Some? {
      return Failure(failure.value);
    }
    sensor.SetStream(false);
    if numSamples == 0 {
      return Failure(DivisionByZero);
    }
    average := Success(SumTrunc(data) as real / numSamples as real);
  }

  /** The command script of `record_stream`: packet size, stream off, stream
      on, then, when every read succeeds, stream off; a division by zero in
      `//` happens after the three set-up commands and before any read, and a
      successful run has read one line per command and one per packet. */
  lemma RecordedScript(frames: nat -> Result<Frame>, from: nat, numSamples: int, numPackets: int)
    ensures RecordedCommands(frames, from, numSamples, numPackets)[..3] == Setup(numPackets)
    ensures numPackets == 0 ==>
      && RecordedAverage(frames, from, numSamples, numPackets) == Failure(DivisionByZero)
      && RecordedLines(frames, from, numSamples, numPackets) == 3
    ensures RecordedAverage(frames, from, numSamples, numPackets).Success? ==>
      && numPackets != 0 && numSamples != 0
      && RecordedCommands(frames, from, numSamples, numPackets) == Setup(numPackets) + [Commands.SetStream(false)]
      && RecordedLines(frames, from, numSamples, numPackets) == 3 + ReadCount(numSamples, numPackets) + 1
  {
    var ok := ReadsComplete(frames, from, numSamples, numPackets);
    assert (Setup(numPackets) + (if ok then [Commands.SetStream(false)] else []))[..3] == Setup(numPackets);
  }

  /** The average divides the sum of the truncated values by the number of
      samples asked for, not by the number gathered. */
  lemma RecordedDividesByRequested(frames: nat -> Result<Frame>, from: nat, numSamples: int, numPackets: int)
    requires RecordedAverage(frames, from, numSamples, numPackets).Success?
    ensures numPackets != 0 && numSamples != 0
    ensures RecordedAverage(frames, from, numSamples, numPackets).value * numSamples as real
      == SumTrunc(RecordedData(frames, from, numSamples, numPackets)) as real
  {
  }

  /** When every stream line carries a full packet of numPackets channel-1
      values, `record_stream` averages over numSamples rounded down to a
      multiple of numPackets values, and over all numSamples of them exactly
      when numPackets divides numSamples. */
  lemma RecordedFullPackets(frames: nat -> Result<Frame>, from: nat, numSamples: int, numPackets: int)
    requires numPackets > 0 && numSamples > 0
    requires forall j :: from + 3 <= j < from + 3 + ReadCount(numSamples, numPackets) ==>
      frames(j).Success? && |frames(j).value.ch1| == numPackets
    ensures RecordedAverage(frames, from, numSamples, numPackets).Success?
    ensures |RecordedData(frames, from, numSamples, numPackets)| == numSamples - numSamples % numPackets
    ensures |RecordedData(frames, from, numSamples, numPackets)| == numSamples <==> numSamples % numPackets == 0
  {
    CollectCounts(frames, from + 3, ReadCount(numSamples, numPackets), numPackets);
    ReadCountCovers(numSamples, numPackets);
  }

  /** Because of that, a run that gathers fewer values than asked for reports
      less than the mean of what it gathered. */
  lemma ShortfallLowersAverage(frames: nat -> Result<Frame>, from: nat, numSamples: int, numPackets: int)
    requires RecordedAverage(frames, from, numSamples, numPackets).Success?
    requires numPackets != 0
    requires 0 < |RecordedData(frames, from, numSamples, numPackets)| < numSamples
    requires SumTrunc(RecordedData(frames, from, numSamples, numPackets)) > 0
    ensures var data := RecordedData(frames, from, numSamples, numPackets);
      RecordedAverage(frames, from, numSamples, numPackets).value < SumTrunc(data) as real / |data| as real
  {
    var data := RecordedData(frames, from, numSamples, numPackets);
    RecordedDividesByRequested(frames, from, numSamples, numPackets);
    OverDivisionLowers(RecordedAverage(frames, from, numSamples, numPackets).value,
                       SumTrunc(data) as real, |data| as real, numSamples as real);
  }

  // ---------------------------------------------------------------------
  // calibrate
  // ---------------------------------------------------------------------

  /** `calibrate` records 100 samples with the default packet count of 5. */
  const CALIBRATION_SAMPLES: int := 100
  const DEFAULT_PACKETS: int := 5

  /** Two `record_stream` runs, inhale then exhale; the pauses and log lines
      between them are not modelled. An exception in the first run ends the
      calibration before the second starts. */
  method Calibrate(sensor: Sensor) returns (baseline: Result<(real, real)>)
    modifies sensor
    ensures var frames, from := DecodedStream(sensor.incoming), old(sensor.cursor);
      var inhale := RecordedAverage(frames, from, CALIBRATION_SAMPLES, DEFAULT_PACKETS);
      var mid := from + RecordedLines(frames, from, CALIBRATION_SAMPLES, DEFAULT_PACKETS);
      var exhale := RecordedAverage(frames, mid, CALIBRATION_SAMPLES, DEFAULT_PACKETS);
      if inhale.Failure? then
        && baseline == Failure(inhale.error)
        && sensor.sent == old(sensor.sent) + RecordedCommands(frames, from, CALIBRATION_SAMPLES, DEFAULT_PACKETS)
        && sensor.cursor == mid
      else
        && baseline == (if exhale.Failure? then Failure(exhale.error) else Success((inhale.value, exhale.value)))
        && sensor.sent == old(sensor.sent) + RecordedCommands(frames, from, CALIBRATION_SAMPLES, DEFAULT_PACKETS)
                          + RecordedCommands(frames, mid, CALIBRATION_SAMPLES, DEFAULT_PACKETS)
        && sensor.cursor == mid + RecordedLines(frames, mid, CALIBRATION_SAMPLES, DEFAULT_PACKETS)
  {
    var inhale := RecordStream(sensor, CALIBRATION_SAMPLES, DEFAULT_PACKETS);
    if inhale.Failure? {
      return Failure(inhale.error);
    }
    var exhale := RecordStream(sensor, CALIBRATION_SAMPLES, DEFAULT_PACKETS);
    if exhale.Failure? {
      return Failure(exhale.error);
    }
    baseline := Success((inhale.value, exhale.value));
  }

  /** A successful calibration phase takes 20 stream reads: it writes packet
      size 5, stream off, stream on, stream off and reads 24 lines. */
  lemma CalibrationScript(frames: nat -> Result<Frame>, from: nat)
    requires RecordedAverage(frames, from, CALIBRATION_SAMPLES, DEFAULT_PACKETS).Success?
    ensures RecordedLines(frames, from, CALIBRATION_SAMPLES, DEFAULT_PACKETS) == 24
    ensures RecordedCommands(frames, from, CALIBRATION_SAMPLES, DEFAULT_PACKETS)
      == [Commands.SetPacketSize(5), Commands.SetStream(false), Commands.SetStream(true), Commands.SetStream(false)]
  {
    assert ReadCount(CALIBRATION_SAMPLES, DEFAULT_PACKETS) == 20;
    RecordedScript(frames, from, CALIBRATION_SAMPLES, DEFAULT_PACKETS);
  }

  // ---------------------------------------------------------------------
  // data_puller
  // ---------------------------------------------------------------------

  /** `for value in ch1: data_q.put(value)`, each put preceded by the
      eviction loop. */
  method PushValues(queue: DataQueue, values: seq<real>)
    modifies queue
    ensures queue.items == PushAll(old(queue.items), values)
  {
    for j := 0 to |values|
      invariant queue.items == PushAll(old(queue.items), values[..j])
    {
      queue.Push(values[j]);
      assert values[..j + 1][..j] == values[..j];
    }
    assert values[..|values|] == values;
  }

  /** One pass of the producer loop's body: a `read_stream`, then, when the
      line decodes, its channel-1 values pushed into the queue. */
  method PullFrame(sensor: Sensor, queue: DataQueue) returns (frame: Result<Frame>)
    modifies sensor, queue
    ensures sensor.cursor == old(sensor.cursor) + 1 && sensor.sent == old(sensor.sent)
    ensures frame == DecodedStream(sensor.incoming)(old(sensor.cursor))
    ensures queue.items == if frame.Failure? then old(queue.items) else PushAll(old(queue.items), frame.value.ch1)
  {
    frame := sensor.ReadStream();
    if frame.Success? {
      PushValues(queue, frame.value.ch1);
    }
  }

  /** The `while` loop of `data_puller`: `rounds` passes, each reading one
      frame and pushing its channel-1 values; a line that does not decode
      ends the loop with its exception. */
  method PullRounds(sensor: Sensor, queue: DataQueue, rounds: nat) returns (failure: Option<Error>)
    modifies sensor, queue
    ensures sensor.cursor >= old(sensor.cursor) && sensor.sent == old(sensor.sent)
    ensures var c := Collect(DecodedStream(sensor.incoming), old(sensor.cursor), rounds);
      && c == Collected(c.values, sensor.cursor - old(sensor.cursor), failure)
      && queue.items == PushAll(old(queue.items), c.values)
  {
    failure := None;
    ghost var start := sensor.cursor;
    ghost var pushed: seq<real> := [];
    var round := 0;
    while round < rounds && failure.None?
      invariant round <= rounds && sensor.cursor == start + round && sensor.sent == old(sensor.sent)
      invariant Collect(DecodedStream(sensor.incoming), start, round) == Collected(pushed, round, failure)
      invariant queue.items == PushAll(old(queue.items), pushed)
    {
      var frame := PullFrame(sensor, queue);
      CollectNext(DecodedStream(sensor.incoming), start, round);
      if frame.Failure? {
        failure := Some(frame.error);
      } else {
        PushAllAppend(old(queue.items), pushed, frame.value.ch1);
        pushed := pushed + frame.value.ch1;
      }
      round := round + 1;
    }
    if failure.Some? {
      CollectKeepsFailure(DecodedStream(sensor.incoming), start, round, rounds);
    }
  }

  /** The producer: stream on, then one `read_stream` per check of the stop
      channel that finds it empty, each channel-1 value pushed into the queue
      in arrival order; stream off once the stop message is seen. `rounds` is
      how many checks find the channel empty. A line that does not decode
      ends the loop with an exception and streaming is left on. */
  method DataPuller(sensor: Sensor, queue: DataQueue, rounds: nat) returns (outcome: Result<()>)
    modifies sensor, queue
    ensures var c := Collect(DecodedStream(sensor.incoming), old(sensor.cursor) + 1, rounds);
      && queue.items == PushAll(old(queue.items), c.values)
      && sensor.sent == old(sensor.sent) + [Commands.SetStream(true)]
                        + (if c.failure.None? then [Commands.SetStream(false)] else [])
      && sensor.cursor == old(sensor.cursor) + 1 + c.linesRead + (if c.failure.None? then 1 else 0)
      && outcome == (if c.failure.None? then Success(()) else Failure(c.failure.value))
  {
    sensor.SetStream(true);
    var failure := PullRounds(sensor, queue, rounds);
    if failure.Some? {
      return Failure(failure.value);
    }
    sensor.SetStream(false);
    outcome := Success(());
  }
}
