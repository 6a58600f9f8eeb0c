/** The camera's single-slot, latest-wins frame buffer
    (api.py, `StreamingOutput`). Locking and the wake-up of waiting readers
    are not modelled; the clock is an input. */
module Streaming {
  import opened Options

  newtype byte = x: int | 0 <= x < 256

  /** The observable state of the buffer: the latest frame (absent before the
      first write), the time of the latest write (0 before the first one),
      the number of writes and the gaps reported as long frame intervals,
      in order. */
  datatype OutputState = OutputState(
    frame: Option<seq<byte>>,
    lastWriteTime: real,
    writeCount: nat,
    warnings: seq<real>)

  const Initial := OutputState(None, 0.0, 0, [])

  /** A gap is reported only when an earlier write time exists (it is
      nonzero) and the new write comes more than one second after it. */
  predicate LongInterval(lastWriteTime: real, now: real): (long: bool)
    ensures lastWriteTime == 0.0 ==> !long
    ensures long ==> now > lastWriteTime + 1.0
    ensures now <= lastWriteTime ==> !long
  {
    lastWriteTime != 0.0 && now - lastWriteTime > 1.0
  }

  /** The effect of one `write(buf)` at time `now`. */
  function AfterWrite(s: OutputState, buf: seq<byte>, now: real): (t: OutputState)
    ensures t.frame == Some(buf) && t.lastWriteTime == now && t.writeCount == s.writeCount + 1
    ensures |s.warnings| <= |t.warnings| <= |s.warnings| + 1
    ensures t.warnings[..|s.warnings|] == s.warnings
    ensures |t.warnings| == |s.warnings| + 1 <==> LongInterval(s.lastWriteTime, now)
    ensures |t.warnings| > |s.warnings| ==> t.warnings[|s.warnings|] == now - s.lastWriteTime > 1.0
  {
    OutputState(
      Some(buf),
      now,
      s.writeCount + 1,
      s.warnings + if LongInterval(s.lastWriteTime, now) then [now - s.lastWriteTime] else [])
  }

  /** One write request: a buffer and the clock reading when it arrives. */
  datatype WriteCall = WriteCall(buf: seq<byte>, now: real)

  /** The state after a run of writes, one call after another. */
  function AfterWrites(s: OutputState, calls: seq<WriteCall>): (t: OutputState)
    ensures t.writeCount == s.writeCount + |calls|
    ensures |s.warnings| <= |t.warnings| <= |s.warnings| + |calls|
    decreases |calls|
  {
    if calls == [] then s
    else AfterWrites(AfterWrite(s, calls[0].buf, calls[0].now), calls[1..])
  }

  /** The states the buffer can reach: the first write never warns, every
      reported gap exceeds one second, and each write reports at most one. */
  ghost predicate Reachable(s: OutputState)
    ensures Reachable(s) ==> |s.warnings| <= s.writeCount && (s.writeCount == 0 ==> s.warnings == [])
  {
    (s.writeCount == 0 ==> s == Initial) &&
    (s.writeCount > 0 ==> s.frame.Some? && |s.warnings| < s.writeCount) &&
    forall i :: 0 <= i < |s.warnings| ==> s.warnings[i] > 1.0
  }

  lemma WriteKeepsReachable(s: OutputState, buf: seq<byte>, now: real)
    requires Reachable(s)
    ensures Reachable(AfterWrite(s, buf, now))
  {
  }

  /** After any non-empty run of writes only the last buffer is held (no
      backlog), the counter has grown by the number of writes, the clock
      reading is the last one, and at most one gap per write was reported,
      each over one second. */
  lemma {:induction false} LatestWins(s: OutputState, calls: seq<WriteCall>)
    requires Reachable(s)
    requires calls != []
    ensures var t := AfterWrites(s, calls);
            t.frame == Some(calls[|calls| - 1].buf) &&
            t.lastWriteTime == calls[|calls| - 1].now &&
            t.writeCount == s.writeCount + |calls| &&
            |s.warnings| <= |t.warnings| <= |s.warnings| + |calls| &&
            t.warnings[..|s.warnings|] == s.warnings &&
            Reachable(t)
    decreases |calls|
  {
    var s' := AfterWrite(s, calls[0].buf, calls[0].now);
    WriteKeepsReachable(s, calls[0].buf, calls[0].now);
    if |calls| > 1 {
      LatestWins(s', calls[1..]);
      var t := AfterWrites(s', calls[1..]);
      assert t.warnings[..|s.warnings|] == t.warnings[..|s'.warnings|][..|s.warnings|];
    }
  }

  class StreamingOutput {
    var frame: Option<seq<byte>>
    var lastWriteTime: real
    var writeCount: nat
    /** The gaps passed to `logger.warning`, in order. */
    var warnings: seq<real>

    function State(): OutputState
      reads this
    {
      OutputState(frame, lastWriteTime, writeCount, warnings)
    }

    /** The buffer's invariant, maintained by every write; it is what lets
        `Write` promise that the first write never warns. */
    ghost predicate Valid()
      reads this
      ensures Valid() && writeCount == 0 ==> frame == None && warnings == []
    {
      Reachable(State())
    }

    constructor ()
      ensures Valid() && State() == Initial
    {
      frame := None;
      lastWriteTime := 0.0;
      writeCount := 0;
      warnings := [];
    }

    /** Replace the held frame by `buf` at time `now`. Nothing in the
        sequential update can fail, so the method always completes. */
    method Write(buf: seq<byte>, now: real)
      requires Valid()
      modifies this
      ensures Valid()
      ensures State() == AfterWrite(old(State()), buf, now)
      ensures frame == Some(buf)
      ensures writeCount == old(writeCount) + 1
      ensures lastWriteTime == now
      ensures warnings == old(warnings) + if LongInterval(old(lastWriteTime), now) then [now - old(lastWriteTime)] else []
      ensures old(writeCount) == 0 ==> warnings == []
    {
      WriteKeepsReachable(State(), buf, now);
      writeCount := writeCount + 1;
      var currentTime := now;
      if lastWriteTime != 0.0 {
        var timeDiff := currentTime - lastWriteTime;
        if timeDiff > 1.0 {
          warnings := warnings + [timeDiff];
        }
      }
      lastWriteTime := currentTime;
      frame := Some(buf);
    }
  }
}
