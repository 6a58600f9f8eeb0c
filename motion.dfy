/** The robot's motion primitives (api.py, `LocalRobot`): each sets the four
    motor duties, waits, and sets them back to zero. Motor commands and waits
    are recorded as a trace; which step raises an exception, if any, is an
    input. */
module Motion {
  import opened Options

  /** The four duties passed to `setMotorModel`: the two left wheels, then
      the two right wheels. */
  datatype Speeds = Speeds(d1: int, d2: int, d3: int, d4: int)

  const Stop := Speeds(0, 0, 0, 0)

  function Negate(s: Speeds): Speeds
  {
    Speeds(-s.d1, -s.d2, -s.d3, -s.d4)
  }

  datatype Primitive = Forward | Reverse | RotateRight | RotateLeft

  /** The drive command each primitive issues before waiting. */
  function DriveSpeeds(p: Primitive): (s: Speeds)
    ensures s != Stop
    ensures s.d1 == s.d2 && s.d3 == s.d4
    ensures (s.d1 == 2000 || s.d1 == -2000) && (s.d3 == 2000 || s.d3 == -2000)
  {
    match p
    case Forward => Speeds(2000, 2000, 2000, 2000)
    case Reverse => Speeds(-2000, -2000, -2000, -2000)
    case RotateRight => Speeds(2000, 2000, -2000, -2000)
    case RotateLeft => Speeds(-2000, -2000, 2000, 2000)
  }

  /** Reversing mirrors driving forward, and rotating left mirrors rotating
      right; no primitive's drive command is the stop command. */
  lemma OppositePrimitives(p: Primitive)
    ensures DriveSpeeds(Reverse) == Negate(DriveSpeeds(Forward))
    ensures DriveSpeeds(RotateLeft) == Negate(DriveSpeeds(RotateRight))
    ensures DriveSpeeds(p) != Stop && Negate(Negate(DriveSpeeds(p))) == DriveSpeeds(p)
  {
  }

  /** What the motor and the clock see: a command the motor accepted, or a
      completed wait of the given duration (a duration of zero or less
      returns at once). */
  datatype Event = Drive(speeds: Speeds) | Wait(duration: real)

  /** Which step of a primitive raises an exception, if any. The first three
      faults are `Exception`s, which the primitives catch and log.
      `SleepCancelled` is a cancellation or keyboard interrupt delivered into
      the wait; it is not an `Exception`, so nothing catches it. */
  datatype Fault = NoFault | DriveRaises | SleepRaises | StopRaises | SleepCancelled

  /** Where an error was logged. */
  datatype ErrorSite = ForwardError | ReverseError | RightRotationError | LeftRotationError | FinishError

  function SiteOf(p: Primitive): ErrorSite
  {
    match p
    case Forward => ForwardError
    case Reverse => ReverseError
    case RotateRight => RightRotationError
    case RotateLeft => LeftRotationError
  }

  /** The trace of `finish(dur)`: wait, then stop; an exception in either
      step ends it early, and a cancelled wait ends it before the stop. */
  function FinishTrace(dur: real, fault: Fault): (t: seq<Event>)
    ensures |t| <= 2
    ensures forall i :: 0 <= i < |t| ==> t[i] == Wait(dur) || t[i] == Drive(Stop)
    ensures Drive(Stop) in t <==> fault == NoFault || fault == DriveRaises
  {
    match fault
    case SleepRaises => []
    case SleepCancelled => []
    case StopRaises => [Wait(dur)]
    case _ => [Wait(dur), Drive(Stop)]
  }

  /** The trace of one primitive: its drive command, then `finish`; if the
      drive command raises, nothing else happens. */
  function PrimitiveTrace(p: Primitive, dur: real, fault: Fault): (t: seq<Event>)
    ensures t == [] <==> fault == DriveRaises
    ensures t != [] ==> t[0] == Drive(DriveSpeeds(p))
    ensures (t != [] && t[|t| - 1] == Drive(Stop)) <==> fault == NoFault
  {
    if fault == DriveRaises then [] else [Drive(DriveSpeeds(p))] + FinishTrace(dur, fault)
  }

  /** The errors one primitive logs: its own on a failed drive command,
      `finish`'s on a failed wait or stop, and none when the wait is
      cancelled, since that exception escapes every handler. */
  function PrimitiveErrors(p: Primitive, fault: Fault): (e: seq<ErrorSite>)
    ensures |e| <= 1
    ensures e == [] <==> fault == NoFault || fault == SleepCancelled
    ensures e != [] ==> e[0] == (if fault == DriveRaises then SiteOf(p) else FinishError)
  {
    match fault
    case NoFault => []
    case SleepCancelled => []
    case DriveRaises => [SiteOf(p)]
    case _ => [FinishError]
  }

  /** The motor commands in a trace, in order. */
  function Drives(t: seq<Event>): seq<Speeds>
  {
    if t == [] then []
    else (if t[0].Drive? then [t[0].speeds] else []) + Drives(t[1..])
  }

  lemma {:induction false} DrivesAppend(a: seq<Event>, b: seq<Event>)
    ensures Drives(a + b) == Drives(a) + Drives(b)
    decreases |a|
  {
    if a == [] {
      assert a + b == b;
    } else {
      var head := if a[0].Drive? then [a[0].speeds] else [];
      assert (a + b)[0] == a[0];
      assert (a + b)[1..] == a[1..] + b;
      calc {
        Drives(a + b);
        head + Drives(a[1..] + b);
        { DrivesAppend(a[1..], b); }
        head + (Drives(a[1..]) + Drives(b));
        (head + Drives(a[1..])) + Drives(b);
        Drives(a) + Drives(b);
      }
    }
  }

  /** The duties the motors are left at after a trace, starting from `init`:
      the last command issued, or `init` if there was none. */
  function MotorState(t: seq<Event>, init: Speeds): (m: Speeds)
    ensures m == init || Drive(m) in t
  {
    if t == [] then init
    else if t[|t| - 1].Drive? then t[|t| - 1].speeds
    else MotorState(t[..|t| - 1], init)
  }

  lemma {:induction false} MotorStateAppend(t1: seq<Event>, t2: seq<Event>, init: Speeds)
    ensures MotorState(t1 + t2, init) == MotorState(t2, MotorState(t1, init))
    decreases |t2|
  {
    if t2 == [] {
      assert t1 + t2 == t1;
    } else {
      var t := t1 + t2;
      assert t[|t| - 1] == t2[|t2| - 1];
      if !t2[|t2| - 1].Drive? {
        assert t[..|t| - 1] == t1 + t2[..|t2| - 1];
        MotorStateAppend(t1, t2[..|t2| - 1], init);
      }
    }
  }

  /** A primitive that completes issues exactly one drive command and then
      exactly one stop, waiting for the given duration in between. */
  lemma PrimitiveDrivesThenStops(p: Primitive, dur: real)
    ensures Drives(PrimitiveTrace(p, dur, NoFault)) == [DriveSpeeds(p), Stop]
    ensures Wait(dur) in PrimitiveTrace(p, dur, NoFault)
  {
    var t := PrimitiveTrace(p, dur, NoFault);
    assert t == [Drive(DriveSpeeds(p))] + [Wait(dur)] + [Drive(Stop)];
    DrivesAppend([Drive(DriveSpeeds(p))], [Wait(dur)]);
    DrivesAppend([Drive(DriveSpeeds(p))] + [Wait(dur)], [Drive(Stop)]);
    assert Drives([Drive(Stop)]) == [Stop] by {
      assert [Drive(Stop)][1..] == [];
    }
    assert Drives([Wait(dur)]) == [] by {
      assert [Wait(dur)][1..] == [];
    }
    assert Drives([Drive(DriveSpeeds(p))]) == [DriveSpeeds(p)] by {
      assert [Drive(DriveSpeeds(p))][1..] == [];
    }
  }

  /** Whatever the motors were doing, a completed primitive leaves them
      stopped; a failed drive command leaves them as they were; a failure in
      the wait or the stop, and a cancelled wait, skip the stop, so the
      motors keep running at the primitive's drive duties. */
  lemma PrimitiveMotorState(t: seq<Event>, p: Primitive, dur: real, fault: Fault, init: Speeds)
    ensures var after := MotorState(t + PrimitiveTrace(p, dur, fault), init);
            match fault
            case NoFault => after == Stop
            case DriveRaises => after == MotorState(t, init)
            case _ => after == DriveSpeeds(p)
  {
    MotorStateAppend(t, PrimitiveTrace(p, dur, fault), init);
    var pt := PrimitiveTrace(p, dur, fault);
    if fault == StopRaises {
      assert pt[..|pt| - 1] == [Drive(DriveSpeeds(p))];
    }
  }

  /** A cancelled wait leaves the motors at the drive duties with no stop
      issued and nothing logged, whatever ran before. */
  lemma CancelledWaitLeavesMotorsRunning(t: seq<Event>, p: Primitive, dur: real, init: Speeds)
    ensures Drives(PrimitiveTrace(p, dur, SleepCancelled)) == [DriveSpeeds(p)]
    ensures MotorState(t + PrimitiveTrace(p, dur, SleepCancelled), init) == DriveSpeeds(p) != Stop
    ensures PrimitiveErrors(p, SleepCancelled) == []
  {
    var pt := PrimitiveTrace(p, dur, SleepCancelled);
    assert pt == [Drive(DriveSpeeds(p))];
    assert pt[1..] == [];
    MotorStateAppend(t, pt, init);
  }

  /** A primitive call selected by a dispatcher: which primitive, for how
      long. */
  datatype Call = Call(primitive: Primitive, duration: real)

  /** About one second per metre. */
  function MoveCall(dist: real): (c: Call)
    ensures c.primitive == Forward || c.primitive == Reverse
    ensures c.duration >= 0.0
  {
    if dist < 0.0 then Call(Reverse, -dist) else Call(Forward, dist)
  }

  /** About 1.4 seconds per 180 degrees. */
  const SecondsPerHalfTurn: real := 1.4

  /** Negative degrees are counter-clockwise, the rest clockwise. */
  function RotateCall(degrees: real): (c: Call)
    ensures c.primitive == RotateRight || c.primitive == RotateLeft
    ensures c.duration >= 0.0
  {
    var rotDur := degrees * (SecondsPerHalfTurn / 180.0);
    if degrees < 0.0 then Call(RotateLeft, -rotDur) else Call(RotateRight, rotDur)
  }

  function Abs(x: real): real
  {
    if x < 0.0 then -x else x
  }

  /** A move goes backwards exactly when the distance is negative, for a
      duration equal to the distance's size; moving `-d` mirrors moving `d`. */
  lemma MoveCallSign(dist: real)
    ensures MoveCall(dist).primitive == Reverse <==> dist < 0.0
    ensures MoveCall(dist).primitive == Forward <==> dist >= 0.0
    ensures MoveCall(dist).duration == Abs(dist) >= 0.0
    ensures dist > 0.0 ==> DriveSpeeds(MoveCall(-dist).primitive) == Negate(DriveSpeeds(MoveCall(dist).primitive))
  {
  }

  /** A rotation is counter-clockwise exactly when the angle is negative,
      lasts 1.4 s per 180 degrees of its size, and mirrors the rotation by
      the opposite angle. */
  lemma RotateCallSign(degrees: real)
    ensures RotateCall(degrees).primitive == RotateLeft <==> degrees < 0.0
    ensures RotateCall(degrees).primitive == RotateRight <==> degrees >= 0.0
    ensures RotateCall(degrees).duration == Abs(degrees) * 1.4 / 180.0 >= 0.0
    ensures degrees > 0.0 ==>
              RotateCall(-degrees).duration == RotateCall(degrees).duration &&
              DriveSpeeds(RotateCall(-degrees).primitive) == Negate(DriveSpeeds(RotateCall(degrees).primitive))
  {
  }

  /** The call `move_dist` builds as written: a negative distance is passed
      on unchanged as the duration of `reverse`. */
  function MoveCallAsWritten(dist: real): (c: Call)
    ensures c.primitive == MoveCall(dist).primitive
    ensures dist >= 0.0 ==> c == MoveCall(dist)
    ensures dist < 0.0 ==> c.duration == -MoveCall(dist).duration < 0.0
  {
    if dist < 0.0 then Call(Reverse, dist) else Call(Forward, dist)
  }

  /** How long the motors actually run for a requested wait: a wait of zero
      or less returns at once. */
  function EffectiveWait(dur: real): (waited: real)
    ensures waited >= 0.0
    ensures dur > 0.0 ==> waited == dur
    ensures dur <= 0.0 ==> waited == 0.0
  {
    if dur <= 0.0 then 0.0 else dur
  }

  /** As written, every backwards move would drive for no time at all, while
      the corrected dispatch drives for the distance's size. */
  lemma MoveCallAsWrittenReversesForNoTime(dist: real)
    requires dist < 0.0
    ensures MoveCallAsWritten(dist).primitive == Reverse
    ensures EffectiveWait(MoveCallAsWritten(dist).duration) == 0.0
    ensures EffectiveWait(MoveCall(dist).duration) == -dist > 0.0
  {
  }

  /** The exception `rotate_deg` raises as written. */
  datatype RaisedError = NameError(name: string)

  /** As written, `rotate_deg` reads the unbound name `deg` before choosing
      a direction, so it raises whatever the angle. */
  function RotateCallAsWritten(degrees: real): (r: Result<Call, RaisedError>)
    ensures r.Failure? && r.error == NameError("deg")
  {
    Failure(NameError("deg"))
  }

  lemma RotateCallAsWrittenAlwaysRaises(degrees: real)
    ensures RotateCallAsWritten(degrees).Failure?
    ensures RotateCallAsWritten(degrees) != Success(RotateCall(degrees))
  {
  }

  /** The robot's motor and error log. */
  class LocalRobot {
    /** Every command the motor accepted and every completed wait, in order. */
    var trace: seq<Event>
    /** Every `logger.error` call, in order. */
    var errors: seq<ErrorSite>

    /** The duties the motors are currently running at. */
    function Motor(): (m: Speeds)
      reads this
      ensures m == Stop || Drive(m) in trace
    {
      MotorState(trace, Stop)
    }

    constructor ()
      ensures trace == [] && errors == [] && Motor() == Stop
    {
      trace := [];
      errors := [];
    }

    /** `Motor.setMotorModel`: the command is recorded unless it raises. */
    method SetMotorModel(speeds: Speeds, raises: bool) returns (ok: bool)
      modifies this
      ensures ok == !raises
      ensures trace == old(trace) + if raises then [] else [Drive(speeds)]
      ensures errors == old(errors)
    {
      ok := !raises;
      if ok {
        trace := trace + [Drive(speeds)];
      }
    }

    /** `finish(dur)`: wait, then stop; an `Exception` is caught and logged,
        a cancelled wait escapes. */
    method Finish(dur: real, fault: Fault) returns (escaped: bool)
      modifies this
      ensures escaped <==> fault == SleepCancelled
      ensures trace == old(trace) + FinishTrace(dur, fault)
      ensures errors == old(errors) + if fault == SleepRaises || fault == StopRaises then [FinishError] else []
    {
      escaped := fault == SleepCancelled;
      if escaped {
        return;
      }
      if fault == SleepRaises {
        errors := errors + [FinishError];
        return;
      }
      trace := trace + [Wait(dur)];
      var ok := SetMotorModel(Stop, fault == StopRaises);
      if !ok {
        errors := errors + [FinishError];
      }
    }

    /** The shared body of the four primitives: drive, then `finish`; an
        exception from the drive command is caught and logged under the
        primitive's own name, and the stop is then never issued. A cancelled
        wait passes through the primitive's handler to the caller. */
    method Run(p: Primitive, duration: real, fault: Fault) returns (escaped: bool)
      modifies this
      ensures escaped <==> fault == SleepCancelled
      ensures trace == old(trace) + PrimitiveTrace(p, duration, fault)
      ensures errors == old(errors) + PrimitiveErrors(p, fault)
    {
      var ok := SetMotorModel(DriveSpeeds(p), fault == DriveRaises);
      if !ok {
        errors := errors + [SiteOf(p)];
        return false;
      }
      escaped := Finish(duration, fault);
    }

    method Forward(duration: real := 1.0, fault: Fault := NoFault) returns (escaped: bool)
      modifies this
      ensures escaped <==> fault == SleepCancelled
      ensures trace == old(trace) + PrimitiveTrace(Primitive.Forward, duration, fault)
      ensures errors == old(errors) + PrimitiveErrors(Primitive.Forward, fault)
      ensures fault == NoFault ==> Motor() == Stop
      ensures fault == DriveRaises ==> Motor() == old(Motor())
      ensures fault != NoFault && fault != DriveRaises ==> Motor() == DriveSpeeds(Primitive.Forward)
    {
      escaped := Run(Primitive.Forward, duration, fault);
      PrimitiveMotorState(old(trace), Primitive.Forward, duration, fault, Stop);
    }

    method Reverse(duration: real := 1.0, fault: Fault := NoFault) returns (escaped: bool)
      modifies this
      ensures escaped <==> fault == SleepCancelled
      ensures trace == old(trace) + PrimitiveTrace(Primitive.Reverse, duration, fault)
      ensures errors == old(errors) + PrimitiveErrors(Primitive.Reverse, fault)
      ensures fault == NoFault ==> Motor() == Stop
      ensures fault == DriveRaises ==> Motor() == old(Motor())
      ensures fault != NoFault && fault != DriveRaises ==> Motor() == DriveSpeeds(Primitive.Reverse)
    {
      escaped := Run(Primitive.Reverse, duration, fault);
      PrimitiveMotorState(old(trace), Primitive.Reverse, duration, fault, Stop);
    }

    method RotateRight(duration: real := 0.4, fault: Fault := NoFault) returns (escaped: bool)
      modifies this
      ensures escaped <==> fault == SleepCancelled
      ensures trace == old(trace) + PrimitiveTrace(Primitive.RotateRight, duration, fault)
      ensures errors == old(errors) + PrimitiveErrors(Primitive.RotateRight, fault)
      ensures fault == NoFault ==> Motor() == Stop
      ensures fault == DriveRaises ==> Motor() == old(Motor())
      ensures fault != NoFault && fault != DriveRaises ==> Motor() == DriveSpeeds(Primitive.RotateRight)
    {
      escaped := Run(Primitive.RotateRight, duration, fault);
      PrimitiveMotorState(old(trace), Primitive.RotateRight, duration, fault, Stop);
    }

    method RotateLeft(duration: real := 0.4, fault: Fault := NoFault) returns (escaped: bool)
      modifies this
      ensures escaped <==> fault == SleepCancelled
      ensures trace == old(trace) + PrimitiveTrace(Primitive.RotateLeft, duration, fault)
      ensures errors == old(errors) + PrimitiveErrors(Primitive.RotateLeft, fault)
      ensures fault == NoFault ==> Motor() == Stop
      ensures fault == DriveRaises ==> Motor() == old(Motor())
      ensures fault != NoFault && fault != DriveRaises ==> Motor() == DriveSpeeds(Primitive.RotateLeft)
    {
      escaped := Run(Primitive.RotateLeft, duration, fault);
      PrimitiveMotorState(old(trace), Primitive.RotateLeft, duration, fault, Stop);
    }

    /** `move_dist` as intended: dispatch by sign and await the primitive. */
    method MoveDist(dist: real, fault: Fault := NoFault) returns (escaped: bool)
      modifies this
      ensures escaped <==> fault == SleepCancelled
      ensures var c := MoveCall(dist);
              trace == old(trace) + PrimitiveTrace(c.primitive, c.duration, fault) &&
              errors == old(errors) + PrimitiveErrors(c.primitive, fault)
    {
      if dist < 0.0 {
        escaped := Reverse(duration := -dist, fault := fault);
      } else {
        escaped := Forward(duration := dist, fault := fault);
      }
    }

    /** `move_dist` as written: the primitive's coroutine is created but
        never awaited, so nothing reaches the motor. */
    method MoveDistAsWritten(dist: real) returns (discarded: Call)
      modifies this
      ensures discarded == MoveCallAsWritten(dist)
      ensures trace == old(trace) && errors == old(errors)
    {
      discarded := MoveCallAsWritten(dist);
    }

    /** `rotate_deg` as intended: dispatch by sign and await the primitive. */
    method RotateDeg(degrees: real, fault: Fault := NoFault) returns (escaped: bool)
      modifies this
      ensures escaped <==> fault == SleepCancelled
      ensures var c := RotateCall(degrees);
              trace == old(trace) + PrimitiveTrace(c.primitive, c.duration, fault) &&
              errors == old(errors) + PrimitiveErrors(c.primitive, fault)
    {
      var rotDur := degrees * (SecondsPerHalfTurn / 180.0);
      if degrees < 0.0 {
        escaped := RotateLeft(duration := -rotDur, fault := fault);
      } else {
        escaped := RotateRight(duration := rotDur, fault := fault);
      }
    }

    /** `rotate_deg` as written: the test of `deg` raises before any
        primitive is chosen; the exception escapes to the caller. */
    method RotateDegAsWritten(degrees: real) returns (r: Result<Call, RaisedError>)
      modifies this
      ensures r == RotateCallAsWritten(degrees) && r.Failure?
      ensures trace == old(trace) && errors == old(errors)
    {
      r := Failure(NameError("deg"));
    }
  }

  /** As written, `move_dist` leaves the motors untouched for every distance,
      whereas the intended dispatch always issues a drive and a stop. */
  method MissingAwaitCounterexample(dist: real) returns (asWritten: seq<Event>, intended: seq<Event>)
    ensures asWritten == [] && intended != []
    ensures Drives(intended) == [DriveSpeeds(MoveCall(dist).primitive), Stop]
  {
    var robot := new LocalRobot();
    var _ := robot.MoveDistAsWritten(dist);
    asWritten := robot.trace;
    var _ := robot.MoveDist(dist);
    intended := robot.trace;
    assert intended == PrimitiveTrace(MoveCall(dist).primitive, MoveCall(dist).duration, NoFault);
    PrimitiveDrivesThenStops(MoveCall(dist).primitive, MoveCall(dist).duration);
  }
}
