/** Two wheels, front-left and front-right, on one board. Each maneuver sets
    both wheels, holds for a caller-given duration and stops both. The pure
    part gives the pin table at the hold and after the maneuver; the class
    Car performs the maneuvers on the board. */
module Cars {
  import opened Gpio
  import W = Wheels

  datatype Maneuver = Forward | Reverse | TurnRight | TurnLeft

  /** The commands a maneuver gives the (front-left, front-right) wheels for
      its hold. */
  function Directions(mv: Maneuver): (W.Command, W.Command) {
    match mv
    case Forward => (W.Forward, W.Forward)
    case Reverse => (W.Reverse, W.Reverse)
    case TurnRight => (W.Forward, W.Reverse)
    case TurnLeft => (W.Reverse, W.Forward)
  }

  /** The pin table during a maneuver's hold, the two wheel commands issued in
      the car's order (turn_right commands the front-right wheel first). Only
      the six wheel pins are written. */
  function HoldLevels(m: Levels, fl: W.WheelPins, fr: W.WheelPins, mv: Maneuver): (r: Levels)
    requires fl.In(m) && fr.In(m)
    ensures r.Keys == m.Keys
    ensures forall p :: p in m && p !in fl.Set() + fr.Set() ==> r[p] == m[p]
  {
    match mv
    case Forward => W.Apply(W.Apply(m, fl, W.Forward), fr, W.Forward)
    case Reverse => W.Apply(W.Apply(m, fl, W.Reverse), fr, W.Reverse)
    case TurnRight => W.Apply(W.Apply(m, fr, W.Reverse), fl, W.Forward)
    case TurnLeft => W.Apply(W.Apply(m, fl, W.Reverse), fr, W.Forward)
  }

  /** The pin table when a maneuver returns: both wheels stopped (in the
      car's order), whatever they were doing before, and every pin but the
      six wheel pins as it was before the maneuver. */
  function Finish(m: Levels, fl: W.WheelPins, fr: W.WheelPins, mv: Maneuver): (r: Levels)
    requires fl.In(m) && fr.In(m)
    ensures r.Keys == m.Keys
    ensures fl.In(r) && W.Read(r, fl) == W.Idle
    ensures fr.In(r) && W.Read(r, fr) == W.Idle
    ensures forall p :: p in m && p !in fl.Set() + fr.Set() ==> r[p] == m[p]
  {
    var h := HoldLevels(m, fl, fr, mv);
    if mv == TurnRight then
      var s := W.Apply(h, fr, W.Stop);
      W.Apply(s, fl, W.Stop)
    else
      var s := W.Apply(h, fl, W.Stop);
      W.Apply(s, fr, W.Stop)
  }

  /** Two wheels on six different pins. */
  predicate Separate(fl: W.WheelPins, fr: W.WheelPins) {
    fl.Distinct() && fr.Distinct() && fl.Set() !! fr.Set()
  }

  /** During a hold, each wheel drives exactly the signals its command gives
      an idle wheel. */
  predicate DrivesExactly(h: Levels, fl: W.WheelPins, fr: W.WheelPins, mv: Maneuver) {
    fl.In(h) && fr.In(h) &&
    W.Read(h, fl) == W.Driving(Directions(mv).0) &&
    W.Read(h, fr) == W.Driving(Directions(mv).1)
  }

  /** When both wheels start stopped, the hold drives each wheel exactly as
      the maneuver names: forward both forward, reverse both in reverse,
      turn_right front-left forward and front-right reverse, turn_left the
      other way round. */
  lemma ManeuverHold(m: Levels, fl: W.WheelPins, fr: W.WheelPins, mv: Maneuver)
    requires Separate(fl, fr) && fl.In(m) && fr.In(m)
    requires W.Read(m, fl) == W.Idle && W.Read(m, fr) == W.Idle
    ensures DrivesExactly(HoldLevels(m, fl, fr, mv), fl, fr, mv)
  {
  }

  /** A wheel that has not been stopped carries its state into the next
      maneuver: a front-right wheel left in reverse is driven with A and B
      both high during a forward maneuver's hold. */
  lemma StaleReverseOverlaps(m: Levels, fl: W.WheelPins, fr: W.WheelPins)
    requires Separate(fl, fr) && fl.In(m) && fr.In(m)
    requires W.Read(m, fr) == W.Driving(W.Reverse)
    ensures fr.In(HoldLevels(m, fl, fr, Forward))
    ensures W.Read(HoldLevels(m, fl, fr, Forward), fr) == W.Signals(true, true, true)
  {
  }

  /** Nothing stops a car from being given the same wheel as front-left and
      front-right. Such a car reverses and drives forward that one wheel with
      no stop in between in every turn, so each turn's hold leaves its
      enable, A and B all high, whatever the table before. */
  lemma SameWheelTurnOverlaps(m: Levels, w: W.WheelPins, mv: Maneuver)
    requires w.In(m)
    requires mv == TurnRight || mv == TurnLeft
    ensures w.In(HoldLevels(m, w, w, mv))
    ensures W.Read(HoldLevels(m, w, w, mv), w) == W.Signals(true, true, true)
  {
  }

  /** The pin table after a series of maneuvers. */
  function Perform(m: Levels, fl: W.WheelPins, fr: W.WheelPins, mvs: seq<Maneuver>): (r: Levels)
    requires fl.In(m) && fr.In(m)
    ensures r.Keys == m.Keys
    ensures forall p :: p in m && p !in fl.Set() + fr.Set() ==> r[p] == m[p]
    decreases |mvs|
  {
    if mvs == [] then m
    else Finish(Perform(m, fl, fr, mvs[..|mvs| - 1]), fl, fr, mvs[|mvs| - 1])
  }

  /** Because every maneuver ends by stopping both wheels, every maneuver
      after the first holds exactly its own directions, whatever state the
      wheels were in before the first: the overlap of the two direction pins
      can only be inherited from before the car was used. */
  lemma LaterHoldsExact(m: Levels, fl: W.WheelPins, fr: W.WheelPins, mvs: seq<Maneuver>, i: nat)
    requires Separate(fl, fr) && fl.In(m) && fr.In(m)
    requires 0 < i < |mvs|
    ensures DrivesExactly(HoldLevels(Perform(m, fl, fr, mvs[..i]), fl, fr, mvs[i]), fl, fr, mvs[i])
  {
    var before := Perform(m, fl, fr, mvs[..i - 1]);
    assert mvs[..i][..i - 1] == mvs[..i - 1];
    assert Perform(m, fl, fr, mvs[..i]) == Finish(before, fl, fr, mvs[i - 1]);
    ManeuverHold(Finish(before, fl, fr, mvs[i - 1]), fl, fr, mvs[i]);
  }

  /** A car owning two wheels; the wheels share the one board, as every
      Wheel drives the same global GPIO. */
  class Car {
    const fl: W.Wheel
    const fr: W.Wheel

    predicate Valid()
      reads fl.board, fr.board
    {
      fl.board == fr.board && fl.Valid() && fr.Valid()
    }

    constructor (frontleft: W.Wheel, frontright: W.Wheel)
      requires frontleft.board == frontright.board
      requires frontleft.Valid() && frontright.Valid()
      ensures fl == frontleft && fr == frontright
      ensures Valid()
    {
      fl := frontleft;
      fr := frontright;
    }

    /** Drives forward for `length` seconds. */
    method Forward(length: real)
      requires Valid()
      modifies fl.board
      ensures Valid()
      ensures fl.board.levels == Finish(old(fl.board.levels), fl.Pins(), fr.Pins(), Maneuver.Forward)
      ensures fl.board.holds == old(fl.board.holds) +
        [Snapshot(length, HoldLevels(old(fl.board.levels), fl.Pins(), fr.Pins(), Maneuver.Forward))]
    {
      ghost var before := fl.board.levels;
      fl.Forward();
      fr.Forward();
      assert fl.board.levels == HoldLevels(before, fl.Pins(), fr.Pins(), Maneuver.Forward);
      fl.board.Sleep(length);
      fl.Stop();
      fr.Stop();
    }

    /** Drives in reverse for `length` seconds. */
    method Reverse(length: real)
      requires Valid()
      modifies fl.board
      ensures Valid()
      ensures fl.board.levels == Finish(old(fl.board.levels), fl.Pins(), fr.Pins(), Maneuver.Reverse)
      ensures fl.board.holds == old(fl.board.holds) +
        [Snapshot(length, HoldLevels(old(fl.board.levels), fl.Pins(), fr.Pins(), Maneuver.Reverse))]
    {
      ghost var before := fl.board.levels;
      fl.Reverse();
      fr.Reverse();
      assert fl.board.levels == HoldLevels(before, fl.Pins(), fr.Pins(), Maneuver.Reverse);
      fl.board.Sleep(length);
      fl.Stop();
      fr.Stop();
    }

    /** Runs the wheels in opposite directions for `length` seconds, the
        front-left forward. */
    method TurnRight(length: real)
      requires Valid()
      modifies fl.board
      ensures Valid()
      ensures fl.board.levels == Finish(old(fl.board.levels), fl.Pins(), fr.Pins(), Maneuver.TurnRight)
      ensures fl.board.holds == old(fl.board.holds) +
        [Snapshot(length, HoldLevels(old(fl.board.levels), fl.Pins(), fr.Pins(), Maneuver.TurnRight))]
    {
      ghost var before := fl.board.levels;
      fr.Reverse();
      fl.Forward();
      assert fl.board.levels == HoldLevels(before, fl.Pins(), fr.Pins(), Maneuver.TurnRight);
      fl.board.Sleep(length);
      fr.Stop();
      fl.Stop();
    }

    /** Runs the wheels in opposite directions for `length` seconds, the
        front-left in reverse. */
    method TurnLeft(length: real)
      requires Valid()
      modifies fl.board
      ensures Valid()
      ensures fl.board.levels == Finish(old(fl.board.levels), fl.Pins(), fr.Pins(), Maneuver.TurnLeft)
      ensures fl.board.holds == old(fl.board.holds) +
        [Snapshot(length, HoldLevels(old(fl.board.levels), fl.Pins(), fr.Pins(), Maneuver.TurnLeft))]
    {
      ghost var before := fl.board.levels;
      fl.Reverse();
      fr.Forward();
      assert fl.board.levels == HoldLevels(before, fl.Pins(), fr.Pins(), Maneuver.TurnLeft);
      fl.board.Sleep(length);
      fl.Stop();
      fr.Stop();
    }
  }
}
