/** The scripted demo: the reference wiring, one forward and one reverse
    maneuver of three seconds each. */
module Demo {
  import opened Gpio
  import W = Wheels
  import C = Cars

  /** Front-left wheel: A on 14, B on 15, enable on 18 (BCM numbering). */
  const FrontLeftPins := W.WheelPins(14, 15, 18)

  /** Front-right wheel: A on 17, B on 27, enable on 22. */
  const FrontRightPins := W.WheelPins(17, 27, 22)

  /** The reference wiring puts the two wheels on six different pins. */
  lemma WiringSeparate()
    ensures C.Separate(FrontLeftPins, FrontRightPins)
    ensures FrontLeftPins.Set() + FrontRightPins.Set() == {14, 15, 18, 17, 27, 22}
  {
  }

  /** The pin tables of the demo, forward then reverse from any table in
      which the six wheel pins are configured. */
  lemma DemoTables(m0: Levels)
    requires FrontLeftPins.In(m0) && FrontRightPins.In(m0)
    ensures var m1 := C.Finish(m0, FrontLeftPins, FrontRightPins, C.Forward);
            C.DrivesExactly(C.HoldLevels(m1, FrontLeftPins, FrontRightPins, C.Reverse),
                            FrontLeftPins, FrontRightPins, C.Reverse)
    ensures W.Read(m0, FrontLeftPins) == W.Idle && W.Read(m0, FrontRightPins) == W.Idle ==>
              C.DrivesExactly(C.HoldLevels(m0, FrontLeftPins, FrontRightPins, C.Forward),
                              FrontLeftPins, FrontRightPins, C.Forward)
  {
    WiringSeparate();
    var m1 := C.Finish(m0, FrontLeftPins, FrontRightPins, C.Forward);
    C.ManeuverHold(m1, FrontLeftPins, FrontRightPins, C.Reverse);
    if W.Read(m0, FrontLeftPins) == W.Idle && W.Read(m0, FrontRightPins) == W.Idle {
      C.ManeuverHold(m0, FrontLeftPins, FrontRightPins, C.Forward);
    }
  }

  /** The demo on a board whose six wheel pins are configured outputs: it
      ends with all six low and no other pin touched; it appends exactly two
      3-second holds to the log, the forward hold and then the reverse hold;
      the reverse hold drives both wheels exactly in reverse, and the forward
      hold drives both exactly forward when the wheels start stopped. */
  method RunDemo(board: Board)
    requires FrontLeftPins.In(board.levels) && FrontRightPins.In(board.levels)
    modifies board
    ensures board.levels.Keys == old(board.levels.Keys)
    ensures FrontLeftPins.In(board.levels) && W.Read(board.levels, FrontLeftPins) == W.Idle
    ensures FrontRightPins.In(board.levels) && W.Read(board.levels, FrontRightPins) == W.Idle
    ensures forall p :: p in old(board.levels) && p !in FrontLeftPins.Set() + FrontRightPins.Set() ==>
              board.levels[p] == old(board.levels[p])
    ensures board.holds == old(board.holds) +
      [Snapshot(3.0, C.HoldLevels(old(board.levels), FrontLeftPins, FrontRightPins, C.Forward))] +
      [Snapshot(3.0, C.HoldLevels(C.Finish(old(board.levels), FrontLeftPins, FrontRightPins, C.Forward),
                                  FrontLeftPins, FrontRightPins, C.Reverse))]
    ensures C.DrivesExactly(board.holds[|old(board.holds)| + 1].levels, FrontLeftPins, FrontRightPins, C.Reverse)
    ensures W.Read(old(board.levels), FrontLeftPins) == W.Idle &&
            W.Read(old(board.levels), FrontRightPins) == W.Idle ==>
              C.DrivesExactly(board.holds[|old(board.holds)|].levels, FrontLeftPins, FrontRightPins, C.Forward)
  {
    ghost var m0 := board.levels;
    var frontleft := new W.Wheel(board, 14, 15, 18);
    var frontright := new W.Wheel(board, 17, 27, 22);
    var car := new C.Car(frontleft, frontright);
    car.Forward(3.0);
    car.Reverse(3.0);
    DemoTables(m0);
  }
}
