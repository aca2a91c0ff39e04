/** One motor driven through three output pins: direction A, direction B and
    enable. The pure part says what each command does to the pin table; the
    class Wheel performs the commands on a Board. */
module Wheels {
  import opened Gpio

  /** The BCM pin numbers of one wheel. */
  datatype WheelPins = WheelPins(a: int, b: int, enable: int) {
    /** The three pins are three different pins. */
    predicate Distinct() {
      a != b && a != enable && b != enable
    }

    /** All three pins are configured outputs of the table. */
    predicate In(m: Levels) {
      a in m && b in m && enable in m
    }

    function Set(): set<int> {
      {a, b, enable}
    }
  }

  /** The three things a wheel can be told to do. */
  datatype Command = Forward | Reverse | Stop

  /** The levels of a wheel's enable, A and B pins. */
  datatype Signals = Signals(enable: bool, a: bool, b: bool)

  const Idle := Signals(false, false, false)

  /** What a command drives when given to an idle wheel. */
  function Driving(c: Command): Signals {
    match c
    case Forward => Signals(true, true, false)
    case Reverse => Signals(true, false, true)
    case Stop => Idle
  }

  function Read(m: Levels, w: WheelPins): Signals
    requires w.In(m)
  {
    Signals(m[w.enable], m[w.a], m[w.b])
  }

  /** Whether a command writes pin `p`. */
  predicate Writes(w: WheelPins, c: Command, p: int) {
    match c
    case Forward => p == w.enable || p == w.a
    case Reverse => p == w.enable || p == w.b
    case Stop => p == w.enable || p == w.a || p == w.b
  }

  /** The pin table after one command, in the order the wheel writes the pins:
      forward raises enable then A, reverse raises enable then B, stop lowers
      enable, A and B. No other pin changes; in particular forward leaves B and
      reverse leaves A as they were. */
  function Apply(m: Levels, w: WheelPins, c: Command): (r: Levels)
    ensures forall p :: p in r <==> p in m || Writes(w, c, p)
    ensures w.In(m) ==> r.Keys == m.Keys
    ensures forall p :: p in m && !Writes(w, c, p) ==> r[p] == m[p]
    ensures c == Forward ==> w.enable in r && w.a in r && r[w.enable] && r[w.a]
    ensures c == Reverse ==> w.enable in r && w.b in r && r[w.enable] && r[w.b]
    ensures c == Stop ==> w.In(r) && !r[w.enable] && !r[w.a] && !r[w.b]
  {
    match c
    case Forward => m[w.enable := true][w.a := true]
    case Reverse => m[w.enable := true][w.b := true]
    case Stop => m[w.enable := false][w.a := false][w.b := false]
  }

  /** Stop leaves the wheel idle whatever it was doing, so a second stop
      changes nothing. */
  lemma StopIdempotent(m: Levels, w: WheelPins)
    requires w.In(m)
    ensures Read(Apply(m, w, Stop), w) == Idle
    ensures Apply(Apply(m, w, Stop), w, Stop) == Apply(m, w, Stop)
  {
  }

  /** Forward keeps B and reverse keeps A: neither clears the opposite
      direction pin. */
  lemma DirectionKeepsOpposite(m: Levels, w: WheelPins)
    requires w.Distinct() && w.In(m)
    ensures Apply(m, w, Forward)[w.b] == m[w.b]
    ensures Apply(m, w, Reverse)[w.a] == m[w.a]
  {
  }

  /** From the idle state each command drives exactly its own signals. */
  lemma DriveFromIdle(m: Levels, w: WheelPins, c: Command)
    requires w.Distinct() && w.In(m) && Read(m, w) == Idle
    ensures w.In(Apply(m, w, c))
    ensures Read(Apply(m, w, c), w) == Driving(c)
  {
  }

  /** The latent overlap: reverse then forward with no stop between leaves
      enable, A and B all high. */
  lemma ReverseThenForwardOverlaps(m: Levels, w: WheelPins)
    requires w.Distinct() && w.In(m) && Read(m, w) == Idle
    ensures w.In(Apply(Apply(m, w, Reverse), w, Forward))
    ensures Read(Apply(Apply(m, w, Reverse), w, Forward), w) == Signals(true, true, true)
  {
  }

  /** The pin table after a series of commands to one wheel. */
  function Run(m: Levels, w: WheelPins, cs: seq<Command>): (r: Levels)
    requires w.In(m)
    ensures r.Keys == m.Keys
    ensures forall p :: p in m && p !in w.Set() ==> r[p] == m[p]
    decreases |cs|
  {
    if cs == [] then m else Apply(Run(m, w, cs[..|cs| - 1]), w, cs[|cs| - 1])
  }

  /** The commands issued since the last stop: the longest suffix without a
      stop. */
  function SinceLastStop(cs: seq<Command>): (t: seq<Command>)
    ensures Stop !in t
    ensures |t| <= |cs| && t == cs[|cs| - |t|..]
    ensures |t| < |cs| ==> cs[|cs| - |t| - 1] == Stop
    decreases |cs|
  {
    if cs == [] || cs[|cs| - 1] == Stop then []
    else SinceLastStop(cs[..|cs| - 1]) + [cs[|cs| - 1]]
  }

  /** Starting idle, the wheel's signals after any series of commands depend
      only on what was issued since the last stop: enable is high iff
      anything was, A iff a forward was, B iff a reverse was. Hence A and B
      are both high exactly when a forward and a reverse were both issued
      with no stop between them. */
  lemma {:induction false} RunSignals(m: Levels, w: WheelPins, cs: seq<Command>)
    requires w.Distinct() && w.In(m) && Read(m, w) == Idle
    ensures var t := SinceLastStop(cs);
            Read(Run(m, w, cs), w) == Signals(t != [], Forward in t, Reverse in t)
    decreases |cs|
  {
    if cs != [] {
      var init, last := cs[..|cs| - 1], cs[|cs| - 1];
      RunSignals(m, w, init);
      if last != Stop {
        var t := SinceLastStop(init);
        assert SinceLastStop(cs) == t + [last];
      }
    }
  }

  /** A motor on three pins of a shared board. */
  class Wheel {
    const board: Board
    const a: int
    const b: int
    const enable: int

    function Pins(): WheelPins {
      WheelPins(a, b, enable)
    }

    /** The wheel's pins are configured outputs of its board. */
    predicate Valid()
      reads board
    {
      Pins().In(board.levels)
    }

    /** The pins must already be configured as outputs; the configuration
        itself (GPIO.setup) is not part of this model. */
    constructor (board: Board, inputA: int, inputB: int, enable: int)
      requires WheelPins(inputA, inputB, enable).In(board.levels)
      ensures this.board == board
      ensures Pins() == WheelPins(inputA, inputB, enable)
      ensures Valid()
    {
      this.board := board;
      a := inputA;
      b := inputB;
      this.enable := enable;
    }

    method Forward()
      requires Valid()
      modifies board
      ensures Valid()
      ensures board.levels == Apply(old(board.levels), Pins(), Command.Forward)
      ensures board.holds == old(board.holds)
    {
      board.Output(enable, true);
      board.Output(a, true);
    }

    method Reverse()
      requires Valid()
      modifies board
      ensures Valid()
      ensures board.levels == Apply(old(board.levels), Pins(), Command.Reverse)
      ensures board.holds == old(board.holds)
    {
      board.Output(enable, true);
      board.Output(b, true);
    }

    method Stop()
      requires Valid()
      modifies board
      ensures Valid()
      ensures board.levels == Apply(old(board.levels), Pins(), Command.Stop)
      ensures board.holds == old(board.holds)
    {
      board.Output(enable, false);
      board.Output(a, false);
      board.Output(b, false);
    }
  }
}
