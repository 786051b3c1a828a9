/**
 * The motor run states of the motors service and their integer encoding.
 *
 * A run state is a base phase (0 = stopped, 1 = starting, 2 = running,
 * 3 = stopping) with an independent saturation tag; the tagged states are
 * encoded as 4..7. The base phases follow the documented chart
 *
 *     [0] --start()--> [1] --timer()--> [2] --stop()--> [3] --timer()--> [0]
 *
 * The state machine that implements the chart is not part of this model;
 * only the encoding, the chart and the two documented state macros are.
 */
module MotorStates {
  import opened Wrappers

  datatype Phase = Stopped | Starting | Running | Stopping

  datatype MotorsState = MotorsState(phase: Phase, saturated: bool)

  /** The state the service starts in. */
  const INITIAL: MotorsState := MotorsState(Stopped, false)

  /** The base-state number of a phase. */
  function PhaseCode(p: Phase): (c: nat)
    ensures c < 4
  {
    match p
    case Stopped => 0
    case Starting => 1
    case Running => 2
    case Stopping => 3
  }

  /** The phase whose base-state number is `c`. */
  function PhaseOfCode(c: nat): (p: Phase)
    requires c < 4
    ensures PhaseCode(p) == c
  {
    if c == 0 then Stopped
    else if c == 1 then Starting
    else if c == 2 then Running
    else Stopping
  }

  /** The extended state number: the base number, plus 4 when saturated. */
  function Code(s: MotorsState): (c: nat)
    ensures c < 8
    ensures c % 4 == PhaseCode(s.phase)
    ensures s.saturated <==> 4 <= c
  {
    PhaseCode(s.phase) + if s.saturated then 4 else 0
  }

  // ---------------------------------------------------------------------------
  // Saturation bit. The documented macro tests bit 0x40, but the documented
  // saturated codes 4..7 carry bit 0x04 and never 0x40 (see README Findings).
  // ---------------------------------------------------------------------------

  /** `code & mask != 0` for a single-bit `mask`, written as integer arithmetic. */
  predicate HasBit(code: nat, mask: nat)
    requires mask > 0
  {
    (code / mask) % 2 == 1
  }

  /** `MOTORS_SATURATED(state)` as written: bit 0x40 of the state code. */
  function SaturatedMacro(code: nat): (b: bool)
    ensures code < 0x40 ==> !b
    ensures 0x40 <= code < 0x80 ==> b
  {
    HasBit(code, 0x40)
  }

  /** The saturation bit the documented encoding actually uses: bit 0x04. */
  function SaturatedBit(code: nat): (b: bool)
    ensures code < 8 ==> (b <==> 4 <= code)
  {
    HasBit(code, 0x04)
  }

  /** The macro as written is false on every documented state, saturated or not. */
  lemma SaturatedMacroMissesSaturatedCodes()
    ensures forall code :: 0 <= code < 8 ==> !SaturatedMacro(code)
    ensures Code(MotorsState(Running, true)) == 6 && !SaturatedMacro(6)
  {
  }

  /** Decoding of a state number; numbers outside 0..7 are not run states. */
  function FromCode(c: int): (r: Option<MotorsState>)
    ensures r.Some? <==> 0 <= c < 8
    ensures r.Some? ==> Code(r.value) == c
  {
    if 0 <= c < 8 then Some(MotorsState(PhaseOfCode(c % 4), SaturatedBit(c))) else None
  }

  /** Encoding then decoding gives the state back. */
  lemma CodeRoundTrip(s: MotorsState)
    ensures FromCode(Code(s)) == Some(s)
  {
  }

  /** `MOTORS_CONTROLLABLE(state)`: the running states, normal or saturated. */
  function Controllable(code: int): (b: bool)
    ensures b <==> FromCode(code).Some? && FromCode(code).value.phase == Running
  {
    code == 2 || code == 6
  }

  // ---------------------------------------------------------------------------
  // The documented state chart over base phases.
  // ---------------------------------------------------------------------------

  /** The labels on the chart's edges. */
  datatype ChartEvent = Start | Timer | Stop

  /** The phase after `p` in the cycle 0 -> 1 -> 2 -> 3 -> 0. */
  function Succ(p: Phase): (q: Phase)
    ensures PhaseCode(q) == (PhaseCode(p) + 1) % 4
  {
    PhaseOfCode((PhaseCode(p) + 1) % 4)
  }

  /** The chart's edge out of `p` labelled `e`, if there is one. */
  function Fire(p: Phase, e: ChartEvent): (r: Option<Phase>)
    ensures r.Some? <==>
      || (p == Stopped && e == Start)
      || (p == Starting && e == Timer)
      || (p == Running && e == Stop)
      || (p == Stopping && e == Timer)
    ensures r.Some? ==> r.value == Succ(p)
  {
    match (p, e)
    case (Stopped, Start) => Some(Starting)
    case (Starting, Timer) => Some(Running)
    case (Running, Stop) => Some(Stopping)
    case (Stopping, Timer) => Some(Stopped)
    case _ => None
  }

  /** The chart is a single cycle of length four through all phases. */
  lemma ChartIsOneCycle(p: Phase)
    ensures Succ(Succ(Succ(Succ(p)))) == p
    ensures Succ(p) != p && Succ(Succ(p)) != p && Succ(Succ(Succ(p))) != p
  {
    assert Succ(Stopped) == Starting;
    assert Succ(Starting) == Running;
    assert Succ(Running) == Stopping;
    assert Succ(Stopping) == Stopped;
  }

  /** Every phase has exactly one outgoing edge in the chart. */
  lemma ChartOneEdgePerPhase(p: Phase)
    ensures exists e :: Fire(p, e).Some?
    ensures forall e, e' :: Fire(p, e).Some? && Fire(p, e').Some? ==> e == e'
  {
    match p
    case Stopped => assert Fire(p, Start).Some?;
    case Starting => assert Fire(p, Timer).Some?;
    case Running => assert Fire(p, Stop).Some?;
    case Stopping => assert Fire(p, Timer).Some?;
  }

}
