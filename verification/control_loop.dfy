/**
 * The control loop of the motors service as a state-transition system.
 *
 * A node holds the configuration, the motor run state, the voltage cell, the
 * inputs handed to the state machine so far, and every control vector handed
 * to the driver so far. Events are the receive results of the two
 * subscribers: voltage messages (the reader thread) and force messages (the
 * main loop), interleaved in some order.
 *
 * The state machine update and the calibration curves are collaborators
 * whose bodies are not part of this model; they are the parameters in `Env`.
 * The state machine keeps memory of its own between calls (the service
 * passes it only `dt` and `enable`), such as spin-up and spin-down timers.
 * That memory is an abstract value of type `M`, threaded through the node.
 */
module ControlLoop {
  import opened Wrappers
  import opened Messages
  import opened MotorStates
  import opened Configuration
  import opened Shaping
  import opened VoltageCell

  /**
   * The collaborators: curve bodies by name, and the state machine update.
   * An update takes the machine's memory, `dt` and `enable`, and returns the
   * new memory and the run state it reports.
   */
  datatype Env<!M> = Env(
    calib: Curve -> F2E,
    update: (M, real, int) -> (M, MotorsState))

  /** One state machine input: the measured `dt` and the message's enable. */
  type Input = (real, int)

  datatype Node<M> = Node(
    cfg: Config,
    mem: M,                     // the state machine's own memory
    machine: MotorsState,       // the run state it last reported
    voltage: real,
    updates: seq<Input>,        // every (dt, enable) handed to the state machine, in order
    writes: seq<seq<Option<real>>>)  // every control array handed to write_motors, in order

  datatype Event =
    | VoltageMsg(r: Recv)
    | ForcesMsg(r: Recv, dt: real)   // dt: what the interval timer would measure on this cycle

  /** Arrays the service can read without running off their ends or its control array. */
  predicate WellFormed(e: Event) {
    match e
    case VoltageMsg(r) => ReadableRecv(r)
    case ForcesMsg(r, _) => r.Array? ==> FitsCtrls(r.items)
  }

  /** A force message that unpacked: the only event that drives the state machine. */
  predicate IsCommand(e: Event) {
    e.ForcesMsg? && e.r.Array?
  }

  /** The state machine input a command produces. */
  function CommandInput(e: Event): (x: Input)
    requires IsCommand(e) && WellFormed(e)
    ensures x.0 == e.dt && x.1 == ToInt32(e.r.items[0].i64)
  {
    (e.dt, Enable(e.r.items))
  }

  /** What one step needs: readable arrays and, for a command, a bound driver. */
  predicate CanStep<M>(n: Node<M>, e: Event) {
    && WellFormed(e)
    && (IsCommand(e) ==> n.cfg.driver.Some?)
  }

  /**
   * Whether each start-up resource was obtained: the forces socket, the
   * logger, and the msgpack buffer.
   */
  datatype Resources = Resources(forcesSocket: bool, logger: bool, buffer: bool)

  /**
   * Start-up, in the service's order: the forces socket and the logger
   * (`-EIO`), the msgpack buffer (`-ENOMEM`), then the configuration
   * (`-EINVAL` on an unknown curve). The loop starts with the voltage cell
   * at 16.0 and the state machine stopped, its memory as initialised to
   * `mem0`.
   */
  function Boot<M>(res: Resources, curveName: string, motorCount: int, driverName: string, mem0: M)
    : (r: Result<Node<M>, Error>)
    ensures r.Failure? <==>
      !res.forcesSocket || !res.logger || !res.buffer || SelectCurve(curveName).Failure?
    ensures !res.forcesSocket || !res.logger ==> r == Failure(IoError)
    ensures res.forcesSocket && res.logger && !res.buffer ==> r == Failure(OutOfMemory)
    ensures res.forcesSocket && res.logger && res.buffer && SelectCurve(curveName).Failure? ==>
      r == Failure(InvalidArgument)
    ensures r.Success? ==>
      && Configure(curveName, motorCount, driverName) == Success(r.value.cfg)
      && r.value.mem == mem0 && r.value.machine == MotorsState(Stopped, false)
      && r.value.voltage == 16.0
      && r.value.updates == [] && r.value.writes == []
  {
    if !res.forcesSocket || !res.logger then Failure(IoError)
    else if !res.buffer then Failure(OutOfMemory)
    else
      match Configure(curveName, motorCount, driverName)
      case Failure(e) => Failure(e)
      case Success(cfg) => Success(Node(cfg, mem0, INITIAL, DEFAULT_VOLTAGE, [], []))
  }

  /**
   * One event. A voltage message goes to the cell. A force command drives
   * exactly one state machine update with its own (dt, enable), and then one
   * write of one control slot per force, shaped by the state the update
   * returned and the current voltage (unset in a saturated state). A force
   * receive that yields nothing or does not unpack changes nothing.
   */
  function Step<M>(env: Env<M>, n: Node<M>, e: Event): (n': Node<M>)
    requires CanStep(n, e)
    ensures n'.cfg == n.cfg
    ensures e.ForcesMsg? ==> n'.voltage == n.voltage
    ensures e.VoltageMsg? ==> n'.voltage == ReaderStep(n.voltage, e.r)
    ensures !IsCommand(e) ==>
      n'.mem == n.mem && n'.machine == n.machine && n'.updates == n.updates && n'.writes == n.writes
    ensures IsCommand(e) ==>
      && (n'.mem, n'.machine) == env.update(n.mem, e.dt, ToInt32(e.r.items[0].i64))
      && n'.updates == n.updates + [(e.dt, ToInt32(e.r.items[0].i64))]
      && |n'.writes| == |n.writes| + 1 && n'.writes[..|n.writes|] == n.writes
      && n'.writes[|n.writes|] == Slots(n'.machine, e.r.items, n.voltage, env.calib(n.cfg.curve))
  {
    match e
    case VoltageMsg(r) => n.(voltage := ReaderStep(n.voltage, r))
    case ForcesMsg(Array(items), dt) =>
      var enable := Enable(items);
      var (mem, state) := env.update(n.mem, dt, enable);
      var ctrls := Slots(state, items, n.voltage, env.calib(n.cfg.curve));
      n.(mem := mem, machine := state, updates := n.updates + [(dt, enable)], writes := n.writes + [ctrls])
    case ForcesMsg(_, _) => n
  }

  /** The write of a command, per state the update returned. */
  lemma CommandOutputs<M>(env: Env<M>, n: Node<M>, e: Event)
    requires CanStep(n, e) && IsCommand(e)
    ensures var n' := Step(env, n, e);
      var out := n'.writes[|n.writes|];
      var f2e := env.calib(n.cfg.curve);
      && |out| == |e.r.items| - 1
      && (n'.machine == MotorsState(Running, false) ==>
            forall i :: 0 <= i < |out| ==>
              out[i].Some? && out[i].value >= MIN_GAS
              && out[i].value == Fmax(MIN_GAS, f2e(e.r.items[i + 1].dec, n.voltage)))
      && (n'.machine == MotorsState(Starting, false) ==> forall i :: 0 <= i < |out| ==> out[i] == Some(MIN_GAS))
      && (n'.machine in {MotorsState(Stopped, false), MotorsState(Stopping, false)} ==>
            forall i :: 0 <= i < |out| ==> out[i] == Some(0.0))
      && (n'.machine.saturated ==> forall i :: 0 <= i < |out| ==> out[i] == None)
  {
  }

  /**
   * The configured motor count plays no part in a step: a command with any
   * number of forces (up to the array's capacity) is shaped and written in
   * full, whatever `motorCount` says.
   */
  lemma StepIgnoresMotorCount<M>(env: Env<M>, n: Node<M>, e: Event, motorCount: int)
    requires CanStep(n, e)
    ensures var n2 := n.(cfg := n.cfg.(motorCount := motorCount));
      CanStep(n2, e) && Step(env, n2, e).(cfg := n.cfg) == Step(env, n, e)
  {
  }

  // ---------------------------------------------------------------------------
  // Runs: a sequence of events from a starting node.
  // ---------------------------------------------------------------------------

  /** What a run needs: readable events, and a driver if any command arrives. */
  predicate CanRun<M>(n: Node<M>, es: seq<Event>) {
    && (forall i :: 0 <= i < |es| ==> WellFormed(es[i]))
    && (n.cfg.driver.Some? || forall i :: 0 <= i < |es| ==> !IsCommand(es[i]))
  }

  /** The node after the events `es`, in order: the service's main loop and reader thread. */
  function Run<M>(env: Env<M>, n: Node<M>, es: seq<Event>): Node<M>
    requires CanRun(n, es)
    decreases |es|
  {
    if |es| == 0 then n
    else
      assert WellFormed(es[0]) && (IsCommand(es[0]) ==> n.cfg.driver.Some?);
      Run(env, Step(env, n, es[0]), es[1..])
  }

  /** The state machine inputs of the commands among `es`, in order. */
  function Commands(es: seq<Event>): seq<Input>
    requires forall i :: 0 <= i < |es| ==> WellFormed(es[i])
    decreases |es|
  {
    if |es| == 0 then []
    else (if IsCommand(es[0]) then [CommandInput(es[0])] else []) + Commands(es[1..])
  }

  /** The voltage receive results among `es`, in order. */
  function VoltageRecvs(es: seq<Event>): (rs: seq<Recv>)
    requires forall i :: 0 <= i < |es| ==> WellFormed(es[i])
    ensures forall i :: 0 <= i < |rs| ==> ReadableRecv(rs[i])
    decreases |es|
  {
    if |es| == 0 then []
    else
      assert WellFormed(es[0]);
      (if es[0].VoltageMsg? then [es[0].r] else []) + VoltageRecvs(es[1..])
  }

  /**
   * The state machine's memory and last reported state after feeding it
   * `xs` in order, from memory `m` and reported state `s`.
   */
  function Replay<M>(update: (M, real, int) -> (M, MotorsState), m: M, s: MotorsState, xs: seq<Input>)
    : (M, MotorsState)
    decreases |xs|
  {
    if |xs| == 0 then (m, s)
    else
      var (m', s') := update(m, xs[0].0, xs[0].1);
      Replay(update, m', s', xs[1..])
  }

  /**
   * Over a run, the state machine is handed exactly the commands' inputs,
   * once each and in order; the configuration is untouched.
   */
  lemma {:induction false} RunTrace<M>(env: Env<M>, n: Node<M>, es: seq<Event>)
    requires CanRun(n, es)
    ensures Run(env, n, es).cfg == n.cfg
    ensures Run(env, n, es).updates == n.updates + Commands(es)
    decreases |es|
  {
    if |es| > 0 {
      var e := es[0];
      assert WellFormed(e) && (IsCommand(e) ==> n.cfg.driver.Some?);
      var n1 := Step(env, n, e);
      RunTrace(env, n1, es[1..]);
      var head := if IsCommand(e) then [CommandInput(e)] else [];
      assert Commands(es) == head + Commands(es[1..]);
      assert n1.updates == n.updates + head;
    }
  }

  /**
   * Over a run, the driver receives exactly one control array per command,
   * appended to what it had received before.
   */
  lemma {:induction false} RunWrites<M>(env: Env<M>, n: Node<M>, es: seq<Event>)
    requires CanRun(n, es)
    ensures |Run(env, n, es).writes| == |n.writes| + |Commands(es)|
    ensures Run(env, n, es).writes[..|n.writes|] == n.writes
    decreases |es|
  {
    if |es| > 0 {
      var e := es[0];
      assert WellFormed(e) && (IsCommand(e) ==> n.cfg.driver.Some?);
      var n1 := Step(env, n, e);
      RunWrites(env, n1, es[1..]);
      var head := if IsCommand(e) then [CommandInput(e)] else [];
      assert Commands(es) == head + Commands(es[1..]);
      assert |n1.writes| == |n.writes| + |head|;
      assert n1.writes[..|n.writes|] == n.writes;
    }
  }

  /**
   * The machine's memory and reported state after a run are the update
   * replayed over the commands' inputs, in order.
   */
  lemma {:induction false} RunMachine<M>(env: Env<M>, n: Node<M>, es: seq<Event>)
    requires CanRun(n, es)
    ensures (Run(env, n, es).mem, Run(env, n, es).machine) == Replay(env.update, n.mem, n.machine, Commands(es))
    decreases |es|
  {
    if |es| > 0 {
      var e := es[0];
      assert WellFormed(e) && (IsCommand(e) ==> n.cfg.driver.Some?);
      var n1 := Step(env, n, e);
      RunMachine(env, n1, es[1..]);
      if IsCommand(e) {
        var xs := Commands(es);
        assert xs == [CommandInput(e)] + Commands(es[1..]);
        assert xs[0] == CommandInput(e) && xs[1..] == Commands(es[1..]);
      } else {
        assert Commands(es) == Commands(es[1..]);
      }
    }
  }

  /** The voltage cell after a run is the reader run over the voltage messages alone. */
  lemma {:induction false} RunVoltage<M>(env: Env<M>, n: Node<M>, es: seq<Event>)
    requires CanRun(n, es)
    ensures Run(env, n, es).voltage == ReaderRun(n.voltage, VoltageRecvs(es))
    decreases |es|
  {
    if |es| > 0 {
      var e := es[0];
      assert WellFormed(e) && (IsCommand(e) ==> n.cfg.driver.Some?);
      RunVoltage(env, Step(env, n, e), es[1..]);
      if e.VoltageMsg? {
        var rs := VoltageRecvs(es);
        assert rs == [e.r] + VoltageRecvs(es[1..]);
        assert rs[0] == e.r && rs[1..] == VoltageRecvs(es[1..]);
      } else {
        assert VoltageRecvs(es) == VoltageRecvs(es[1..]);
      }
    }
  }

  /** After any run the voltage cell holds the last unpacked voltage sample, or its earlier value. */
  lemma RunVoltageIsLastSample<M>(env: Env<M>, n: Node<M>, es: seq<Event>)
    requires CanRun(n, es)
    ensures Run(env, n, es).voltage == LastSample(n.voltage, VoltageRecvs(es))
  {
    RunVoltage(env, n, es);
    ReaderRunIsLastSample(n.voltage, VoltageRecvs(es));
  }

  /**
   * A bus stall holds the last commanded intent: with no command among the
   * events, the state machine is not advanced and nothing is written.
   */
  lemma {:induction false} RunWithoutCommandsHoldsState<M>(env: Env<M>, n: Node<M>, es: seq<Event>)
    requires CanRun(n, es)
    requires forall i :: 0 <= i < |es| ==> !IsCommand(es[i])
    ensures Run(env, n, es).mem == n.mem
    ensures Run(env, n, es).machine == n.machine
    ensures Run(env, n, es).updates == n.updates
    ensures Run(env, n, es).writes == n.writes
    decreases |es|
  {
    if |es| > 0 {
      assert WellFormed(es[0]) && !IsCommand(es[0]);
      RunWithoutCommandsHoldsState(env, Step(env, n, es[0]), es[1..]);
    }
  }
}
