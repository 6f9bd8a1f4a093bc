/**
 * The tile controller: the gate a tile applies, the state it publishes
 * downstream, one pass of each of its two loops (reading the input state,
 * serving the next tile) and the flags that start and stop them.
 *
 * The class attribute `comm` is one `Comm` shared by every tile; a tile is
 * given it on construction and registers its callbacks on it.
 */
module QuTile {
  import opened Wrappers
  import opened MpyEnum
  import QuStates
  import CommUtil

  /** Why a tile operation raised. */
  datatype TileError =
    | AttributeError                    // `eval('GateOperators.' + name)` for a name without an operator
    | Raised(error: QuStates.QuError)   // `operate` refused the installed operator
    | CommFailed(cause: CommUtil.CommError)  // `serviceRequest` or the input indicator raised, or a wait could never return
    | RuntimeError                      // `start` on CPython while a loop is already running

  /** `(_type, _name, _operator)` name one gate: the name is the type's, and the operator is that name's. */
  predicate Consistent(gateType: EnumValue<int>, name: string, operator: EnumValue<QuStates.Matrix>) {
    name == gateType.name && Lookup(QuStates.GateOperators, name) == Some(operator)
  }

  /** The angles a request step publishes: the input made canonical, then operated on with update. */
  function Operated(nu: QuStates.Numerics, operator: QuStates.Matrix, input: (real, real)): (real, real)
    requires QuStates.IsSquare(operator, 2)
  {
    var (theta, phi) := QuStates.Canonical(input.0, input.1);
    var v := QuStates.Apply(QuStates.ScalarArith, operator, QuStates.BasisVector(nu, theta, phi), 2);
    QuStates.Derived(nu, v[0], v[1])
  }

  /** The class attribute `outState = QuantumBitState()`: the default angles give |0>. */
  method InitialOutState() returns (q: QuStates.QuantumBitState)
    ensures fresh(q) && q.theta == 0.0 && q.phi == 0.0
  {
    q := new QuStates.QuantumBitState();
  }

  /** `time.sleep` for k poll rounds of the line. */
  method Pause(uart: CommUtil.Uart, k: nat)
    modifies uart
    ensures uart.View() == CommUtil.Sleeps(old(uart.View()), k) && uart.written == old(uart.written)
  {
    for i := 0 to k
      invariant CommUtil.Sleeps(uart.View(), k - i) == CommUtil.Sleeps(old(uart.View()), k)
      invariant uart.written == old(uart.written)
    {
      uart.Sleep();
    }
  }

  class QuTile {
    var gateType: EnumValue<int>
    var name: string
    var operator: EnumValue<QuStates.Matrix>
    /** The published state; until the first request step, the class attribute's default state. */
    var outState: QuStates.QuantumBitState
    const comm: CommUtil.Comm
    var requestRunning: bool
    var serviceRunning: bool

    /** The fields as `__init__` sets them, once the operator of the gate's name is known. */
    constructor (gate: EnumValue<int>, op: EnumValue<QuStates.Matrix>, shared: CommUtil.Comm, initial: QuStates.QuantumBitState)
      requires Lookup(QuStates.GateOperators, gate.name) == Some(op)
      ensures gateType == gate && Consistent(gateType, name, operator)
      ensures comm == shared && outState == initial && !requestRunning && !serviceRunning
    {
      gateType, name, operator := gate, gate.name, op;
      comm, outState := shared, initial;
      requestRunning, serviceRunning := false, false;
    }

    /** `getQuantumState`: the angles of the published state. */
    function QuantumState(): (real, real)
      reads this, outState
    {
      (outState.theta, outState.phi)
    }

    /** `getOperator`. */
    method GetOperator() returns (op: EnumValue<QuStates.Matrix>)
      ensures op == operator
    {
      op := operator;
    }

    /** `setOperator`: only the operator is replaced, so the three fields may no longer agree. */
    method SetOperator(op: EnumValue<QuStates.Matrix>)
      modifies this
      ensures operator == op
      ensures gateType == old(gateType) && name == old(name) && outState == old(outState)
      ensures requestRunning == old(requestRunning) && serviceRunning == old(serviceRunning)
    {
      operator := op;
    }

    /**
     * `replaceOperator(name)`: the operator, then the type, then the name. A name
     * without an operator raises before anything changes; every operator's name
     * is a gate type's, so the second lookup cannot fail after the first succeeded.
     */
    method ReplaceOperator(n: string) returns (r: Result<(), TileError>)
      modifies this
      ensures r.Ok? <==> Lookup(QuStates.GateOperators, n).Some?
      ensures r.Ok? ==> Consistent(gateType, name, operator) && name == n && gateType in QuStates.GateTypes
      ensures r.Err? ==>
        r.error == AttributeError && gateType == old(gateType) && name == old(name) && operator == old(operator)
      ensures outState == old(outState) && requestRunning == old(requestRunning) && serviceRunning == old(serviceRunning)
    {
      var op := Lookup(QuStates.GateOperators, n);
      if op.None? {
        return Err(AttributeError);
      }
      OperatorHasGateType(n);
      operator := op.value;
      var t := Lookup(QuStates.GateTypes, n);
      gateType := t.value;
      name := n;
      return Ok(());
    }

    /** The second half of a request step: operate on a fresh canonical qubit, then publish it. */
    method Publish(nu: QuStates.Numerics, input: (real, real)) returns (r: Result<(), TileError>)
      modifies this
      ensures r.Ok? <==> QuStates.IsSquare(operator.value, 2)
      ensures r.Ok? ==> fresh(outState) && QuantumState() == Operated(nu, operator.value, input)
      ensures r.Err? ==> outState == old(outState)
      ensures gateType == old(gateType) && name == old(name) && operator == old(operator)
      ensures requestRunning == old(requestRunning) && serviceRunning == old(serviceRunning)
    {
      var state := new QuStates.QuantumBitState(input.0, input.1);
      var res := state.Operate(nu, operator, true);
      if res.Err? {
        return Err(Raised(res.error));
      }
      outState := state;
      r := Ok(());
    }

    /**
     * One pass of `updateStateRoutine`: request the input state, build a
     * canonical qubit from it, operate on it, publish it only then, and sleep
     * ten rounds. A multi-qubit operator makes `operate` raise, and nothing is
     * published. A reply under the wrong opcode makes the indicator raise
     * NameError on a tile with an LED, which ends the pass before `operate`.
     */
    method UpdateStateStep(codec: CommUtil.FloatCodec, nu: QuStates.Numerics) returns (r: Result<(), TileError>)
      modifies this, comm.uartIn, comm.indicator
      ensures var o := CommUtil.RequestOutcome(codec, false, comm.indicator.hasLed, old(comm.indicator.signal), old(comm.uartIn.View()));
        && comm.uartIn.written == old(comm.uartIn.written) + CommUtil.Repeat(CommUtil.STATE_REQUEST_FRAME, o.3)
        && comm.indicator.signal == o.1
        && (o.0.Err? ==> comm.indicator.hasLed && r == Err(CommFailed(CommUtil.NameError))
                         && outState == old(outState) && comm.uartIn.View() == o.2)
        && (o.0.Ok? ==> (r.Ok? <==> QuStates.IsSquare(operator.value, 2)))
        && (o.0.Ok? && r.Ok? ==> fresh(outState) && QuantumState() == Operated(nu, operator.value, o.0.value)
                                 && comm.uartIn.View() == CommUtil.Sleeps(o.2, 10))
        && (o.0.Ok? && r.Err? ==> outState == old(outState) && comm.uartIn.View() == o.2)
      ensures gateType == old(gateType) && name == old(name) && operator == old(operator)
      ensures requestRunning == old(requestRunning) && serviceRunning == old(serviceRunning)
    {
      var input := comm.RequestInputState(codec, false);
      if input.Err? {
        return Err(CommFailed(input.error));
      }
      r := Publish(nu, input.value);
      if r.Err? {
        return;
      }
      Pause(comm.uartIn, 10);
    }

    /**
     * One pass of `serviceThread`: serve one request with this tile's state and
     * type; a type change then replaces the operator through the callback.
     */
    method ServiceStep(codec: CommUtil.FloatCodec, config: CommUtil.ConfigFile) returns (r: Result<(), TileError>)
      modifies this, comm.uartOut, config
      ensures var (served, l) := CommUtil.ServiceOutcome(codec, old(comm.uartOut.View()), comm.hooks, old(QuantumState()), old(gateType.value));
        && comm.uartOut.View() == l && comm.uartOut.written == old(comm.uartOut.written) + served.reply
        && config.contents == (if served.saved.Some? then served.saved else old(config.contents))
        && (served.result.Err? ==> r == Err(CommFailed(served.result.error)))
        && (served.result == Ok(None) ==> r == Ok(()))
        && (served.result.Ok? && served.result.value.Some? ==>
              var n := served.result.value.value;
              && (r.Ok? <==> Lookup(QuStates.GateOperators, n).Some?)
              && (r.Ok? ==> Consistent(gateType, name, operator) && name == n)
              && (r.Err? ==> r.error == AttributeError))
        && (r.Err? ==> gateType == old(gateType) && name == old(name) && operator == old(operator))
      ensures outState == old(outState) && requestRunning == old(requestRunning) && serviceRunning == old(serviceRunning)
    {
      var res := comm.ServiceRequest(codec, QuantumState(), gateType, config);
      if res.Err? {
        return Err(CommFailed(res.error));
      }
      r := Ok(());
      if res.value.Some? {
        r := ReplaceOperator(res.value.value);
      }
    }

    /**
     * `start`'s checks: on CPython each loop must not be running yet, and the
     * update loop is already launched when the service check fails. On
     * MicroPython nothing is checked. Each loop sets its flag as it begins.
     */
    method Start(cpython: bool) returns (r: Result<(), TileError>)
      modifies this
      ensures (r, requestRunning, serviceRunning) == StartOutcome(cpython, old(requestRunning), old(serviceRunning))
      ensures gateType == old(gateType) && name == old(name) && operator == old(operator) && outState == old(outState)
    {
      if cpython && requestRunning {
        return Err(RuntimeError);
      }
      requestRunning := true;
      if cpython && serviceRunning {
        return Err(RuntimeError);
      }
      serviceRunning := true;
      r := Ok(());
    }

    /** `stop`: both loops leave at their next test. */
    method Stop()
      modifies this
      ensures !requestRunning && !serviceRunning
      ensures gateType == old(gateType) && name == old(name) && operator == old(operator) && outState == old(outState)
    {
      requestRunning, serviceRunning := false, false;
    }
  }

  /** The result of `start` and the two running flags after it. */
  function StartOutcome(cpython: bool, requestRunning: bool, serviceRunning: bool): (r: (Result<(), TileError>, bool, bool))
  {
    if cpython && requestRunning then (Err(RuntimeError), requestRunning, serviceRunning)
    else if cpython && serviceRunning then (Err(RuntimeError), true, serviceRunning)
    else (Ok(()), true, true)
  }

  /** Starting twice raises on CPython; starting after `stop` succeeds on either platform. */
  lemma StartTwice(cpython: bool, requestRunning: bool, serviceRunning: bool)
    ensures var first := StartOutcome(cpython, requestRunning, serviceRunning);
      && first.1 && (first.0.Ok? ==> first.2)
      && (StartOutcome(cpython, first.1, first.2).0.Err? <==> cpython)
    ensures StartOutcome(cpython, false, false) == (Ok(()), true, true)
  {
  }

  /**
   * `QuTile(gate_type)`: the operator lookup of `__init__`, then the three
   * callbacks registered on the shared `Comm`. A gate without an operator
   * (UNDEFINED) raises before any callback is registered.
   */
  method NewTile(gate: EnumValue<int>, shared: CommUtil.Comm, initial: QuStates.QuantumBitState) returns (r: Result<QuTile, TileError>)
    modifies shared
    ensures r.Ok? <==> Lookup(QuStates.GateOperators, gate.name).Some?
    ensures r.Err? ==> r.error == AttributeError && shared.hooks == old(shared.hooks)
    ensures r.Ok? ==> var t := r.value;
      && fresh(t) && t.gateType == gate && Consistent(t.gateType, t.name, t.operator)
      && t.comm == shared && t.outState == initial && !t.requestRunning && !t.serviceRunning
      && shared.hooks == CommUtil.Hooks(true, true, true)
    ensures shared.onInputState == old(shared.onInputState) && shared.onGateType == old(shared.onGateType)
    ensures shared.running == old(shared.running)
  {
    var op := Lookup(QuStates.GateOperators, gate.name);
    if op.None? {
      return Err(AttributeError);
    }
    var t := new QuTile(gate, op.value, shared, initial);
    shared.SetStateRequestCallback();
    shared.SetComponentTypeRequestCallback();
    shared.SetReplaceOperatorCallback();
    return Ok(t);
  }

  // ---------------------------------------------------------------------------
  // The gate tables, as the tile sees them

  /** Every operator is named after a gate type. */
  lemma OperatorHasGateType(n: string)
    ensures Lookup(QuStates.GateOperators, n).Some? ==> Lookup(QuStates.GateTypes, n).Some?
  {
    QuStates.OperatorNamesFollowTypes();
    var op := Lookup(QuStates.GateOperators, n);
    if op.Some? {
      var i :| 0 <= i < |QuStates.GateOperators| && QuStates.GateOperators[i] == op.value;
      assert QuStates.GateTypes[i + 1].name == n;
    }
  }

  /** UNDEFINED, the name a type change writes for an unknown code, has no operator. */
  lemma UndefinedHasNoOperator()
    ensures Lookup(QuStates.GateOperators, "UNDEFINED").None?
  {
    QuStates.OperatorNamesFollowTypes();
    QuStates.GateTypeNamesDistinct();
    forall i | 0 <= i < |QuStates.GateOperators|
      ensures QuStates.GateOperators[i].name != "UNDEFINED"
    {
      assert QuStates.GateOperators[i].name == QuStates.GateTypes[i + 1].name;
    }
  }

  /**
   * A request step succeeds exactly under a single-qubit gate: the installed
   * operator is 2x2 iff its gate code is below 0x40.
   */
  lemma StepSucceedsIffSingleQubit(n: string)
    requires Lookup(QuStates.GateOperators, n).Some?
    ensures Lookup(QuStates.GateTypes, n).Some?
    ensures QuStates.IsSquare(Lookup(QuStates.GateOperators, n).value.value, 2)
            <==> Lookup(QuStates.GateTypes, n).value.value < 0x40
  {
    OperatorHasGateType(n);
    QuStates.GateTypeCodesDistinct();
    var op := Lookup(QuStates.GateOperators, n).value;
    var i :| 0 <= i < |QuStates.GateOperators| && QuStates.GateOperators[i] == op;
    QuStates.OperatorShapes(i);
    var t := Lookup(QuStates.GateTypes, n).value;
    assert ValueOf(QuStates.GateTypes, n) == Some(t.value);
    var j :| 0 <= j < |QuStates.GateTypes| && QuStates.GateTypes[j] == t;
    assert 0 <= t.value;
    var d := QuStates.Pow2(QuStates.Arity(t.value));
    assert QuStates.IsSquare(op.value, d);
    if t.value < 0x40 {
      assert QuStates.Arity(t.value) == 1;
    } else {
      assert QuStates.Arity(t.value) >= 2;
    }
  }
}
