/**
 * The monitor: a PC that polls the last tile of each qubit line and shows the
 * qubits as Bloch spheres. Modelled here is what it does apart from drawing:
 * finding its serial ports, the request schedule with its miss counters, the
 * per-sphere display state the responses update, and the gating of gate-type
 * change requests.
 *
 * Each qubit's port is modelled by the bytes the monitor wrote to it.
 */
module StateVectorPlot {
  import opened Wrappers
  import opened MpyEnum
  import Text
  import QuStates
  import CommUtil

  type Byte = CommUtil.Byte

  /** Why the monitor raised. */
  datatype PlotError =
    | ValueError       // a sphere count outside 1..4, or `int()` of a port-name suffix that is not a number
    | NotConnected     // no FT4232HL bridge among the serial ports
    | AttributeError   // `eval('GateTypes.' + item)` for an item that is no gate type
    | IndexError       // a combo-box index without a port

  // ---------------------------------------------------------------------------
  // Serial ports

  /** One entry of `serial.tools.list_ports.comports()`. */
  datatype PortInfo = PortInfo(vid: int, pid: int, name: string)

  /** The FT4232HL bridge: VID:PID 0403:6011. */
  predicate IsBridge(p: PortInfo) {
    p.vid == 1027 && p.pid == 24593
  }

  /** What a port contributes to the search: nothing, its COM number, or the ValueError of `int()`. */
  function PortNumber(p: PortInfo): (r: Result<Option<nat>, PlotError>)
  {
    if !IsBridge(p) then Ok(None)
    else
      var k := Text.Find(p.name, "COM");
      if k == -1 then Ok(None)
      else
        match Text.ParseInt(p.name[k + 3..])
        case None => Err(ValueError)
        case Some(n) => Ok(Some(n))
  }

  /** The running minimum of `getWinInitCommPort` over the ports still to visit; `None` stands for infinity. */
  function LeastPort(ports: seq<PortInfo>, least: Option<nat>): (r: Result<Option<nat>, PlotError>)
  {
    if ports == [] then Ok(least)
    else
      match PortNumber(ports[0])
      case Err(e) => Err(e)
      case Ok(None) => LeastPort(ports[1..], least)
      case Ok(Some(n)) => LeastPort(ports[1..], if least.None? || n < least.value then Some(n) else least)
  }

  /**
   * The search raises iff some bridge port's suffix is not a number; otherwise
   * it finds the least COM number of the bridge ports, or infinity when there
   * is none.
   */
  lemma {:induction false} LeastPortIsLeast(ports: seq<PortInfo>, least: Option<nat>)
    ensures var r := LeastPort(ports, least);
      && (r.Err? <==> exists i :: 0 <= i < |ports| && PortNumber(ports[i]).Err?)
      && (r == Ok(None) <==> least.None? && forall i :: 0 <= i < |ports| ==> PortNumber(ports[i]) == Ok(None))
      && (r.Ok? && r.value.Some? ==>
            && (least == r.value || exists i :: 0 <= i < |ports| && PortNumber(ports[i]) == Ok(r.value))
            && (least.Some? ==> r.value.value <= least.value)
            && forall i :: 0 <= i < |ports| && PortNumber(ports[i]).Ok? && PortNumber(ports[i]).value.Some? ==>
                 r.value.value <= PortNumber(ports[i]).value.value)
  {
    if ports != [] {
      var rest := ports[1..];
      assert forall i :: 0 <= i < |rest| ==> rest[i] == ports[i + 1];
      var pn := PortNumber(ports[0]);
      var next := if pn.Ok? && pn.value.Some? && (least.None? || pn.value.value < least.value) then pn.value else least;
      LeastPortIsLeast(rest, next);
      if PortNumber(ports[0]).Ok? {
        assert LeastPort(ports, least) == LeastPort(rest, next);
        forall i | 0 < i < |ports| ensures PortNumber(ports[i]) == PortNumber(rest[i - 1]) {
        }
      }
    }
  }

  /** `getWinInitCommPort`: the least COM number among the bridge's ports, or `None` for infinity. */
  method WinInitCommPort(ports: seq<PortInfo>) returns (r: Result<Option<nat>, PlotError>)
    ensures r == LeastPort(ports, None)
  {
    var least: Option<nat> := None;
    for i := 0 to |ports|
      invariant LeastPort(ports[i..], least) == LeastPort(ports, None)
    {
      assert ports[i..][1..] == ports[i + 1..];
      var p := ports[i];
      if p.vid == 1027 && p.pid == 24593 {
        var k := Text.Find(p.name, "COM");
        if k != -1 {
          var n := Text.ParseInt(p.name[k + 3..]);
          if n.None? {
            return Err(ValueError);
          }
          if least.None? || n.value < least.value {
            least := Some(n.value);
          }
        }
      }
    }
    return Ok(least);
  }

  /** The port of qubit i: the bridge's ports counted down from base + 3, so qubit 0 gets the last one. */
  function PortName(base: nat, i: nat): string {
    "COM" + Text.IntToString(base + 4 - i - 1)
  }

  /** Different qubits are given different ports. */
  lemma PortNamesDistinct(base: nat, i: nat, j: nat)
    requires PortName(base, i) == PortName(base, j)
    ensures i == j
  {
    var a, b := Text.IntToString(base + 4 - i - 1), Text.IntToString(base + 4 - j - 1);
    assert a == PortName(base, i)[3..] && b == PortName(base, j)[3..];
    Text.IntToStringInjective(base + 4 - i - 1, base + 4 - j - 1);
  }

  /**
   * The ports `main` opens: none when communication is not required; the
   * bridge must be present otherwise, and qubit i gets `PortName(base, i)`.
   */
  method OpenPorts(base: Option<nat>, qubits: nat, commRequired: bool) returns (r: Result<seq<string>, PlotError>)
    ensures !commRequired ==> r == Ok([])
    ensures commRequired ==> (r.Err? <==> base.None?)
    ensures r.Err? ==> r.error == NotConnected
    ensures commRequired && r.Ok? ==>
      |r.value| == qubits && forall i :: 0 <= i < qubits ==> r.value[i] == PortName(base.value, i)
  {
    if !commRequired {
      return Ok([]);
    }
    if base.None? {
      return Err(NotConnected);
    }
    var names: seq<string> := [];
    for i := 0 to qubits
      invariant |names| == i && forall j :: 0 <= j < i ==> names[j] == PortName(base.value, j)
    {
      names := names + [PortName(base.value, i)];
    }
    return Ok(names);
  }

  // ---------------------------------------------------------------------------
  // The plot's display state

  /** A stored state vector: angles, or the NaN pair of a sphere with no input. */
  datatype Vector = Angles(theta: real, phi: real) | NotANumber

  /**
   * The component type a port shows: the member `GateTypes.UNDEFINED`, or the
   * integer code a response carried. A member never equals an integer.
   */
  datatype Shown = UndefinedMember | Code(code: int)

  /** The class attributes `_state_vectors` and `_hide_vector`: one pair of lists that every plot appends to. */
  class PlotLists {
    var vectors: seq<Vector>
    var hideVector: seq<bool>

    constructor ()
      ensures vectors == [] && hideVector == []
    {
      vectors, hideVector := [], [];
    }
  }

  /** `StateVectorBlochPlot` without its figure, axes and widgets. */
  class StateVectorBlochPlot {
    const qubits: nat
    const lists: PlotLists
    var componentTypes: seq<Shown>
    /** The text each combo box shows. */
    var comboText: seq<string>
    var multiQubitEnabled: bool

    /**
     * The constructor for 1 to 4 spheres: one (0, 0) vector and one visible flag
     * appended per sphere, then `zeroVector(i)` for i below the sphere count,
     * which on lists that were not empty zeroes the first plot's spheres, not the
     * new ones. The multi-qubit button starts toggled off.
     */
    constructor (n: nat, shared: PlotLists)
      requires 1 <= n <= 4
      modifies shared
      ensures qubits == n && lists == shared
      ensures |shared.vectors| == |old(shared.vectors)| + n && |shared.hideVector| == |old(shared.hideVector)| + n
      ensures forall i :: 0 <= i < |shared.vectors| ==>
        shared.vectors[i] == (if i < n then NotANumber else if i < |old(shared.vectors)| then old(shared.vectors[i]) else Angles(0.0, 0.0))
      ensures forall i :: 0 <= i < |shared.hideVector| ==>
        shared.hideVector[i] == (if i < n then true else if i < |old(shared.hideVector)| then old(shared.hideVector[i]) else false)
      ensures componentTypes == seq(n, i => UndefinedMember) && comboText == seq(n, i => "")
      ensures !multiQubitEnabled
    {
      qubits, lists := n, shared;
      componentTypes, comboText := seq(n, i => UndefinedMember), seq(n, i => "");
      multiQubitEnabled := false;
      new;
      var v0, h0 := shared.vectors, shared.hideVector;
      for i := 0 to n
        invariant |shared.vectors| == |v0| + i && |shared.hideVector| == |h0| + i
        invariant forall j :: 0 <= j < |shared.vectors| ==>
          shared.vectors[j] == (if j < i then NotANumber else if j < |v0| then v0[j] else Angles(0.0, 0.0))
        invariant forall j :: 0 <= j < |shared.hideVector| ==>
          shared.hideVector[j] == (if j < i then true else if j < |h0| then h0[j] else false)
        invariant componentTypes == seq(n, i => UndefinedMember) && comboText == seq(n, i => "")
        invariant !multiQubitEnabled
      {
        shared.vectors := shared.vectors + [Angles(0.0, 0.0)];
        shared.hideVector := shared.hideVector + [false];
        ZeroVector(i);
      }
    }

    /** `updateStateVector(v, i)`: sphere i shows v again; no other sphere changes. */
    method UpdateStateVector(v: Vector, index: nat)
      requires index < |lists.vectors| && index < |lists.hideVector|
      modifies lists
      ensures lists.vectors == old(lists.vectors)[index := v] && lists.hideVector == old(lists.hideVector)[index := false]
    {
      lists.hideVector := lists.hideVector[index := false];
      lists.vectors := lists.vectors[index := v];
    }

    /** `zeroVector(i)`: sphere i is hidden and holds the NaN pair; no other sphere changes. */
    method ZeroVector(index: nat)
      requires index < |lists.vectors| && index < |lists.hideVector|
      modifies lists
      ensures lists.vectors == old(lists.vectors)[index := NotANumber] && lists.hideVector == old(lists.hideVector)[index := true]
    {
      lists.hideVector := lists.hideVector[index := true];
      lists.vectors := lists.vectors[index := NotANumber];
    }

    /** The multi-qubit button. */
    method ToggleMultiQubit()
      modifies this
      ensures multiQubitEnabled == !old(multiQubitEnabled)
      ensures componentTypes == old(componentTypes) && comboText == old(comboText)
    {
      multiQubitEnabled := !multiQubitEnabled;
    }
  }

  /** The constructor's range check: fewer than one or more than four spheres raise. */
  method NewPlot(n: int, shared: PlotLists) returns (r: Result<StateVectorBlochPlot, PlotError>)
    modifies shared
    ensures r.Ok? <==> 1 <= n <= 4
    ensures r.Err? ==> r.error == ValueError && shared.vectors == old(shared.vectors) && shared.hideVector == old(shared.hideVector)
    ensures r.Ok? ==>
      fresh(r.value) && r.value.qubits == n && r.value.lists == shared
      && |shared.vectors| == |old(shared.vectors)| + n && |shared.hideVector| == |old(shared.hideVector)| + n
  {
    if n < 1 || n > 4 {
      return Err(ValueError);
    }
    var plot := new StateVectorBlochPlot(n, shared);
    return Ok(plot);
  }

  // ---------------------------------------------------------------------------
  // The request schedule

  /** Ticks that send a state request: the even ones. */
  predicate StateTick(tick: nat) {
    tick % 2 == 0
  }

  /** Ticks that send a component-type request: those one past a multiple of four. */
  predicate TypeTick(tick: nat) {
    tick % 4 == 1
  }

  /** No tick sends both requests to a port, and state ticks alternate. */
  lemma TicksExclusive(tick: nat)
    ensures !(StateTick(tick) && TypeTick(tick))
    ensures StateTick(tick + 1) <==> !StateTick(tick)
  {
  }

  const TYPE_REQUEST_FRAME: seq<Byte> := CommUtil.SYNC + CommUtil.TYPE_REQUEST

  /** What the monitor holds about one qubit: both miss counters, the port's output, and the sphere's display state. */
  datatype Sphere = Sphere(miss: nat, typeMiss: nat, sent: seq<Byte>, vector: Vector, hidden: bool, shown: Shown, combo: string)

  /** One port's share of a pass of `requestRoutine`. */
  function PortTick(tick: nat, s: Sphere): Sphere {
    var s1 :=
      if !StateTick(tick) then s
      else if s.miss >= 5 then s.(sent := s.sent + CommUtil.STATE_REQUEST_FRAME, vector := NotANumber, hidden := true, shown := UndefinedMember)
      else s.(sent := s.sent + CommUtil.STATE_REQUEST_FRAME, miss := s.miss + 1);
    if !TypeTick(tick) then s1
    else if s1.typeMiss >= 3 then s1.(sent := s1.sent + TYPE_REQUEST_FRAME, combo := "", shown := UndefinedMember)
    else s1.(sent := s1.sent + TYPE_REQUEST_FRAME, typeMiss := s1.typeMiss + 1)
  }

  /**
   * A tick writes one request frame or none, keeps both counters within their
   * caps, counts one more miss per unanswered request below the cap, and at
   * the cap resets the display instead.
   */
  lemma PortTickBounds(tick: nat, s: Sphere)
    requires s.miss <= 5 && s.typeMiss <= 3
    ensures var t := PortTick(tick, s);
      && t.miss <= 5 && t.typeMiss <= 3
      && t.sent == s.sent + (if StateTick(tick) then CommUtil.STATE_REQUEST_FRAME else if TypeTick(tick) then TYPE_REQUEST_FRAME else [])
      && (StateTick(tick) ==> t.miss == (if s.miss == 5 then 5 else s.miss + 1) && t.typeMiss == s.typeMiss)
      && (StateTick(tick) && s.miss == 5 ==> t.hidden && t.vector == NotANumber && t.shown == UndefinedMember)
      && (StateTick(tick) && s.miss < 5 ==> t.hidden == s.hidden && t.vector == s.vector && t.shown == s.shown)
      && (TypeTick(tick) ==> t.typeMiss == (if s.typeMiss == 3 then 3 else s.typeMiss + 1) && t.miss == s.miss)
      && (TypeTick(tick) && s.typeMiss == 3 ==> t.combo == "" && t.shown == UndefinedMember)
      && (TypeTick(tick) && s.typeMiss < 3 ==> t.combo == s.combo && t.shown == s.shown)
      && (!StateTick(tick) && !TypeTick(tick) ==> t == s)
  {
    TicksExclusive(tick);
  }

  /** k ticks without any response, from tick t. */
  function SilentTicks(t: nat, s: Sphere, k: nat): Sphere
    decreases k
  {
    if k == 0 then s else SilentTicks(t + 1, PortTick(t, s), k - 1)
  }

  /** Once hidden, a sphere stays hidden while no response comes. */
  lemma {:induction false} HiddenStays(t: nat, s: Sphere, k: nat)
    requires s.hidden
    ensures SilentTicks(t, s, k).hidden
    decreases k
  {
    if k > 0 {
      HiddenStays(t + 1, PortTick(t, s), k - 1);
    }
  }

  /** What one silent tick does to the state-request counter, and that state ticks alternate. */
  lemma MissStep(t: nat, s: Sphere)
    requires s.miss <= 5 && s.typeMiss <= 3
    ensures var n := PortTick(t, s);
      && n.miss <= 5 && n.typeMiss <= 3
      && (StateTick(t) && s.miss == 5 ==> n.hidden)
      && (StateTick(t) && s.miss < 5 ==> n.miss == s.miss + 1)
      && (!StateTick(t) ==> n.miss == s.miss)
      && (StateTick(t + 1) <==> !StateTick(t))
  {
    PortTickBounds(t, s);
    TicksExclusive(t);
  }

  /**
   * A silent line is noticed: within thirteen ticks of any reachable state the
   * sphere is hidden (its counter reaches five, then a state tick resets it).
   */
  lemma {:induction false} SilenceHidesSphere(t: nat, s: Sphere, k: nat)
    requires s.miss <= 5 && s.typeMiss <= 3
    requires k >= 2 * (6 - s.miss) + (if StateTick(t) then 0 else 1)
    ensures SilentTicks(t, s, k).hidden
    decreases k
  {
    var next := PortTick(t, s);
    MissStep(t, s);
    if StateTick(t) && s.miss == 5 {
      HiddenStays(t + 1, next, k - 1);
    } else {
      SilenceHidesSphere(t + 1, next, k - 1);
    }
  }

  // ---------------------------------------------------------------------------
  // The monitor's request thread and callbacks

  /** The state `main` keeps for its request thread and callbacks. */
  class Monitor {
    const plot: StateVectorBlochPlot
    /** The number of open ports: one per qubit, or none without communication. */
    const ports: nat
    var missCount: seq<nat>
    var typeMissCount: seq<nat>
    /** The bytes written to each port. */
    var sent: seq<seq<Byte>>
    var tick: nat

    ghost predicate Valid()
      reads this, plot, plot.lists
    {
      && |missCount| == ports && |typeMissCount| == ports && |sent| == ports
      && ports <= plot.qubits && plot.qubits <= |plot.lists.vectors| && |plot.lists.hideVector| == |plot.lists.vectors|
      && |plot.componentTypes| == plot.qubits && |plot.comboText| == plot.qubits
      && (forall i :: 0 <= i < ports ==> missCount[i] <= 5)
      && (forall i :: 0 <= i < ports ==> typeMissCount[i] <= 3)
    }

    /** Everything the monitor holds about qubit i. */
    function At(i: nat): Sphere
      requires i < ports && Valid()
      reads this, plot, plot.lists
    {
      Sphere(missCount[i], typeMissCount[i], sent[i], plot.lists.vectors[i], plot.lists.hideVector[i], plot.componentTypes[i], plot.comboText[i])
    }

    constructor (p: StateVectorBlochPlot, n: nat)
      requires n <= p.qubits <= |p.lists.vectors| && |p.lists.hideVector| == |p.lists.vectors|
      requires |p.componentTypes| == p.qubits && |p.comboText| == p.qubits
      ensures plot == p && ports == n && tick == 0 && Valid()
      ensures missCount == seq(n, i => 0) && typeMissCount == seq(n, i => 0) && sent == seq(n, i => [])
    {
      plot, ports := p, n;
      missCount, typeMissCount, sent := seq(n, i => 0), seq(n, i => 0), seq(n, i => []);
      tick := 0;
    }

    /** One port's share of a pass of `requestRoutine`. */
    method TickPort(i: nat)
      requires Valid() && i < ports
      modifies this, plot, plot.lists
      ensures Valid() && tick == old(tick)
      ensures At(i) == PortTick(tick, old(At(i)))
      ensures forall j :: 0 <= j < ports && j != i ==> At(j) == old(At(j))
      ensures |plot.lists.vectors| == old(|plot.lists.vectors|) && forall j :: ports <= j < |plot.lists.vectors| ==>
        plot.lists.vectors[j] == old(plot.lists.vectors[j]) && plot.lists.hideVector[j] == old(plot.lists.hideVector[j])
      ensures forall j :: ports <= j < plot.qubits ==>
        plot.componentTypes[j] == old(plot.componentTypes[j]) && plot.comboText[j] == old(plot.comboText[j])
      ensures plot.multiQubitEnabled == old(plot.multiQubitEnabled)
    {
      PortTickBounds(tick, At(i));
      if tick % 2 == 0 {
        sent := sent[i := sent[i] + CommUtil.STATE_REQUEST_FRAME];
        if missCount[i] >= 5 {
          SetDefaultThetaPhi(i);
        } else {
          missCount := missCount[i := missCount[i] + 1];
        }
      }
      if tick % 4 == 1 {
        sent := sent[i := sent[i] + TYPE_REQUEST_FRAME];
        if typeMissCount[i] >= 3 {
          plot.comboText := plot.comboText[i := ""];
          plot.componentTypes := plot.componentTypes[i := UndefinedMember];
        } else {
          typeMissCount := typeMissCount[i := typeMissCount[i] + 1];
        }
      }
    }

    /** `SetDefaultThetaPhi(i)`: sphere i is zeroed and its type becomes UNDEFINED. */
    method SetDefaultThetaPhi(i: nat)
      requires Valid() && i < ports
      modifies plot, plot.lists
      ensures Valid()
      ensures plot.lists.vectors == old(plot.lists.vectors)[i := NotANumber] && plot.lists.hideVector == old(plot.lists.hideVector)[i := true]
      ensures plot.componentTypes == old(plot.componentTypes)[i := UndefinedMember] && plot.comboText == old(plot.comboText)
      ensures plot.multiQubitEnabled == old(plot.multiQubitEnabled)
    {
      plot.ZeroVector(i);
      plot.componentTypes := plot.componentTypes[i := UndefinedMember];
    }

    /** One pass of `requestRoutine`'s loop: every port in turn, then the next tick. */
    method Tick()
      requires Valid()
      modifies this, plot, plot.lists
      ensures Valid() && tick == old(tick) + 1
      ensures forall i :: 0 <= i < ports ==> At(i) == PortTick(old(tick), old(At(i)))
      ensures |plot.lists.vectors| == old(|plot.lists.vectors|) && forall j :: ports <= j < |plot.lists.vectors| ==>
        plot.lists.vectors[j] == old(plot.lists.vectors[j]) && plot.lists.hideVector[j] == old(plot.lists.hideVector[j])
      ensures forall j :: ports <= j < plot.qubits ==>
        plot.componentTypes[j] == old(plot.componentTypes[j]) && plot.comboText[j] == old(plot.comboText[j])
      ensures plot.multiQubitEnabled == old(plot.multiQubitEnabled)
    {
      for i := 0 to ports
        invariant Valid() && tick == old(tick)
        invariant forall j :: 0 <= j < i ==> At(j) == PortTick(tick, old(At(j)))
        invariant forall j :: i <= j < ports ==> At(j) == old(At(j))
        invariant |plot.lists.vectors| == old(|plot.lists.vectors|) && forall j :: ports <= j < |plot.lists.vectors| ==>
          plot.lists.vectors[j] == old(plot.lists.vectors[j]) && plot.lists.hideVector[j] == old(plot.lists.hideVector[j])
        invariant forall j :: ports <= j < plot.qubits ==>
          plot.componentTypes[j] == old(plot.componentTypes[j]) && plot.comboText[j] == old(plot.comboText[j])
        invariant plot.multiQubitEnabled == old(plot.multiQubitEnabled)
      {
        TickPort(i);
      }
      tick := tick + 1;
    }

    /**
     * `updateInputStateCallback`: a state response for port i clears its miss
     * count and shows the angles.
     */
    method InputStateArrived(theta: real, phi: real, i: nat)
      requires Valid() && i < ports
      modifies this, plot.lists
      ensures Valid() && tick == old(tick)
      ensures At(i) == old(At(i)).(miss := 0, vector := Angles(theta, phi), hidden := false)
      ensures forall j :: 0 <= j < ports && j != i ==> At(j) == old(At(j))
    {
      missCount := missCount[i := 0];
      plot.UpdateStateVector(Angles(theta, phi), i);
    }

    /**
     * `updateGateTypeCallback`: a type response for port i clears its miss
     * count; an unchanged type stops there, otherwise the type is stored and
     * the combo box shows its name when the code has one.
     */
    method GateTypeArrived(typeId: int, i: nat)
      requires Valid() && i < ports
      modifies this, plot
      ensures Valid() && tick == old(tick)
      ensures At(i) == old(At(i)).(typeMiss := 0, shown := Code(typeId),
        combo := if old(At(i)).shown != Code(typeId) && NameOf(QuStates.GateTypes, typeId).Some?
                 then NameOf(QuStates.GateTypes, typeId).value else old(At(i)).combo)
      ensures forall j :: 0 <= j < ports && j != i ==> At(j) == old(At(j))
      ensures plot.multiQubitEnabled == old(plot.multiQubitEnabled)
    {
      typeMissCount := typeMissCount[i := 0];
      if plot.componentTypes[i] == Code(typeId) {
        return;
      }
      plot.componentTypes := plot.componentTypes[i := Code(typeId)];
      var name := NameOf(QuStates.GateTypes, typeId);
      if name.Some? {
        plot.comboText := plot.comboText[i := name.value];
      }
    }

    /**
     * `onComboBoxSelect(i, item)`: with multi-qubit gates disabled, selecting
     * one sends nothing and marks the port UNDEFINED so the tile's next type
     * response shows again; otherwise one change request for the item's code
     * goes to port i.
     */
    method Select(i: nat, item: string) returns (r: Result<(), PlotError>)
      requires Valid() && i < plot.qubits
      modifies this, plot
      ensures Valid() && tick == old(tick)
      ensures var multi := !plot.multiQubitEnabled && item in MULTI_QUBIT_GATES;
        var member := Lookup(QuStates.GateTypes, item);
        && (multi ==> r.Ok? && sent == old(sent) && plot.componentTypes == old(plot.componentTypes)[i := UndefinedMember])
        && (!multi ==> plot.componentTypes == old(plot.componentTypes))
        && (!multi && member.None? ==> r == Err(AttributeError) && sent == old(sent))
        && (!multi && member.Some? && i >= ports ==> r == Err(IndexError) && sent == old(sent))
        && (!multi && member.Some? && i < ports ==>
              && 0 <= member.value.value < 256 && r.Ok?
              && sent == old(sent)[i := old(sent[i]) + CommUtil.SYNC + CommUtil.TypeChangeRequest(member.value.value)])
      ensures missCount == old(missCount) && typeMissCount == old(typeMissCount)
      ensures plot.comboText == old(plot.comboText) && plot.multiQubitEnabled == old(plot.multiQubitEnabled)
    {
      if !plot.multiQubitEnabled && item in MULTI_QUBIT_GATES {
        plot.componentTypes := plot.componentTypes[i := UndefinedMember];
        return Ok(());
      }
      var member := Lookup(QuStates.GateTypes, item);
      if member.None? {
        return Err(AttributeError);
      }
      if i >= ports {
        return Err(IndexError);
      }
      GateCodeIsByte(item);
      sent := sent[i := sent[i] + CommUtil.SYNC + CommUtil.TypeChangeRequest(member.value.value)];
      r := Ok(());
    }
  }

  /** The gates the monitor refuses to assign while multi-qubit assignment is disabled. */
  const MULTI_QUBIT_GATES: seq<string> := ["CONTROLLED_NOT", "CONTROLLED_Z", "SWAP", "TOFFOLI"]

  /** Every gate code fits the byte of a change request, so selecting a gate never raises there. */
  lemma GateCodeIsByte(item: string)
    requires Lookup(QuStates.GateTypes, item).Some?
    ensures 0 <= Lookup(QuStates.GateTypes, item).value.value < 256
  {
    QuStates.GateTypeCodesDistinct();
  }

  /** The gates refused are exactly the gates of more than one qubit. */
  lemma MultiQubitGatesAreWide(item: string)
    requires Lookup(QuStates.GateTypes, item).Some?
    ensures item in MULTI_QUBIT_GATES <==> Lookup(QuStates.GateTypes, item).value.value >= 0x40
  {
    var m := Lookup(QuStates.GateTypes, item).value;
    var i :| 0 <= i < |QuStates.GateTypes| && QuStates.GateTypes[i] == m;
    if i < 7 {
      NarrowGatesLow(i);
    } else if i < 14 {
      NarrowGatesHigh(i);
    } else {
      WideGates(i);
    }
  }

  lemma NarrowGatesLow(i: nat)
    requires i < 7
    ensures QuStates.GateTypes[i].name !in MULTI_QUBIT_GATES && QuStates.GateTypes[i].value < 0x40
  {
  }

  lemma NarrowGatesHigh(i: nat)
    requires 7 <= i < 14
    ensures QuStates.GateTypes[i].name !in MULTI_QUBIT_GATES && QuStates.GateTypes[i].value < 0x40
  {
  }

  lemma WideGates(i: nat)
    requires 14 <= i < |QuStates.GateTypes|
    ensures QuStates.GateTypes[i].name in MULTI_QUBIT_GATES && QuStates.GateTypes[i].value >= 0x40
  {
  }
}
