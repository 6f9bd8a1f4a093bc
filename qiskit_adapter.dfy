/**
 * A Qiskit-like adapter: a circuit is a list of registers, a register a number
 * of qubits and a name. Both lists are class attributes, so every circuit
 * shares one register list and every register one qubit list.
 */
module QiskitAdapter {
  import Text

  /** What `QuantumRegister.__init__` appends for each qubit: the class `QuantumBitState` itself. */
  datatype QubitEntry = QuantumBitStateClass

  /** The class attribute `QuantumRegister.qubits`. */
  class QubitList {
    var qubits: seq<QubitEntry>

    constructor ()
      ensures qubits == []
    {
      qubits := [];
    }
  }

  /** `str` of a register: its class name, the length of the shared qubit list, and its name in quotes. */
  function RegisterText(count: nat, name: string): (s: string)
  {
    "QuantumRegister(" + Text.NatToString(count) + ", '" + name + "')"
  }

  class QuantumRegister {
    const shared: QubitList
    var name: string

    /** `QuantumRegister(n, name='q')`: stores the name and appends n entries to the shared list. */
    constructor (n: nat, list: QubitList, name0: string := "q")
      modifies list
      ensures shared == list && name == name0
      ensures list.qubits == old(list.qubits) + seq(n, i => QuantumBitStateClass)
    {
      shared, name := list, name0;
      new;
      for i := 0 to n
        invariant shared == list && name == name0
        invariant list.qubits == old(list.qubits) + seq(i, j => QuantumBitStateClass)
      {
        list.qubits := list.qubits + [QuantumBitStateClass];
      }
    }

    /** `getNumQubit`: the qubits of every register made so far. */
    function NumQubit(): nat
      reads this, shared
    {
      |shared.qubits|
    }

    function Str(): string
      reads this, shared
    {
      RegisterText(NumQubit(), name)
    }
  }

  /** The class attribute `QuantumCircuit.registers`. */
  class RegisterList {
    var registers: seq<QuantumRegister>

    constructor ()
      ensures registers == []
    {
      registers := [];
    }
  }

  /** The texts of the registers, all of which share one qubit list. */
  function Texts(regs: seq<QuantumRegister>, count: nat): (t: seq<string>)
    reads set r | r in regs
    ensures |t| == |regs|
    ensures forall i :: 0 <= i < |regs| ==> t[i] == RegisterText(count, regs[i].name)
  {
    if regs == [] then []
    else Texts(regs[..|regs| - 1], count) + [RegisterText(count, regs[|regs| - 1].name)]
  }

  class QuantumCircuit {
    const shared: RegisterList

    constructor (list: RegisterList)
      ensures shared == list
    {
      shared := list;
    }

    /** `add_register`: the register goes at the end of the shared list; nothing else changes. */
    method AddRegister(register: QuantumRegister)
      modifies shared
      ensures shared.registers == old(shared.registers) + [register]
    {
      shared.registers := shared.registers + [register];
    }

    /** `str`: the registers' texts between brackets, separated by ", ". */
    method Str(qubits: QubitList) returns (s: string)
      requires forall i :: 0 <= i < |shared.registers| ==> shared.registers[i].shared == qubits
      ensures s == "[" + Text.Join(Texts(shared.registers, |qubits.qubits|), ", ") + "]"
    {
      var regs := shared.registers;
      var count := |qubits.qubits|;
      s := "[";
      for i := 0 to |regs|
        invariant s == "[" + Text.Join(Texts(regs[..i], count), ", ")
      {
        var t := regs[i].Str();
        TextsSnoc(regs, i, count);
        AppendPart(Texts(regs[..i], count), t, s);
        if i != 0 {
          s := s + ", ";
        }
        s := s + t;
      }
      assert regs[..|regs|] == regs;
      s := s + "]";
    }
  }

  /** Joining one more part adds the separator and the part, except after nothing. */
  lemma JoinSnoc(parts: seq<string>, sep: string, x: string)
    ensures Text.Join(parts + [x], sep) == if parts == [] then x else Text.Join(parts, sep) + sep + x
  {
    assert (parts + [x])[..|parts|] == parts;
  }

  /** One step of printing: the separator, then the next part. */
  lemma AppendPart(parts: seq<string>, x: string, s: string)
    requires s == "[" + Text.Join(parts, ", ")
    ensures (if parts != [] then s + ", " else s) + x == "[" + Text.Join(parts + [x], ", ")
  {
    JoinSnoc(parts, ", ", x);
  }

  /** The texts of one more register. */
  lemma TextsSnoc(regs: seq<QuantumRegister>, i: nat, count: nat)
    requires i < |regs|
    ensures Texts(regs[..i + 1], count) == Texts(regs[..i], count) + [RegisterText(count, regs[i].name)]
  {
    assert regs[..i + 1][..i] == regs[..i];
  }

  /**
   * Two registers made one after the other both count the qubits of both; the
   * first, made without a name, is called 'q'.
   */
  method TwoRegisters(list: QubitList, a: nat, b: nat) returns (first: QuantumRegister, second: QuantumRegister)
    modifies list
    ensures first.NumQubit() == second.NumQubit() == |old(list.qubits)| + a + b
    ensures first.name == "q" && second.name == "r"
  {
    first := new QuantumRegister(a, list);
    second := new QuantumRegister(b, list, "r");
  }
}
