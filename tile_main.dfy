/**
 * Start-up of a tile: the gate named in `gate.cfg` when there is one that a
 * tile can be built with, IDENTITY otherwise.
 */
module TileMain {
  import opened Wrappers
  import opened MpyEnum
  import Text
  import QuStates
  import CommUtil
  import QuTile

  /** `GateTypes.IDENTITY`, the fallback. */
  const Identity: EnumValue<int> := QuStates.GateTypes[1]

  /**
   * The gate the start-up script builds its tile with: the file's text is
   * upper-cased and looked up among the gate types; any failure (no file, no
   * such type, a type without an operator) falls back to IDENTITY.
   */
  function StartupGate(contents: Option<string>): (g: EnumValue<int>)
  {
    if contents.None? then Identity
    else
      match Lookup(QuStates.GateTypes, Text.Upper(contents.value))
      case None => Identity
      case Some(t) => if Lookup(QuStates.GateOperators, t.name).Some? then t else Identity
  }

  /** The chosen gate is a gate type a tile can always be built with. */
  lemma StartupGateBuilds(contents: Option<string>)
    ensures StartupGate(contents) in QuStates.GateTypes
    ensures Lookup(QuStates.GateOperators, StartupGate(contents).name).Some?
  {
    var g := StartupGate(contents);
    if g == Identity {
      assert QuStates.GateOperators[0].name == "IDENTITY";
    }
  }

  /** A gate name in any letter case selects that gate; one without an operator selects IDENTITY. */
  lemma StartupGateOfName(s: string, i: nat)
    requires i < |QuStates.GateTypes| && Text.Upper(s) == QuStates.GateTypes[i].name
    ensures QuStates.GateTypes[i].name != "UNDEFINED" ==> StartupGate(Some(s)) == QuStates.GateTypes[i]
    ensures QuStates.GateTypes[i].name == "UNDEFINED" ==> StartupGate(Some(s)) == Identity
  {
    QuStates.GateTypeCodesDistinct();
    QuStates.OperatorForEveryType();
    assert Lookup(QuStates.GateTypes, Text.Upper(s)) == Some(QuStates.GateTypes[i]);
  }

  /**
   * What a type change saves is what the next start-up builds: a known code
   * other than UNDEFINED's comes back as the same gate type; any other code
   * saves UNDEFINED, which starts the tile as IDENTITY.
   */
  lemma SavedGateIsRestored(typeId: int)
    ensures var g := StartupGate(Some(CommUtil.TypeName(typeId)));
      if NameOf(QuStates.GateTypes, typeId).Some? && typeId != 0 then g.value == typeId && g.name == CommUtil.TypeName(typeId)
      else g == Identity
  {
    var n := CommUtil.TypeName(typeId);
    TypeNameIsUndefined(typeId);
    if n == "UNDEFINED" {
      StartupGateOfName(n, 0);
    } else {
      var i :| 0 <= i < |QuStates.GateTypes| && QuStates.GateTypes[i] == EnumValue(n, typeId);
      NameIsUpper(i);
      Text.UpperOfUpper(n);
      StartupGateOfName(n, i);
    }
  }

  /** A code is saved as UNDEFINED exactly when it is no gate's code, or UNDEFINED's own. */
  lemma TypeNameIsUndefined(typeId: int)
    ensures CommUtil.TypeName(typeId) == "UNDEFINED" <==> NameOf(QuStates.GateTypes, typeId).None? || typeId == 0
  {
    QuStates.GateTypeLookupInverts("UNDEFINED", typeId);
    QuStates.GateTypeByName(0);
    QuStates.GateTypeLookupInverts("UNDEFINED", 0);
  }

  /** Gate names are written in capitals, so upper-casing the saved text keeps it. */
  lemma NameIsUpper(i: nat)
    requires i < |QuStates.GateTypes|
    ensures Text.IsUpper(QuStates.GateTypes[i].name)
  {
    if i < 6 {
      NamesUpperBelow(i);
    } else if i < 12 {
      NamesUpperMiddle(i);
    } else {
      NamesUpperAbove(i);
    }
  }

  lemma NamesUpperBelow(i: nat)
    requires i < 6
    ensures Text.IsUpper(QuStates.GateTypes[i].name)
  {
  }

  lemma NamesUpperMiddle(i: nat)
    requires 6 <= i < 12
    ensures Text.IsUpper(QuStates.GateTypes[i].name)
  {
  }

  lemma NamesUpperAbove(i: nat)
    requires 12 <= i < |QuStates.GateTypes|
    ensures Text.IsUpper(QuStates.GateTypes[i].name)
  {
  }

  /** The script's tile: built from `gate.cfg`, or from IDENTITY once that raised. */
  method Boot(contents: Option<string>, shared: CommUtil.Comm, initial: QuStates.QuantumBitState) returns (tile: QuTile.QuTile)
    modifies shared
    ensures fresh(tile) && tile.gateType == StartupGate(contents) && QuTile.Consistent(tile.gateType, tile.name, tile.operator)
    ensures tile.comm == shared && tile.outState == initial && !tile.requestRunning && !tile.serviceRunning
    ensures shared.hooks == CommUtil.Hooks(true, true, true)
  {
    var gate := Identity;
    if contents.Some? {
      var t := Lookup(QuStates.GateTypes, Text.Upper(contents.value));
      if t.Some? {
        gate := t.value;
      }
    }
    var r := QuTile.NewTile(gate, shared, initial);
    if r.Err? {
      StartupGateBuilds(None);
      r := QuTile.NewTile(Identity, shared, initial);
    }
    tile := r.value;
  }
}
