/**
 * The small `Enum` emulation the tile uses in place of Python's `enum` package:
 * an object whose keyword arguments become `EnumValue` members, kept in an
 * insertion-ordered dictionary and also set as attributes.
 */
module MpyEnum {
  import opened Wrappers

  /** `Enum.EnumValue`: one member's name and value. */
  datatype EnumValue<V> = EnumValue(name: string, value: V)

  /** Keyword names are unique in a Python call, so the dictionary has one entry per keyword. */
  ghost predicate DistinctNames<V>(kwargs: seq<(string, V)>) {
    forall i, j :: 0 <= i < j < |kwargs| ==> kwargs[i].0 != kwargs[j].0
  }

  ghost predicate DistinctMemberNames<V>(members: seq<EnumValue<V>>) {
    forall i, j :: 0 <= i < j < |members| ==> members[i].name != members[j].name
  }

  ghost predicate DistinctValues<V>(members: seq<EnumValue<V>>) {
    forall i, j :: 0 <= i < j < |members| ==> members[i].value != members[j].value
  }

  /**
   * `_members[n]`, which is also the attribute `setattr` created; `None` stands
   * for the KeyError (or AttributeError) of an unknown name.
   */
  function Lookup<V>(members: seq<EnumValue<V>>, n: string): (r: Option<EnumValue<V>>)
    ensures r.None? <==> forall i :: 0 <= i < |members| ==> members[i].name != n
    ensures r.Some? ==> r.value in members && r.value.name == n
    ensures r.Some? && DistinctMemberNames(members) ==>
              forall i :: 0 <= i < |members| && members[i].name == n ==> members[i] == r.value
  {
    if members == [] then None
    else if members[0].name == n then Some(members[0])
    else Lookup(members[1..], n)
  }

  /** `value(n)`: the stored value of member n, or `None` for the KeyError. */
  function ValueOf<V>(members: seq<EnumValue<V>>, n: string): Option<V> {
    match Lookup(members, n)
    case Some(m) => Some(m.value)
    case None => None
  }

  /** `name(v)`: the first member, in insertion order, whose value equals v. */
  function NameOf<V(==)>(members: seq<EnumValue<V>>, v: V): (r: Option<string>)
    ensures r.None? <==> forall i :: 0 <= i < |members| ==> members[i].value != v
    ensures r.Some? ==>
              exists i :: 0 <= i < |members| && members[i] == EnumValue(r.value, v)
                          && forall j :: 0 <= j < i ==> members[j].value != v
  {
    if members == [] then None
    else if members[0].value == v then Some(members[0].name)
    else
      var r := NameOf(members[1..], v);
      if r.Some? then
        ghost var k :| 0 <= k < |members| - 1 && members[1..][k] == EnumValue(r.value, v)
                       && forall j :: 0 <= j < k ==> members[1..][j].value != v;
        assert members[k + 1] == EnumValue(r.value, v);
        r
      else r
  }

  /** What `Enum(**kwargs)` stores: one member per keyword, in keyword order. */
  function MembersOf<V>(kwargs: seq<(string, V)>): seq<EnumValue<V>> {
    seq(|kwargs|, i requires 0 <= i < |kwargs| => EnumValue(kwargs[i].0, kwargs[i].1))
  }

  /** If `name(v)` returns n, then `value(n)` is v. */
  lemma {:induction false} ValueOfNameOf<V>(members: seq<EnumValue<V>>, v: V)
    requires DistinctMemberNames(members)
    requires NameOf(members, v).Some?
    ensures ValueOf(members, NameOf(members, v).value) == Some(v)
  {
    var n := NameOf(members, v).value;
    var i :| 0 <= i < |members| && members[i] == EnumValue(n, v);
    assert Lookup(members, n).value == members[i];
  }

  /** With distinct values, `name(value(n))` is n for every member n. */
  lemma {:induction false} NameOfValueOf<V>(members: seq<EnumValue<V>>, n: string)
    requires DistinctMemberNames(members) && DistinctValues(members)
    requires ValueOf(members, n).Some?
    ensures NameOf(members, ValueOf(members, n).value) == Some(n)
  {
    var m := Lookup(members, n).value;
    var i :| 0 <= i < |members| && members[i] == m;
    var r := NameOf(members, m.value);
    var k :| 0 <= k < |members| && members[k] == EnumValue(r.value, m.value)
             && forall j :: 0 <= j < k ==> members[j].value != m.value;
    assert members[k].value == members[i].value;
    assert k == i;
  }

  /** An `Enum` object: its `_members` dictionary in insertion order. */
  class Enum<V(==)> {
    var members: seq<EnumValue<V>>

    ghost predicate Valid()
      reads this
    {
      DistinctMemberNames(members)
    }

    /** Each keyword becomes an attribute and a `_members` entry, in keyword order. */
    constructor (kwargs: seq<(string, V)>)
      requires DistinctNames(kwargs)
      ensures Valid()
      ensures members == MembersOf(kwargs)
    {
      members := [];
      new;
      var k := 0;
      while k < |kwargs|
        invariant 0 <= k <= |kwargs|
        invariant members == MembersOf(kwargs[..k])
      {
        members := members + [EnumValue(kwargs[k].0, kwargs[k].1)];
        k := k + 1;
        assert kwargs[..k] == kwargs[..k - 1] + [kwargs[k - 1]];
      }
      assert kwargs[..k] == kwargs;
    }

    /** `members()`: the dictionary the constructor built; no method changes it. */
    function Members(): seq<EnumValue<V>>
      reads this
    {
      members
    }

    function Name(v: V): Option<string>
      reads this
    {
      NameOf(members, v)
    }

    function Value(n: string): Option<V>
      reads this
    {
      ValueOf(members, n)
    }
  }

  /** On an `Enum` object, a value's `name` looks that value up again. */
  lemma EnumNameRoundTrip<V>(e: Enum<V>, v: V)
    requires e.Valid()
    requires e.Name(v).Some?
    ensures e.Value(e.Name(v).value) == Some(v)
  {
    ValueOfNameOf(e.members, v);
  }
}
