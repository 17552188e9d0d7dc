/**
 * The persistence backend behind the preferences: a flat table from key names
 * (such as "settings/auto_discovery") to typed values, read with a default for
 * a missing key and written one key at a time.
 */
module Preferences {

  /** The range of a C++ `unsigned int` on the platforms the client targets. */
  type UInt32 = n: nat | n < 0x1_0000_0000

  /** A value held under one key of the backend. */
  datatype Value =
    | BoolValue(b: bool)
    | StringValue(s: string)
    | UIntValue(n: UInt32)

  type Store = map<string, Value>

  /** The stored value for `key`, or `default` when the key was never written. */
  function ValueOr(store: Store, key: string, default: Value): (v: Value)
    ensures key in store ==> v == store[key]
    ensures key !in store ==> v == default
  {
    if key in store then store[key] else default
  }

  /** Reading a value as a boolean; a value of another kind reads as false. */
  function ToBool(v: Value): (b: bool)
    ensures v.BoolValue? ==> b == v.b
  {
    match v
    case BoolValue(x) => x
    case _ => false
  }

  /** Reading a value as a string; a value of another kind reads as "". */
  function ToString(v: Value): (s: string)
    ensures v.StringValue? ==> s == v.s
    ensures !v.StringValue? ==> s == ""
  {
    match v
    case StringValue(x) => x
    case _ => ""
  }

  /** Reading a value as an unsigned integer; a value of another kind reads as 0. */
  function ToUInt(v: Value): (n: UInt32)
    ensures v.UIntValue? ==> n == v.n
    ensures !v.UIntValue? ==> n == 0
  {
    match v
    case UIntValue(x) => x
    case _ => 0
  }

  /** A boolean preference: the stored flag, or `default` when absent. */
  function BoolPref(store: Store, key: string, default: bool): (r: bool)
    ensures key !in store ==> r == default
    ensures key in store && store[key].BoolValue? ==> r == store[key].b
  {
    ToBool(ValueOr(store, key, BoolValue(default)))
  }

  /** A string preference: the stored string, or `default` when absent. */
  function StringPref(store: Store, key: string, default: string): (r: string)
    ensures key !in store ==> r == default
    ensures key in store && store[key].StringValue? ==> r == store[key].s
  {
    ToString(ValueOr(store, key, StringValue(default)))
  }

  /** An unsigned preference: the stored number, or `default` when absent. */
  function UIntPref(store: Store, key: string, default: UInt32): (r: UInt32)
    ensures key !in store ==> r == default
    ensures key in store && store[key].UIntValue? ==> r == store[key].n
  {
    ToUInt(ValueOr(store, key, UIntValue(default)))
  }

  /** `s` and `t` hold the same entries under every key other than `key`. */
  ghost predicate AgreeExcept(s: Store, t: Store, key: string)
  {
    forall k :: k != key ==> (k in s <==> k in t) && (k in s ==> s[k] == t[k])
  }

  /** Writing one key leaves every other key's entry as it was. */
  lemma WriteAgreesExcept(store: Store, key: string, v: Value)
    ensures AgreeExcept(store[key := v], store, key)
    ensures ValueOr(store[key := v], key, v) == v
  {
  }

  /** What a writer stores under `key` is what a reader of `key` gets back. */
  lemma BoolPrefRoundTrip(store: Store, key: string, b: bool, default: bool)
    ensures BoolPref(store[key := BoolValue(b)], key, default) == b
  {
  }

  lemma StringPrefRoundTrip(store: Store, key: string, s: string, default: string)
    ensures StringPref(store[key := StringValue(s)], key, default) == s
  {
  }

  lemma UIntPrefRoundTrip(store: Store, key: string, n: UInt32, default: UInt32)
    ensures UIntPref(store[key := UIntValue(n)], key, default) == n
  {
  }

  /** Stores that agree on `key` give every reader of `key` the same answer. */
  lemma ReadsDependOnlyOnOwnKey(s: Store, t: Store, written: string, key: string, default: Value)
    requires AgreeExcept(s, t, written)
    requires key != written
    ensures ValueOr(s, key, default) == ValueOr(t, key, default)
  {
  }
}
