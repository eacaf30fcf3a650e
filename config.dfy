/**
 * The configuration store: a table from the composite key
 * `ns + "." + key` to a dynamically typed value, with an in-place
 * overwrite, a membership test and five typed getters.
 *
 * Go's `interface{}` values are the tagged union `Value`. The getters'
 * coercion is reduced to extracting the matching variant; every other
 * case is handed to the coercion library, which is not part of this model.
 */
module ConfigStore {
  import opened Wrappers

  /** Go's `int`: 64-bit two's complement. */
  newtype int64 = x: int | -0x8000_0000_0000_0000 <= x < 0x8000_0000_0000_0000

  /** The values callers store: bool, int, string, []string, map[string]string. */
  datatype Value =
    | BoolVal(b: bool)
    | IntVal(i: int64)
    | StrVal(s: string)
    | StrListVal(list: seq<string>)
    | StrMapVal(dict: map<string, string>)

  /**
   * What a typed getter yields: the stored value itself when it already
   * has the requested type, otherwise the raw lookup result (`None` for an
   * absent key) as handed to the coercion library.
   */
  datatype Coerced<T> = Exact(value: T) | Delegated(raw: Option<Value>)

  /** Go's `error` result: nil, or an error carrying a message. */
  datatype Outcome = Ok | Err(message: string)

  /** `formatKey`: the namespace, a literal ".", then the key, with no escaping. */
  function FormatKey(ns: string, key: string): (k: string)
    ensures |k| == |ns| + 1 + |key|
    ensures k[..|ns|] == ns && k[|ns|] == '.' && k[|ns| + 1..] == key
  {
    ns + "." + key
  }

  /**
   * Index of the first '.' in `s`, or `|s|` when there is none. The store
   * never splits a key; this function only serves to prove, in
   * `FormatKeyInjective`, when composite keys are unambiguous.
   */
  function IndexOfDot(s: string): (i: nat)
    ensures i <= |s|
    ensures forall j :: 0 <= j < i ==> s[j] != '.'
    ensures i < |s| ==> s[i] == '.'
  {
    if s == [] || s[0] == '.' then 0 else 1 + IndexOfDot(s[1..])
  }

  /**
   * In a composite key whose namespace has no '.', the first '.' is the
   * separator: the step `FormatKeyInjective` rests on.
   */
  lemma SeparatorIsFirstDot(ns: string, key: string)
    requires '.' !in ns
    ensures IndexOfDot(FormatKey(ns, key)) == |ns|
  {
  }

  /**
   * Composite keys are unambiguous exactly when namespaces hold no '.':
   * then two (ns, key) pairs address the same entry iff they are equal.
   */
  lemma FormatKeyInjective(ns1: string, key1: string, ns2: string, key2: string)
    requires '.' !in ns1 && '.' !in ns2
    ensures FormatKey(ns1, key1) == FormatKey(ns2, key2) <==> ns1 == ns2 && key1 == key2
  {
    if FormatKey(ns1, key1) == FormatKey(ns2, key2) {
      SeparatorIsFirstDot(ns1, key1);
      SeparatorIsFirstDot(ns2, key2);
    }
  }

  /**
   * Without escaping, moving a '.' between namespace and key does not
   * change the entry: ("a.b", "c") and ("a", "b.c") collide.
   */
  lemma FormatKeyCollision(ns: string, mid: string, key: string)
    ensures FormatKey(ns + "." + mid, key) == FormatKey(ns, mid + "." + key)
    ensures (ns + "." + mid, key) != (ns, mid + "." + key)
  {
    assert |ns + "." + mid| != |ns|;
  }

  /** `values.Get(formatKey(ns, key))`: the stored value, if any. */
  function Lookup(values: map<string, Value>, ns: string, key: string): (r: Option<Value>)
    ensures r.Some? <==> FormatKey(ns, key) in values
    ensures r.Some? ==> values[FormatKey(ns, key)] == r.value
  {
    var k := FormatKey(ns, key);
    if k in values then Some(values[k]) else None
  }

  /** `values.Set(formatKey(ns, key), value)` as a map update. */
  function Assign(values: map<string, Value>, ns: string, key: string, value: Value): (r: map<string, Value>)
    ensures r.Keys == values.Keys + {FormatKey(ns, key)}
    ensures r[FormatKey(ns, key)] == value
    ensures forall k :: k in values && k != FormatKey(ns, key) ==> r[k] == values[k]
  {
    values[FormatKey(ns, key) := value]
  }

  /** `cast.ToBoolE`, reduced to the matching variant. */
  function ToBool(raw: Option<Value>): Coerced<bool>
  {
    if raw.Some? && raw.value.BoolVal? then Exact(raw.value.b) else Delegated(raw)
  }

  /** `cast.ToIntE`, reduced to the matching variant. */
  function ToInt(raw: Option<Value>): Coerced<int64>
  {
    if raw.Some? && raw.value.IntVal? then Exact(raw.value.i) else Delegated(raw)
  }

  /** `cast.ToStringE`, reduced to the matching variant. */
  function ToString(raw: Option<Value>): Coerced<string>
  {
    if raw.Some? && raw.value.StrVal? then Exact(raw.value.s) else Delegated(raw)
  }

  /** `cast.ToStringSliceE`, reduced to the matching variant. */
  function ToStringSlice(raw: Option<Value>): Coerced<seq<string>>
  {
    if raw.Some? && raw.value.StrListVal? then Exact(raw.value.list) else Delegated(raw)
  }

  /** `cast.ToStringMapStringE`, reduced to the matching variant. */
  function ToStringMap(raw: Option<Value>): Coerced<map<string, string>>
  {
    if raw.Some? && raw.value.StrMapVal? then Exact(raw.value.dict) else Delegated(raw)
  }

  /** `defaultConfig`: the store, updated in place by `SetValue`. */
  class DefaultConfig {
    var values: map<string, Value>

    /** `NewConfig`'s `cmap.New()`: an empty table. */
    constructor ()
      ensures values == map[]
    {
      values := map[];
    }

    /** `IsSet`: whether the composite key has an entry. */
    function IsSet(ns: string, key: string): (b: bool)
      reads this
      ensures b <==> Lookup(values, ns, key).Some?
    {
      FormatKey(ns, key) in values
    }

    /**
     * `SetValue`: overwrite the entry at the composite key; every other
     * entry keeps its presence and value; the error result is always nil.
     */
    method SetValue(ns: string, key: string, value: Value) returns (err: Outcome)
      modifies this
      ensures values == Assign(old(values), ns, key, value)
      ensures IsSet(ns, key) && Lookup(values, ns, key) == Some(value)
      ensures forall k :: k != FormatKey(ns, key) ==>
        (k in values <==> k in old(values)) && (k in values ==> values[k] == old(values)[k])
      ensures err == Ok
    {
      values := values[FormatKey(ns, key) := value];
      err := Ok;
    }

    /** `GetBool`: the stored bool, or the raw entry left to the coercion library. */
    function GetBool(ns: string, key: string): (r: Coerced<bool>)
      reads this
      ensures r.Exact? <==> IsSet(ns, key) && values[FormatKey(ns, key)].BoolVal?
      ensures r.Exact? ==> values[FormatKey(ns, key)] == BoolVal(r.value)
      ensures r.Delegated? ==> r.raw == Lookup(values, ns, key)
    {
      ToBool(Lookup(values, ns, key))
    }

    /** `GetInt`: the stored int, or the raw entry left to the coercion library. */
    function GetInt(ns: string, key: string): (r: Coerced<int64>)
      reads this
      ensures r.Exact? <==> IsSet(ns, key) && values[FormatKey(ns, key)].IntVal?
      ensures r.Exact? ==> values[FormatKey(ns, key)] == IntVal(r.value)
      ensures r.Delegated? ==> r.raw == Lookup(values, ns, key)
    {
      ToInt(Lookup(values, ns, key))
    }

    /** `GetString`: the stored string, or the raw entry left to the coercion library. */
    function GetString(ns: string, key: string): (r: Coerced<string>)
      reads this
      ensures r.Exact? <==> IsSet(ns, key) && values[FormatKey(ns, key)].StrVal?
      ensures r.Exact? ==> values[FormatKey(ns, key)] == StrVal(r.value)
      ensures r.Delegated? ==> r.raw == Lookup(values, ns, key)
    {
      ToString(Lookup(values, ns, key))
    }

    /** `GetStringSlice`: the stored []string, or the raw entry left to the coercion library. */
    function GetStringSlice(ns: string, key: string): (r: Coerced<seq<string>>)
      reads this
      ensures r.Exact? <==> IsSet(ns, key) && values[FormatKey(ns, key)].StrListVal?
      ensures r.Exact? ==> values[FormatKey(ns, key)] == StrListVal(r.value)
      ensures r.Delegated? ==> r.raw == Lookup(values, ns, key)
    {
      ToStringSlice(Lookup(values, ns, key))
    }

    /** `GetStringMap`: the stored map[string]string, or the raw entry left to the coercion library. */
    function GetStringMap(ns: string, key: string): (r: Coerced<map<string, string>>)
      reads this
      ensures r.Exact? <==> IsSet(ns, key) && values[FormatKey(ns, key)].StrMapVal?
      ensures r.Exact? ==> values[FormatKey(ns, key)] == StrMapVal(r.value)
      ensures r.Delegated? ==> r.raw == Lookup(values, ns, key)
    {
      ToStringMap(Lookup(values, ns, key))
    }
  }

  /** After an assignment the entry is present and holds the assigned value. */
  lemma AssignThenLookup(values: map<string, Value>, ns: string, key: string, value: Value)
    ensures Lookup(Assign(values, ns, key, value), ns, key) == Some(value)
  {
  }

  /** An assignment leaves every other composite key's presence and value alone. */
  lemma AssignFrame(values: map<string, Value>, ns: string, key: string, value: Value, ns': string, key': string)
    requires FormatKey(ns', key') != FormatKey(ns, key)
    ensures Lookup(Assign(values, ns, key, value), ns', key') == Lookup(values, ns', key')
  {
  }

  /** Two assignments to the same key: the last one wins. */
  lemma AssignLastWriteWins(values: map<string, Value>, ns: string, key: string, v1: Value, v2: Value)
    ensures Assign(Assign(values, ns, key, v1), ns, key, v2) == Assign(values, ns, key, v2)
  {
  }

  /** Storing a value of each type and reading it back with the matching getter returns it. */
  lemma TypedRoundTrip(values: map<string, Value>, ns: string, key: string,
                       b: bool, i: int64, s: string, list: seq<string>, dict: map<string, string>)
    ensures ToBool(Lookup(Assign(values, ns, key, BoolVal(b)), ns, key)) == Exact(b)
    ensures ToInt(Lookup(Assign(values, ns, key, IntVal(i)), ns, key)) == Exact(i)
    ensures ToString(Lookup(Assign(values, ns, key, StrVal(s)), ns, key)) == Exact(s)
    ensures ToStringSlice(Lookup(Assign(values, ns, key, StrListVal(list)), ns, key)) == Exact(list)
    ensures ToStringMap(Lookup(Assign(values, ns, key, StrMapVal(dict)), ns, key)) == Exact(dict)
  {
  }

  /** A write through one spelling of a colliding key is visible through the other. */
  lemma CollidingWriteVisible(values: map<string, Value>, ns: string, mid: string, key: string, value: Value)
    ensures Lookup(Assign(values, ns + "." + mid, key, value), ns, mid + "." + key) == Some(value)
  {
    FormatKeyCollision(ns, mid, key);
  }
}
