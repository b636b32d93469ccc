/**
 * The `InverterDict` container of test_script.py: the `inverters` value a
 * script sees when run by those unit tests. It is a Python dict, so it keeps
 * its entries in insertion order, and `add_inverter` files one inverter's
 * parameters under its id, its serial number and 'inverter_params_<id>'.
 *
 * Its `__getitem__` promises index-based access for integer keys but
 * subscripts `self.keys()`, which Python 3 refuses with a TypeError that
 * `get` does not catch. `GetItem`/`Get` model that as written and
 * `GetItemCorrected`/`GetCorrected` the documented behaviour.
 *
 * Python's `str()` of an id or serial is a function parameter.
 */
module InverterDictModel {
  import opened Common
  import opened PyData

  /** A Python dict: its entries in insertion order. */
  datatype Dict = Dict(entries: seq<(Key, Value)>)

  /** No key occurs twice. */
  predicate Valid(d: Dict)
  {
    forall i, j :: 0 <= i < j < |d.entries| ==> d.entries[i].0 != d.entries[j].0
  }

  function Keys(d: Dict): set<Key>
  {
    set i | 0 <= i < |d.entries| :: d.entries[i].0
  }

  /** The position of the first entry under key k. */
  function IndexOf(es: seq<(Key, Value)>, k: Key): (r: Option<nat>)
    ensures r.Some? ==> r.value < |es| && es[r.value].0 == k
    ensures r.Some? ==> forall i :: 0 <= i < r.value ==> es[i].0 != k
    ensures r.None? <==> forall i :: 0 <= i < |es| ==> es[i].0 != k
  {
    if |es| == 0 then None
    else if es[0].0 == k then Some(0)
    else
      match IndexOf(es[1..], k)
      case None => None
      case Some(j) => Some(j + 1)
  }

  /** Two entry lists with the same keys position by position find a key at the same place. */
  lemma {:induction false} IndexOfSameKeys(es: seq<(Key, Value)>, fs: seq<(Key, Value)>, k: Key)
    requires |es| == |fs|
    requires forall i :: 0 <= i < |es| ==> es[i].0 == fs[i].0
    ensures IndexOf(es, k) == IndexOf(fs, k)
  {
    if |es| > 0 {
      IndexOfSameKeys(es[1..], fs[1..], k);
    }
  }

  /** Appending an entry under another key does not move k. */
  lemma {:induction false} IndexOfAppend(es: seq<(Key, Value)>, e: (Key, Value), k: Key)
    requires e.0 != k
    ensures IndexOf(es + [e], k) == IndexOf(es, k)
  {
    if |es| > 0 {
      assert (es + [e])[1..] == es[1..] + [e];
      IndexOfAppend(es[1..], e, k);
    }
  }

  /** `d[k]` on a plain dict: None for a missing key. */
  function Lookup(d: Dict, k: Key): (r: Option<Value>)
    ensures r.Some? <==> k in Keys(d)
    ensures r.Some? ==> (k, r.value) in d.entries
  {
    match IndexOf(d.entries, k)
    case None => None
    case Some(i) => Some(d.entries[i].1)
  }

  /** The dict as a map from keys to values. */
  function AsMap(d: Dict): (m: map<Key, Value>)
    ensures m.Keys == Keys(d)
    ensures forall k :: k in m ==> Lookup(d, k) == Some(m[k])
  {
    map k | k in Keys(d) :: Lookup(d, k).value
  }

  /**
   * `d[k] = v`: an existing key keeps its place and takes the new value,
   * a new key goes to the end; no other key's value changes.
   */
  function Set(d: Dict, k: Key, v: Value): (r: Dict)
    ensures Lookup(r, k) == Some(v)
    ensures forall k' :: k' != k ==> Lookup(r, k') == Lookup(d, k')
    ensures Keys(r) == Keys(d) + {k}
    ensures |d.entries| <= |r.entries| && forall i :: 0 <= i < |d.entries| ==> r.entries[i].0 == d.entries[i].0
    ensures Valid(d) ==> Valid(r)
  {
    match IndexOf(d.entries, k)
    case Some(i) =>
      OverwriteFacts(d, i, k, v);
      Dict(d.entries[i := (k, v)])
    case None =>
      AppendFacts(d, k, v);
      Dict(d.entries + [(k, v)])
  }

  /** Overwriting the entry of an existing key keeps every key where it was. */
  lemma OverwriteFacts(d: Dict, i: nat, k: Key, v: Value)
    requires IndexOf(d.entries, k) == Some(i)
    ensures var r := Dict(d.entries[i := (k, v)]);
            Lookup(r, k) == Some(v) && (forall k' :: k' != k ==> Lookup(r, k') == Lookup(d, k')) &&
            Keys(r) == Keys(d) && (Valid(d) ==> Valid(r))
  {
    var r := Dict(d.entries[i := (k, v)]);
    forall k' ensures IndexOf(r.entries, k') == IndexOf(d.entries, k') {
      IndexOfSameKeys(r.entries, d.entries, k');
    }
    assert Keys(r) == Keys(d) by {
      forall x | x in Keys(r) ensures x in Keys(d) {
        var j :| 0 <= j < |r.entries| && r.entries[j].0 == x;
        assert d.entries[j].0 == x;
      }
      forall x | x in Keys(d) ensures x in Keys(r) {
        var j :| 0 <= j < |d.entries| && d.entries[j].0 == x;
        assert r.entries[j].0 == x;
      }
    }
  }

  /** Appending an entry under a new key leaves every other key where it was. */
  lemma AppendFacts(d: Dict, k: Key, v: Value)
    requires IndexOf(d.entries, k).None?
    ensures var r := Dict(d.entries + [(k, v)]);
            Lookup(r, k) == Some(v) && (forall k' :: k' != k ==> Lookup(r, k') == Lookup(d, k')) &&
            Keys(r) == Keys(d) + {k} && (Valid(d) ==> Valid(r))
  {
    var r := Dict(d.entries + [(k, v)]);
    forall k' | k' != k ensures IndexOf(r.entries, k') == IndexOf(d.entries, k') {
      IndexOfAppend(d.entries, (k, v), k');
    }
    AppendKeys(d, k, v);
  }

  lemma AppendKeys(d: Dict, k: Key, v: Value)
    ensures Keys(Dict(d.entries + [(k, v)])) == Keys(d) + {k}
  {
    var r := Dict(d.entries + [(k, v)]);
    forall x | x in Keys(r) ensures x in Keys(d) + {k} {
      var j :| 0 <= j < |r.entries| && r.entries[j].0 == x;
      if j < |d.entries| { assert d.entries[j].0 == x; }
    }
    forall x | x in Keys(d) ensures x in Keys(r) {
      var j :| 0 <= j < |d.entries| && d.entries[j].0 == x;
      assert r.entries[j].0 == x;
    }
    assert r.entries[|d.entries|].0 == k;
  }

  /** `params.get(name, None)` on a plain dict. */
  function Param(params: Dict, name: string): (v: Value)
    ensures Lookup(params, KStr(name)).Some? ==> v == Lookup(params, KStr(name)).value
    ensures Lookup(params, KStr(name)).None? ==> v == VNone
  {
    match Lookup(params, KStr(name))
    case Some(x) => x
    case None => VNone
  }

  /** The three keys `add_inverter` files an inverter's parameters under. */
  function InverterKeys(id: Value, serial: Value, str: Value -> string): seq<Key>
  {
    [KStr(str(id)), KStr(str(serial)), KStr("inverter_params_" + str(id))]
  }

  /** `d[k] = v` for each key of ks in turn. */
  function SetAll(d: Dict, ks: seq<Key>, v: Value): (r: Dict)
    ensures forall k :: k in ks ==> Lookup(r, k) == Some(v)
    ensures forall k :: k !in ks ==> Lookup(r, k) == Lookup(d, k)
    ensures Valid(d) ==> Valid(r)
    ensures |d.entries| <= |r.entries| && forall i :: 0 <= i < |d.entries| ==> r.entries[i].0 == d.entries[i].0
    decreases |ks|
  {
    if |ks| == 0 then d else SetAll(Set(d, ks[0], v), ks[1..], v)
  }

  /**
   * `add_inverter(params)`: without an id or a serial number nothing
   * changes; otherwise the parameters are stored under the three keys and
   * every other key keeps its value.
   */
  function AddInverter(d: Dict, params: Dict, str: Value -> string): (r: Dict)
    ensures Param(params, "id") == VNone || Param(params, "serial_number") == VNone ==> r == d
    ensures Param(params, "id") != VNone && Param(params, "serial_number") != VNone ==>
              forall k :: k in InverterKeys(Param(params, "id"), Param(params, "serial_number"), str) ==>
                Lookup(r, k) == Some(VDict(AsMap(params)))
    ensures forall k :: k !in InverterKeys(Param(params, "id"), Param(params, "serial_number"), str) ==>
              Lookup(r, k) == Lookup(d, k)
    ensures Valid(d) ==> Valid(r)
  {
    var id := Param(params, "id");
    var serial := Param(params, "serial_number");
    if id == VNone || serial == VNone then d
    else SetAll(d, InverterKeys(id, serial, str), VDict(AsMap(params)))
  }

  /**
   * `__getitem__` as written: an integer key fails with a TypeError
   * (`self.keys()` cannot be subscripted), a present string key gives its
   * value and a missing one an empty dict.
   */
  function GetItem(d: Dict, key: Key): (r: Result<Value>)
    ensures key.KInt? ==> r == Err(TypeError)
    ensures key.KStr? && key in Keys(d) ==> r == Ok(Lookup(d, key).value)
    ensures key.KStr? && key !in Keys(d) ==> r == Ok(VDict(map[]))
  {
    match key
    case KInt(_) => Err(TypeError)
    case KStr(_) =>
      match Lookup(d, key)
      case Some(v) => Ok(v)
      case None => Ok(VDict(map[]))
  }

  /** `get(key, default)`: catches KeyError and IndexError only. */
  function Get(d: Dict, key: Key, default: Value): (r: Result<Value>)
    ensures r.Err? ==> r.error == TypeError
    ensures GetItem(d, key).Err? && GetItem(d, key).error == TypeError ==> r == GetItem(d, key)
  {
    match GetItem(d, key)
    case Err(e) => if e == KeyError || e == IndexError then Ok(default) else Err(e)
    case Ok(v) => Ok(v)
  }

  /** A string key never falls back to the default: a missing one gives an empty dict. */
  lemma GetIgnoresDefault(d: Dict, s: string, x: Value, y: Value)
    ensures Get(d, KStr(s), x) == Get(d, KStr(s), y)
    ensures KStr(s) !in Keys(d) ==> Get(d, KStr(s), x) == Ok(VDict(map[]))
  {
  }

  /** An integer key fails whatever the default, so `inverters.get(0, {})` raises. */
  lemma GetIntKeyRaises(d: Dict, i: int, default: Value)
    ensures Get(d, KInt(i), default) == Err(TypeError)
  {
  }

  /** Python's list index: negative positions count from the end. */
  function Position(n: nat, i: int): (p: Option<nat>)
    ensures p.Some? <==> -(n as int) <= i < n
    ensures p.Some? ==> p.value < n && (p.value == i || p.value == n + i)
  {
    if 0 <= i < n then Some(i) else if -(n as int) <= i < 0 then Some(n + i) else None
  }

  /** `__getitem__` with `list(self.keys())[key]`: the entry at that insertion position. */
  function GetItemCorrected(d: Dict, key: Key): (r: Result<Value>)
    ensures key.KInt? && 0 <= key.i < |d.entries| ==> r == Ok(d.entries[key.i].1)
    ensures key.KInt? && -|d.entries| <= key.i < 0 ==> r == Ok(d.entries[|d.entries| + key.i].1)
    ensures key.KInt? ==> (r.Err? <==> !(-|d.entries| <= key.i < |d.entries|))
    ensures r.Err? ==> r.error == IndexError
    ensures key.KStr? ==> r == GetItem(d, key)
  {
    match key
    case KStr(_) => GetItem(d, key)
    case KInt(i) =>
      match Position(|d.entries|, i)
      case None => Err(IndexError)
      case Some(p) => Ok(d.entries[p].1)
  }

  /** `get` over the corrected lookup: an index outside the dict gives the default. */
  function GetCorrected(d: Dict, key: Key, default: Value): (r: Result<Value>)
    ensures r.Ok?
    ensures key.KInt? && !(-|d.entries| <= key.i < |d.entries|) ==> r == Ok(default)
    ensures key.KInt? && 0 <= key.i < |d.entries| ==> r == Ok(d.entries[key.i].1)
    ensures key.KStr? ==> r == Get(d, key, default)
  {
    match GetItemCorrected(d, key)
    case Err(e) => if e == KeyError || e == IndexError then Ok(default) else Err(e)
    case Ok(v) => Ok(v)
  }

  /** One registered inverter: the documented `inverters.get(0, {})` finds its entry, the code raises. */
  lemma IndexAccessRaises(params: Dict, str: Value -> string)
    requires Param(params, "id") != VNone && Param(params, "serial_number") != VNone
    ensures var d := AddInverter(Dict([]), params, str);
            Get(d, KInt(0), VDict(map[])) == Err(TypeError) &&
            GetCorrected(d, KInt(0), VDict(map[])) == Ok(VDict(AsMap(params)))
  {
    FirstInverterEntry(params, str);
  }

  /** Adding one inverter to an empty dict puts its id key first, holding its parameters. */
  lemma FirstInverterEntry(params: Dict, str: Value -> string)
    requires Param(params, "id") != VNone && Param(params, "serial_number") != VNone
    ensures var d := AddInverter(Dict([]), params, str);
            var k0 := InverterKeys(Param(params, "id"), Param(params, "serial_number"), str)[0];
            |d.entries| > 0 && d.entries[0] == (k0, VDict(AsMap(params))) && IndexOf(d.entries, k0) == Some(0)
  {
    var ks := InverterKeys(Param(params, "id"), Param(params, "serial_number"), str);
    var v := VDict(AsMap(params));
    var d1 := Set(Dict([]), ks[0], v);
    assert d1.entries == [(ks[0], v)];
    var d := SetAll(d1, ks[1..], v);
    assert d == AddInverter(Dict([]), params, str);
    assert d.entries[0].0 == ks[0];
    assert Lookup(d, ks[0]) == Some(v);
  }

  /**
   * `InverterDict(*args, **kwargs)`: the positional mapping, updated by
   * the keyword arguments (keys are strings), then `add_inverter(kwargs)`.
   */
  function New(initial: Dict, kwargs: seq<(string, Value)>, str: Value -> string): (r: Dict)
    ensures var params := Kwargs(kwargs);
            Param(params, "id") == VNone || Param(params, "serial_number") == VNone ==> r == Update(initial, kwargs)
    ensures var params := Kwargs(kwargs);
            Param(params, "id") != VNone && Param(params, "serial_number") != VNone ==>
              forall k :: k in InverterKeys(Param(params, "id"), Param(params, "serial_number"), str) ==>
                Lookup(r, k) == Some(VDict(AsMap(params)))
    ensures var params := Kwargs(kwargs);
            forall k :: k !in InverterKeys(Param(params, "id"), Param(params, "serial_number"), str) ==>
              Lookup(r, k) == Lookup(Update(initial, kwargs), k)
    ensures Valid(initial) ==> Valid(r)
  {
    AddInverter(Update(initial, kwargs), Kwargs(kwargs), str)
  }

  /** The keyword arguments as a dict, in call order. */
  function Kwargs(kwargs: seq<(string, Value)>): (d: Dict)
    ensures forall s :: (exists i :: 0 <= i < |kwargs| && kwargs[i].0 == s) <==> KStr(s) in Keys(d)
    ensures Valid(d)
  {
    Update(Dict([]), kwargs)
  }

  /** The value of the last keyword argument named by key k, if any names it. */
  function LastKeyword(kwargs: seq<(string, Value)>, k: Key): (r: Option<Value>)
    ensures r.None? <==> forall i :: 0 <= i < |kwargs| ==> KStr(kwargs[i].0) != k
    ensures r.Some? ==>
      exists i :: 0 <= i < |kwargs| && KStr(kwargs[i].0) == k && kwargs[i].1 == r.value &&
        forall j :: i < j < |kwargs| ==> KStr(kwargs[j].0) != k
    decreases |kwargs|
  {
    if |kwargs| == 0 then None
    else
      var rest := LastKeyword(kwargs[1..], k);
      assert forall i :: 1 <= i < |kwargs| ==> kwargs[1..][i - 1] == kwargs[i];
      if rest.Some? then
        assert exists i :: 1 <= i < |kwargs| && KStr(kwargs[i].0) == k && kwargs[i].1 == rest.value &&
                           (forall j :: i < j < |kwargs| ==> KStr(kwargs[j].0) != k) by {
          var i :| 0 <= i < |kwargs[1..]| && KStr(kwargs[1..][i].0) == k && kwargs[1..][i].1 == rest.value &&
                   (forall j :: i < j < |kwargs[1..]| ==> KStr(kwargs[1..][j].0) != k);
          assert forall j :: i + 1 < j < |kwargs| ==> kwargs[j] == kwargs[1..][j - 1];
        }
        rest
      else if KStr(kwargs[0].0) == k then Some(kwargs[0].1)
      else None
  }

  /**
   * `d.update(**kwargs)`: each keyword set in turn, so a key named by a
   * keyword ends with the last such keyword's value and every other key
   * keeps its lookup.
   */
  function Update(d: Dict, kwargs: seq<(string, Value)>): (r: Dict)
    ensures forall k :: k in Keys(r) <==> k in Keys(d) || exists i :: 0 <= i < |kwargs| && k == KStr(kwargs[i].0)
    ensures forall k :: Lookup(r, k) == if LastKeyword(kwargs, k).Some? then LastKeyword(kwargs, k) else Lookup(d, k)
    ensures Valid(d) ==> Valid(r)
    decreases |kwargs|
  {
    if |kwargs| == 0 then d
    else
      var d1 := Set(d, KStr(kwargs[0].0), kwargs[0].1);
      var r := Update(d1, kwargs[1..]);
      UpdateStepKeys(Keys(d), Keys(d1), Keys(r), kwargs);
      r
  }

  /** The keys after the first keyword argument and after the rest add up to the keys after all of them. */
  lemma UpdateStepKeys(before: set<Key>, mid: set<Key>, after: set<Key>, kwargs: seq<(string, Value)>)
    requires |kwargs| > 0
    requires mid == before + {KStr(kwargs[0].0)}
    requires forall k :: k in after <==> k in mid || exists i :: 0 <= i < |kwargs[1..]| && k == KStr(kwargs[1..][i].0)
    ensures forall k :: k in after <==> k in before || exists i :: 0 <= i < |kwargs| && k == KStr(kwargs[i].0)
  {
    forall k | k in after
      ensures k in before || exists i :: 0 <= i < |kwargs| && k == KStr(kwargs[i].0)
    {
      if k !in mid {
        var i :| 0 <= i < |kwargs[1..]| && k == KStr(kwargs[1..][i].0);
        assert kwargs[1..][i] == kwargs[i + 1];
      }
    }
    forall k | exists i :: 0 <= i < |kwargs| && k == KStr(kwargs[i].0)
      ensures k in after
    {
      var i :| 0 <= i < |kwargs| && k == KStr(kwargs[i].0);
      if i > 0 {
        assert kwargs[1..][i - 1] == kwargs[i];
      }
    }
  }

  /** Without keyword arguments the constructor only copies its positional mapping. */
  lemma NewWithoutKeywords(initial: Dict, str: Value -> string)
    ensures New(initial, [], str) == initial
  {
  }
}
