/**
 * Decoded JSON values as the request handlers see them after `json.loads`, and the two
 * Python coercions they apply to them, `float(v)` and `int(v)`.
 */
module Json {
  import opened Wrappers

  /**
   * An object keeps its members as written, in document order, repeated keys included;
   * `DictOf` gives the dict `json.loads` makes of them.
   */
  datatype JsonValue =
    | JNull
    | JBool(b: bool)
    | JInt(i: int)
    | JFloat(r: real)
    | JStr(s: string)
    | JArray(items: seq<JsonValue>)
    | JObject(members: seq<(string, JsonValue)>)

  /** The exceptions a coercion can raise. */
  datatype PyError = ValueError | TypeError | OverflowError

  /**
   * 2^1024 - 2^970: the least integer that `float` rounds past the largest double, so
   * `float(n)` raises an OverflowError exactly when `abs(n)` reaches it.
   */
  const FloatOverflowBound: int := 0xFFFFFFFFFFFFFC00_0000000000000000_0000000000000000_0000000000000000_0000000000000000_0000000000000000_0000000000000000_0000000000000000_0000000000000000_0000000000000000_0000000000000000_0000000000000000_0000000000000000_0000000000000000_0000000000000000_0000000000000000

  /**
   * `isinstance(v, (int, float))`: Python's `bool` is a subclass of `int`,
   * so JSON booleans pass this test as well.
   */
  predicate IsNumber(v: JsonValue)
  {
    v.JInt? || v.JFloat? || v.JBool?
  }

  /**
   * Python's `float(v)`: an int too large for a double raises an OverflowError. The
   * syntax `float` accepts in a string (signs, exponents, `inf`, `nan`, surrounding
   * whitespace) is the injected `parseFloat`.
   */
  function FloatOf(v: JsonValue, parseFloat: string -> Option<real>): (r: Result<real, PyError>)
    ensures v.JFloat? ==> r == Success(v.r)
    ensures v.JBool? ==> r == Success(if v.b then 1.0 else 0.0)
    ensures v.JInt? ==> (r.Success? <==> -FloatOverflowBound < v.i < FloatOverflowBound)
    ensures r.Success? && v.JInt? ==> r.value == v.i as real
    ensures v.JStr? ==> (r.Success? <==> parseFloat(v.s).Some?)
    ensures v.JStr? && r.Success? ==> r.value == parseFloat(v.s).value
    ensures r.Failure? ==> (r.error == ValueError <==> v.JStr?)
    ensures r.Failure? ==> (r.error == OverflowError <==> v.JInt?)
    ensures v.JNull? || v.JArray? || v.JObject? ==> r == Failure(TypeError)
  {
    match v
    case JInt(i) => if -FloatOverflowBound < i < FloatOverflowBound then Success(i as real) else Failure(OverflowError)
    case JFloat(x) => Success(x)
    case JBool(b) => Success(if b then 1.0 else 0.0)
    case JStr(s) => if parseFloat(s).Some? then Success(parseFloat(s).value) else Failure(ValueError)
    case _ => Failure(TypeError)
  }

  /** Python's `int(x)` on a float truncates toward zero. */
  function TruncateTowardZero(x: real): (n: int)
    ensures 0.0 <= x ==> 0 <= n && n as real <= x < n as real + 1.0
    ensures x < 0.0 ==> n <= 0 && n as real - 1.0 < x <= n as real
  {
    if x >= 0.0 then x.Floor else -((-x).Floor)
  }

  /** Python's `int(v)`; the string syntax `int` accepts is the injected `parseInt`. */
  function IntOf(v: JsonValue, parseInt: string -> Option<int>): (r: Result<int, PyError>)
    ensures v.JInt? ==> r == Success(v.i)
    ensures v.JFloat? ==> r == Success(TruncateTowardZero(v.r))
    ensures v.JBool? ==> r == Success(if v.b then 1 else 0)
    ensures v.JStr? ==> (r.Success? <==> parseInt(v.s).Some?)
    ensures v.JStr? && r.Success? ==> r.value == parseInt(v.s).value
    ensures r.Failure? ==> (r.error == ValueError <==> v.JStr?)
    ensures v.JNull? || v.JArray? || v.JObject? ==> r == Failure(TypeError)
  {
    match v
    case JInt(i) => Success(i)
    case JFloat(x) => Success(TruncateTowardZero(x))
    case JBool(b) => Success(if b then 1 else 0)
    case JStr(s) => if parseInt(s).Some? then Success(parseInt(s).value) else Failure(ValueError)
    case _ => Failure(TypeError)
  }

  /** The keys of an object's members, in document order. */
  function Keys(members: seq<(string, JsonValue)>): (ks: seq<string>)
    ensures |ks| == |members|
    ensures forall i :: 0 <= i < |ks| ==> ks[i] == members[i].0
  {
    seq(|members|, i requires 0 <= i < |members| => members[i].0)
  }

  /** Every key occurs once, as in a dict. */
  predicate DistinctKeys(members: seq<(string, JsonValue)>)
  {
    forall i, j :: 0 <= i < j < |members| ==> members[i].0 != members[j].0
  }

  /** `key in obj` */
  predicate HasKey(members: seq<(string, JsonValue)>, key: string)
  {
    exists i :: 0 <= i < |members| && members[i].0 == key
  }

  /** `members[i]` is the last member written under `key`. */
  predicate LastWith(members: seq<(string, JsonValue)>, key: string, i: int)
  {
    0 <= i < |members| && members[i].0 == key && forall j :: i < j < |members| ==> members[j].0 != key
  }

  /** A last member under `key` stays last when a member under another key is written after it. */
  lemma LastWithExtends(members: seq<(string, JsonValue)>, key: string, i: int)
    requires |members| > 0 && members[|members| - 1].0 != key
    requires LastWith(members[..|members| - 1], key, i)
    ensures LastWith(members, key, i)
  {
    assert members[i] == members[..|members| - 1][i];
    forall j | i < j < |members| ensures members[j].0 != key {
      if j < |members| - 1 {
        assert members[j] == members[..|members| - 1][j];
      }
    }
  }

  /**
   * `obj.get(key)`: the value stored under `key`, if any. Like the dict `json.loads`
   * builds, a key written twice holds the value written last.
   */
  function Get(members: seq<(string, JsonValue)>, key: string): (r: Option<JsonValue>)
    ensures r.Some? <==> HasKey(members, key)
    ensures r.Some? ==> exists i :: LastWith(members, key, i) && members[i].1 == r.value
    decreases |members|
  {
    if |members| == 0 then None
    else
      var n := |members| - 1;
      if members[n].0 == key then
        assert LastWith(members, key, n);
        Some(members[n].1)
      else
        var r := Get(members[..n], key);
        assert HasKey(members, key) ==> HasKey(members[..n], key) by {
          if HasKey(members, key) {
            var i :| 0 <= i < |members| && members[i].0 == key;
            assert i < n && members[..n][i].0 == key;
          }
        }
        assert r.Some? ==> exists i :: LastWith(members, key, i) && members[i].1 == r.value by {
          if r.Some? {
            var i :| LastWith(members[..n], key, i) && members[..n][i].1 == r.value;
            LastWithExtends(members, key, i);
          }
        }
        r
  }

  /** In an object with distinct keys, each member is the value stored under its key. */
  lemma GetDistinct(members: seq<(string, JsonValue)>, i: nat)
    requires DistinctKeys(members) && i < |members|
    ensures Get(members, members[i].0) == Some(members[i].1)
  {
    var r := Get(members, members[i].0);
    assert HasKey(members, members[i].0);
    var j :| LastWith(members, members[i].0, j) && members[j].1 == r.value;
  }

  /** The members of `d` with the value under `key` replaced in place. */
  function Replace(d: seq<(string, JsonValue)>, key: string, value: JsonValue): (r: seq<(string, JsonValue)>)
    ensures |r| == |d|
    ensures forall i :: 0 <= i < |d| ==> r[i] == if d[i].0 == key then (key, value) else d[i]
  {
    seq(|d|, i requires 0 <= i < |d| => if d[i].0 == key then (key, value) else d[i])
  }

  /** Storing under a key that is present keeps the keys and changes that one value. */
  lemma ReplaceStores(d: seq<(string, JsonValue)>, key: string, value: JsonValue)
    requires DistinctKeys(d) && HasKey(d, key)
    ensures var r := Replace(d, key, value);
      && DistinctKeys(r) && Keys(r) == Keys(d)
      && (forall k {:trigger HasKey(r, k)} :: HasKey(r, k) <==> HasKey(d, k))
      && (forall k {:trigger Get(r, k)} :: Get(r, k) == if k == key then Some(value) else Get(d, k))
  {
    var r := Replace(d, key, value);
    assert Keys(r) == Keys(d);
    forall k ensures HasKey(r, k) <==> HasKey(d, k) {
      if HasKey(d, k) {
        var t :| 0 <= t < |d| && d[t].0 == k;
        assert r[t].0 == k;
      }
      if HasKey(r, k) {
        var t :| 0 <= t < |r| && r[t].0 == k;
        assert d[t].0 == k;
      }
    }
    forall k ensures Get(r, k) == if k == key then Some(value) else Get(d, k) {
      if HasKey(d, k) {
        var t :| 0 <= t < |d| && d[t].0 == k;
        GetDistinct(r, t);
        GetDistinct(d, t);
      }
    }
  }

  /** Storing under a new key appends it and leaves the other keys' values alone. */
  lemma AppendStores(d: seq<(string, JsonValue)>, key: string, value: JsonValue)
    requires DistinctKeys(d) && !HasKey(d, key)
    ensures var r := d + [(key, value)];
      && DistinctKeys(r) && Keys(r) == Keys(d) + [key]
      && (forall k {:trigger HasKey(r, k)} :: HasKey(r, k) <==> k == key || HasKey(d, k))
      && (forall k {:trigger Get(r, k)} :: Get(r, k) == if k == key then Some(value) else Get(d, k))
  {
    var r := d + [(key, value)];
    assert r[..|d|] == d;
    assert Keys(r) == Keys(d) + [key];
    forall k ensures HasKey(r, k) <==> k == key || HasKey(d, k) {
      assert r[|d|].0 == key;
      if HasKey(d, k) {
        var t :| 0 <= t < |d| && d[t].0 == k;
        assert r[t].0 == k;
      }
    }
  }

  /**
   * `d[key] = value` on a dict held as its members: a key already present keeps its
   * place and takes the new value, a new key goes last.
   */
  function Store(d: seq<(string, JsonValue)>, key: string, value: JsonValue): (r: seq<(string, JsonValue)>)
    requires DistinctKeys(d)
    ensures DistinctKeys(r)
    ensures HasKey(d, key) ==> Keys(r) == Keys(d)
    ensures !HasKey(d, key) ==> Keys(r) == Keys(d) + [key]
    ensures forall k {:trigger HasKey(r, k)} :: HasKey(r, k) <==> k == key || HasKey(d, k)
    ensures forall k {:trigger Get(r, k)} :: Get(r, k) == if k == key then Some(value) else Get(d, k)
  {
    if HasKey(d, key) then
      ReplaceStores(d, key, value);
      Replace(d, key, value)
    else
      AppendStores(d, key, value);
      d + [(key, value)]
  }

  /** Storing the last member into the dict of the others gives the dict of all of them. */
  lemma StoreLast(members: seq<(string, JsonValue)>, prefix: seq<(string, JsonValue)>)
    requires |members| > 0 && DistinctKeys(prefix)
    requires forall k {:trigger Get(prefix, k)} :: Get(prefix, k) == Get(members[..|members| - 1], k)
    ensures var d := Store(prefix, members[|members| - 1].0, members[|members| - 1].1);
      && (forall k {:trigger Get(d, k)} :: Get(d, k) == Get(members, k))
      && (forall k {:trigger HasKey(d, k)} :: HasKey(d, k) <==> HasKey(members, k))
  {
    var n := |members| - 1;
    var d := Store(prefix, members[n].0, members[n].1);
    forall k ensures Get(d, k) == Get(members, k) {
      assert Get(prefix, k) == Get(members[..n], k);
    }
    forall k ensures HasKey(d, k) <==> HasKey(members, k) {
      assert Get(d, k) == Get(members, k);
    }
  }

  /**
   * The dict `json.loads` builds from an object's members in document order: each
   * member is stored in turn, so a repeated key keeps the place of its first occurrence
   * and the value of its last.
   */
  function DictOf(members: seq<(string, JsonValue)>): (d: seq<(string, JsonValue)>)
    ensures DistinctKeys(d)
    ensures forall k {:trigger HasKey(d, k)} :: HasKey(d, k) <==> HasKey(members, k)
    ensures forall k {:trigger Get(d, k)} :: Get(d, k) == Get(members, k)
    ensures |d| <= |members| && (|members| > 0 ==> |d| > 0)
    ensures DistinctKeys(members) ==> d == members
    decreases |members|
  {
    if |members| == 0 then []
    else
      var n := |members| - 1;
      var prefix := DictOf(members[..n]);
      var d := Store(prefix, members[n].0, members[n].1);
      StoreLast(members, prefix);
      assert DistinctKeys(members) ==> d == members by {
        if DistinctKeys(members) {
          assert DistinctKeys(members[..n]);
          assert !HasKey(members[..n], members[n].0);
          assert members[..n] + [members[n]] == members;
        }
      }
      d
  }
}
