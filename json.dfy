/**
  Decoded JSON values as the worker sees them after `json.loads` / `resp.json()`, with
  Python's truthiness, `dict.get`, `str()` and `int()` on them. Objects keep their keys in
  insertion order (Python dicts are ordered); numbers are integers.
*/
module Json {
  import opened Wrappers
  import opened Text

  datatype Value =
    | Null
    | Bool(b: bool)
    | Num(n: int)
    | Str(s: string)
    | Arr(items: seq<Value>)
    | Obj(fields: Record)

  /** A Python dict: its (key, value) pairs in insertion order. */
  type Record = seq<(string, Value)>

  /** Python's `bool(v)`. */
  predicate Truthy(v: Value) {
    match v
    case Null => false
    case Bool(b) => b
    case Num(n) => n != 0
    case Str(s) => s != []
    case Arr(items) => items != []
    case Obj(fields) => fields != []
  }

  predicate HasKey(r: Record, key: string) {
    exists i :: 0 <= i < |r| && r[i].0 == key
  }

  /** `r.get(key)`: the value of the first pair with that key. */
  function Get(r: Record, key: string): (v: Option<Value>)
    ensures v.Some? <==> HasKey(r, key)
  {
    if r == [] then None
    else if r[0].0 == key then Some(r[0].1)
    else
      assert HasKey(r, key) <==> HasKey(r[1..], key) by {
        if HasKey(r, key) {
          var i :| 0 <= i < |r| && r[i].0 == key;
          assert r[1..][i - 1].0 == key;
        }
        if HasKey(r[1..], key) {
          var i :| 0 <= i < |r[1..]| && r[1..][i].0 == key;
          assert r[i + 1].0 == key;
        }
      }
      Get(r[1..], key)
  }

  /** What `Get` finds is the value of a pair carrying that key, the first such pair. */
  lemma {:induction false} GetFound(r: Record, key: string)
    requires HasKey(r, key)
    ensures exists i :: 0 <= i < |r| && r[i].0 == key && r[i].1 == Get(r, key).value
                        && forall j :: 0 <= j < i ==> r[j].0 != key
  {
    if r[0].0 != key {
      GetFound(r[1..], key);
      var i :| 0 <= i < |r[1..]| && r[1..][i].0 == key && r[1..][i].1 == Get(r[1..], key).value
               && forall j :: 0 <= j < i ==> r[1..][j].0 != key;
      assert r[i + 1] == r[1..][i];
      forall j | 0 <= j < i + 1 ensures r[j].0 != key {
        if j > 0 { assert r[j] == r[1..][j - 1]; }
      }
    }
  }

  /** The first pair carrying the key is the one `Get` finds. */
  lemma {:induction false} GetFirst(r: Record, key: string, i: nat)
    requires i < |r| && r[i].0 == key
    requires forall j :: 0 <= j < i ==> r[j].0 != key
    ensures Get(r, key) == Some(r[i].1)
    decreases i
  {
    if i > 0 {
      assert r[0].0 != key;
      assert forall j :: 0 <= j < i - 1 ==> r[1..][j].0 == r[j + 1].0;
      GetFirst(r[1..], key, i - 1);
    }
  }

  /** A key is in a concatenation exactly when it is in one of the parts. */
  lemma HasKeyConcat(a: Record, b: Record, key: string)
    ensures HasKey(a + b, key) <==> HasKey(a, key) || HasKey(b, key)
  {
    if HasKey(a + b, key) {
      var i :| 0 <= i < |a + b| && (a + b)[i].0 == key;
      if i >= |a| {
        assert b[i - |a|].0 == key;
      }
    }
    if HasKey(b, key) {
      var i :| 0 <= i < |b| && b[i].0 == key;
      assert (a + b)[|a| + i].0 == key;
    }
    if HasKey(a, key) {
      var i :| 0 <= i < |a| && a[i].0 == key;
      assert (a + b)[i].0 == key;
    }
  }

  /** `r.get(key)` with `None` for a missing key. */
  function GetOrNull(r: Record, key: string): Value {
    Get(r, key).GetOr(Null)
  }

  /** `r.get(key, default)`. */
  function GetOrDefault(r: Record, key: string, default: Value): Value {
    Get(r, key).GetOr(default)
  }

  /** `list(r.keys())`. */
  function Keys(r: Record): (ks: seq<string>)
    ensures |ks| == |r|
    ensures forall i :: 0 <= i < |r| ==> ks[i] == r[i].0
  {
    seq(|r|, i requires 0 <= i < |r| => r[i].0)
  }

  /** Python's `a or b` on values. */
  function Or(a: Value, b: Value): Value {
    if Truthy(a) then a else b
  }

  /** The value as a dict, when it is one. */
  function AsRecord(v: Value): Option<Record> {
    if v.Obj? then Some(v.fields) else None
  }

  // ---------------------------------------------------------------------------
  // str() and repr()

  /** Python's `str(v)`: scalars exactly; containers in repr style, without string escapes. */
  function Show(v: Value): string
    decreases v, 0
  {
    match v
    case Null => "None"
    case Bool(b) => if b then "True" else "False"
    case Num(n) => IntToString(n)
    case Str(s) => s
    case Arr(items) => "[" + ShowItems(items) + "]"
    case Obj(fields) => "{" + ShowFields(fields) + "}"
  }

  /** The items of a list, each in repr style, separated by ", ". */
  function ShowItems(items: seq<Value>): string
    decreases items
  {
    if items == [] then ""
    else if |items| == 1 then Repr(items[0])
    else Repr(items[0]) + ", " + ShowItems(items[1..])
  }

  /** The pairs of a dict as `'key': repr(value)`, separated by ", ". */
  function ShowFields(fields: Record): string
    decreases fields
  {
    if fields == [] then ""
    else
      assert fields[0].1 < fields[0] && fields[0] in fields;
      var pair := "'" + fields[0].0 + "': " + Repr(fields[0].1);
      if |fields| == 1 then pair else pair + ", " + ShowFields(fields[1..])
  }

  /** Python's `repr(v)`: strings quoted, everything else as `str`. */
  function Repr(v: Value): string
    decreases v, 1
  {
    if v.Str? then "'" + v.s + "'" else Show(v)
  }

  /** str() of anything but None and a string begins with a visible character other than 'n'/'N'. */
  lemma ShowFirstChar(v: Value)
    requires !v.Null? && !v.Str?
    ensures Show(v) != [] && !IsSpace(Show(v)[0]) && LowerChar(Show(v)[0]) != 'n'
  {
    if v.Num? {
      if v.n >= 0 {
        assert IsDigit(NatToString(v.n)[0]);
      }
    }
  }

  // ---------------------------------------------------------------------------
  // int()

  /** Python's `int(v)` on a decoded value; `None` when it raises (None, lists, dicts, bad text). */
  function IntOf(v: Value): Option<int> {
    match v
    case Num(n) => Some(n)
    case Bool(b) => Some(if b then 1 else 0)
    case Str(s) => ParseInt(s)
    case _ => None
  }

  /** `int()` undoes `str()` on numbers, as on the numbers themselves. */
  lemma IntOfNumber(n: int)
    ensures IntOf(Str(Show(Num(n)))) == IntOf(Num(n)) == Some(n)
  {
    ParseIntRoundTrip(n);
  }

  /** `int(True)` is 1 and `int(False)` 0; the text `str()` gives for a bool or None does not
      convert, and neither do None, a list or a dict. */
  lemma IntOfOthers(b: bool, items: seq<Value>, fields: Record)
    ensures IntOf(Bool(b)) == Some(if b then 1 else 0)
    ensures IntOf(Str(Show(Bool(b)))) == None && IntOf(Str(Show(Null))) == None
    ensures IntOf(Null) == None && IntOf(Arr(items)) == None && IntOf(Obj(fields)) == None
  {
    var w := Show(Bool(b));
    assert w == "True" || w == "False";
    ParseIntWord(w);
    ParseIntWord("None");
  }
}
