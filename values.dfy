/** Python values as the pipeline passes them around: JSON-like data (strings,
    integers, floats, booleans, None, lists and insertion-ordered dictionaries
    with string keys) plus opaque objects that JSON cannot encode. */
module Values {

  datatype Option<+T> = None | Some(value: T)

  datatype Result<+T, +E> = Ok(value: T) | Err(error: E)

  /** A dictionary is an association list in insertion order; the model's own
      dictionaries never repeat a key, and lookups take the first entry. */
  datatype Value =
    | Str(s: string)
    | Int(i: int)
    | Float(r: real)                             // a finite float, as an exact rational
    | Bool(b: bool)
    | Null
    | List(items: seq<Value>)
    | Obj(entries: seq<(string, Value)>)
    | Opaque(typeName: string, text: string)   // any other object; `text` is its str()

  /** `d.get(k)`: the value stored under `k`, if any. */
  function Get(entries: seq<(string, Value)>, k: string): (r: Option<Value>)
    ensures r.Some? <==> exists i :: 0 <= i < |entries| && entries[i].0 == k
    ensures r.Some? ==> exists i :: 0 <= i < |entries| && entries[i] == (k, r.value)
  {
    if entries == [] then None
    else if entries[0].0 == k then Some(entries[0].1)
    else
      var r := Get(entries[1..], k);
      assert forall i :: 1 <= i < |entries| ==> entries[i] == entries[1..][i - 1];
      r
  }

  /** The value under a key is the one at its first occurrence. */
  lemma {:induction false} GetAt(entries: seq<(string, Value)>, k: string, i: nat)
    requires i < |entries| && entries[i].0 == k
    requires forall j :: 0 <= j < i ==> entries[j].0 != k
    ensures Get(entries, k) == Some(entries[i].1)
    decreases i
  {
    if i > 0 {
      assert forall j :: 0 <= j < i - 1 ==> entries[1..][j] == entries[j + 1];
      GetAt(entries[1..], k, i - 1);
    }
  }

  /** The same, for entries whose keys are known to be `keys`. */
  lemma GetByKeys(entries: seq<(string, Value)>, keys: seq<string>, i: nat)
    requires Keys(entries) == keys && i < |keys| && keys[i] !in keys[..i]
    ensures Get(entries, keys[i]) == Some(entries[i].1)
  {
    forall j | 0 <= j < i ensures entries[j].0 != keys[i] {
      assert keys[j] == keys[..i][j];
    }
    GetAt(entries, keys[i], i);
  }

  /** A lookup in two runs of entries looks in the first run, then in the
      second. */
  lemma {:induction false} GetAppend(a: seq<(string, Value)>, b: seq<(string, Value)>, k: string)
    ensures Get(a + b, k) == if Get(a, k).Some? then Get(a, k) else Get(b, k)
    decreases |a|
  {
    if a == [] {
      assert a + b == b;
    } else {
      assert (a + b)[1..] == a[1..] + b;
      GetAppend(a[1..], b, k);
    }
  }

  /** `k in d` */
  predicate HasKey(entries: seq<(string, Value)>, k: string) {
    Get(entries, k).Some?
  }

  /** `d.get(k, default)` */
  function GetOr(entries: seq<(string, Value)>, k: string, default: Value): (r: Value)
    ensures !HasKey(entries, k) ==> r == default
  {
    match Get(entries, k)
    case Some(v) => v
    case None => default
  }

  /** `list(d.keys())` */
  function Keys(entries: seq<(string, Value)>): (r: seq<string>)
    ensures |r| == |entries|
    ensures forall i :: 0 <= i < |r| ==> r[i] == entries[i].0
  {
    if entries == [] then [] else [entries[0].0] + Keys(entries[1..])
  }

  /** `k in d` holds exactly for the keys `d.keys()` lists. */
  lemma HasKeyInKeys(entries: seq<(string, Value)>, k: string)
    ensures HasKey(entries, k) <==> k in Keys(entries)
  {
    if k in Keys(entries) {
      var i :| 0 <= i < |Keys(entries)| && Keys(entries)[i] == k;
      assert entries[i].0 == k;
    }
  }

  /** `bool(v)` */
  predicate Truthy(v: Value) {
    match v
    case Str(s) => s != []
    case Int(i) => i != 0
    case Float(r) => r != 0.0
    case Bool(b) => b
    case Null => false
    case List(items) => items != []
    case Obj(entries) => entries != []
    case Opaque(_, _) => true
  }

  /** `json.dumps(v)` succeeds: everything but opaque objects, at any depth. */
  predicate Serialisable(v: Value)
    decreases v
  {
    match v
    case List(items) => forall i | 0 <= i < |items| :: Serialisable(items[i])
    case Obj(entries) => forall i | 0 <= i < |entries| :: Serialisable(entries[i].1)
    case Opaque(_, _) => false
    case _ => true
  }

  /** `type(v).__name__` */
  function TypeName(v: Value): string {
    match v
    case Str(_) => "str"
    case Int(_) => "int"
    case Float(_) => "float"
    case Bool(_) => "bool"
    case Null => "NoneType"
    case List(_) => "list"
    case Obj(_) => "dict"
    case Opaque(t, _) => t
  }

  /** `str(v)`. Strings, integers, booleans and None are rendered exactly;
      floats and containers go through `repr`, which stands for Python's
      repr of them. */
  function PyStr(v: Value, repr: Value -> string): string {
    match v
    case Str(s) => s
    case Int(i) => IntToString(i)
    case Bool(b) => if b then "True" else "False"
    case Null => "None"
    case Opaque(_, text) => text
    case _ => repr(v)
  }

  /** `v.copy()`: a shallow copy of a list or dictionary, which as a value is
      `v` itself; other values have no `copy` method. */
  function CopyOf(v: Value): (r: Option<Value>)
    ensures r.Some? <==> v.List? || v.Obj?
    ensures r.Some? ==> r.value == v
  {
    if v.List? || v.Obj? then Some(v) else None
  }

  /** Message of the AttributeError raised by `v.<attr>` on a value without it. */
  function NoAttribute(v: Value, attr: string): string {
    "'" + TypeName(v) + "' object has no attribute '" + attr + "'"
  }

  /** `len(v)`: the length of a string, list or dictionary; other values
      have none. */
  function Len(v: Value): (r: Option<nat>)
    ensures r.Some? <==> v.Str? || v.List? || v.Obj?
  {
    match v
    case Str(s) => Some(|s|)
    case List(items) => Some(|items|)
    case Obj(entries) => Some(|entries|)
    case _ => None
  }

  /** Message of the TypeError raised by `len(v)` on a value without a length. */
  function NoLen(v: Value): string {
    "object of type '" + TypeName(v) + "' has no len()"
  }

  /** Lists and dictionaries cannot be dictionary keys or set members. */
  predicate Unhashable(v: Value) {
    v.List? || v.Obj?
  }

  /** Message of the TypeError raised when `v` is used as a dictionary key. */
  function UnhashableMessage(v: Value): string {
    "unhashable type: '" + TypeName(v) + "'"
  }

  /** The items `for x in v` visits: list items, the characters of a string,
      the keys of a dictionary; other values are not iterable. */
  function Iterate(v: Value): (r: Option<seq<Value>>)
    ensures r.Some? <==> v.List? || v.Str? || v.Obj?
    ensures v.List? ==> r == Some(v.items)
  {
    match v
    case List(items) => Some(items)
    case Str(s) => Some(seq(|s|, i requires 0 <= i < |s| => Str([s[i]])))
    case Obj(entries) => Some(seq(|entries|, i requires 0 <= i < |entries| => Str(entries[i].0)))
    case _ => None
  }

  function DigitChar(d: nat): char
    requires d < 10
  {
    "0123456789"[d]
  }

  function NatToString(n: nat): (r: string)
    ensures r != []
    ensures forall i :: 0 <= i < |r| ==> '0' <= r[i] <= '9'
    decreases n
  {
    if n < 10 then [DigitChar(n)] else NatToString(n / 10) + [DigitChar(n % 10)]
  }

  /** `str(i)` for an integer */
  function IntToString(i: int): (r: string)
    ensures r != []
    ensures i >= 0 ==> r[0] != '-'
    ensures i < 0 ==> r[0] == '-'
  {
    if i >= 0 then NatToString(i) else "-" + NatToString(-i)
  }

  /** Reading decimal digits back: the partner of NatToString. */
  function ParseNat(s: string): nat
    requires forall i :: 0 <= i < |s| ==> '0' <= s[i] <= '9'
  {
    if s == [] then 0 else ParseNat(s[..|s| - 1]) * 10 + (s[|s| - 1] - '0') as nat
  }

  lemma {:induction false} NatToStringRoundTrip(n: nat)
    ensures ParseNat(NatToString(n)) == n
    decreases n
  {
    var r := NatToString(n);
    if n < 10 {
      assert r == [DigitChar(n)];
      assert r[..0] == [];
    } else {
      var p := NatToString(n / 10);
      assert r == p + [DigitChar(n % 10)];
      assert r[..|r| - 1] == p;
      NatToStringRoundTrip(n / 10);
    }
  }
}
