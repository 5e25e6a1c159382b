/** Python values as the services see them: what json.loads produces, what
    Motor hands back from MongoDB (datetimes, ObjectIds), and the dict
    operations the services perform on them. */
module Json {
  import opened Wrappers
  import opened Text

  /** A Python value. Dicts keep insertion order, as Python dicts do; a dict
      never holds the same key twice (see DistinctKeys). `Time` is a datetime
      (or any value with an isoformat() method), given as seconds since the
      epoch; `ObjectId` is a MongoDB object id, given by its hex text. */
  datatype Value =
    | Null
    | Bool(b: bool)
    | Int(i: int)
    | Float(r: real)
    | Str(s: string)
    | Arr(items: seq<Value>)
    | Obj(entries: seq<(string, Value)>)
    | Time(at: int)
    | ObjectId(hex: string)

  type Entries = seq<(string, Value)>

  /** Python truthiness: None, False, 0, 0.0 and empty containers are false;
      datetimes and ObjectIds are always true. */
  predicate Truthy(v: Value)
  {
    match v
    case Null => false
    case Bool(b) => b
    case Int(i) => i != 0
    case Float(r) => r != 0.0
    case Str(s) => s != []
    case Arr(items) => items != []
    case Obj(entries) => entries != []
    case Time(_) => true
    case ObjectId(_) => true
  }

  /** type(v).__name__ */
  function TypeName(v: Value): string
  {
    match v
    case Null => "NoneType"
    case Bool(_) => "bool"
    case Int(_) => "int"
    case Float(_) => "float"
    case Str(_) => "str"
    case Arr(_) => "list"
    case Obj(_) => "dict"
    case Time(_) => "datetime"
    case ObjectId(_) => "ObjectId"
  }

  // ------------------------------------------------------------ dict access

  /** The keys of a dict, in insertion order. */
  function Keys(e: Entries): (ks: seq<string>)
    ensures |ks| == |e|
  {
    if e == [] then [] else [e[0].0] + Keys(e[1..])
  }

  /** The i-th key is the key of the i-th entry. */
  lemma {:induction false} KeysIndex(e: Entries)
    ensures forall i :: 0 <= i < |e| ==> Keys(e)[i] == e[i].0
  {
    if e != [] {
      KeysIndex(e[1..]);
      assert forall i :: 1 <= i < |e| ==> Keys(e)[i] == Keys(e[1..])[i - 1];
    }
  }

  /** No key occurs twice. */
  predicate DistinctKeys(e: Entries)
  {
    forall i, j :: 0 <= i < j < |e| ==> e[i].0 != e[j].0
  }

  /** `k in d` */
  predicate HasKey(e: Entries, k: string)
  {
    k in Keys(e)
  }

  /** `d.get(k)`: the value stored under the first occurrence of k, if any. */
  function Get(e: Entries, k: string): (r: Option<Value>)
    ensures r.Some? <==> HasKey(e, k)
  {
    if e == [] then None
    else if e[0].0 == k then Some(e[0].1)
    else Get(e[1..], k)
  }

  /** A value found by Get is stored under its key. */
  lemma {:induction false} GetIn(e: Entries, k: string)
    requires HasKey(e, k)
    ensures (k, Get(e, k).value) in e
  {
    if e[0].0 != k {
      GetIn(e[1..], k);
    }
  }

  /** Dicts whose entries have the same keys position by position have the
      same key list. */
  lemma KeysEqual(a: Entries, b: Entries)
    requires |a| == |b| && forall i :: 0 <= i < |a| ==> a[i].0 == b[i].0
    ensures Keys(a) == Keys(b)
  {
    KeysIndex(a);
    KeysIndex(b);
  }

  /** A stored entry's key is present. */
  lemma InHasKey(e: Entries, k: string, v: Value)
    requires (k, v) in e
    ensures HasKey(e, k)
  {
    var i :| 0 <= i < |e| && e[i] == (k, v);
    KeysIndex(e);
    assert Keys(e)[i] == k;
  }

  /** The first entry under a key is what Get finds. */
  lemma {:induction false} GetFirst(e: Entries, i: nat)
    requires i < |e| && forall j :: 0 <= j < i ==> e[j].0 != e[i].0
    ensures Get(e, e[i].0) == Some(e[i].1)
  {
    if i > 0 {
      GetFirst(e[1..], i - 1);
    }
  }

  /** `d.get(k, default)` */
  function GetOr(e: Entries, k: string, default: Value): Value
  {
    match Get(e, k)
    case Some(v) => v
    case None => default
  }

  /** Keys and lookups on a dict with one more entry in front. */
  lemma KeysCons(x: (string, Value), t: Entries)
    ensures Keys([x] + t) == [x.0] + Keys(t)
    ensures HasKey([x] + t, x.0)
    ensures forall k :: k != x.0 ==> (HasKey([x] + t, k) <==> HasKey(t, k))
  {
    assert ([x] + t)[1..] == t;
  }

  lemma GetCons(x: (string, Value), t: Entries)
    ensures Get([x] + t, x.0) == Some(x.1)
    ensures forall k :: k != x.0 ==> Get([x] + t, k) == Get(t, k)
  {
    assert ([x] + t)[1..] == t;
  }

  /** `d[k] = v`: overwrite the value in place when k is present (its
      position is kept), otherwise append a new entry. */
  function Set(e: Entries, k: string, v: Value): (r: Entries)
    ensures Keys(r) == if HasKey(e, k) then Keys(e) else Keys(e) + [k]
    ensures Get(r, k) == Some(v)
    ensures forall k' :: k' != k ==> Get(r, k') == Get(e, k')
  {
    if e == [] then [(k, v)]
    else
      assert e == [e[0]] + e[1..];
      KeysCons(e[0], e[1..]);
      GetCons(e[0], e[1..]);
      if e[0].0 == k then
        KeysCons((k, v), e[1..]);
        GetCons((k, v), e[1..]);
        [(k, v)] + e[1..]
      else
        var t := Set(e[1..], k, v);
        KeysCons(e[0], t);
        GetCons(e[0], t);
        assert HasKey(e, k) == HasKey(e[1..], k);
        assert Keys([e[0]] + t) == if HasKey(e, k) then Keys(e) else Keys(e) + [k] by {
          if !HasKey(e, k) {
            assert [e[0].0] + (Keys(e[1..]) + [k]) == [e[0].0] + Keys(e[1..]) + [k];
          }
        }
        [e[0]] + t
  }

  /** Assigning a new key appends it at the end. */
  lemma {:induction false} SetNewKey(e: Entries, k: string, v: Value)
    requires !HasKey(e, k)
    ensures Set(e, k, v) == e + [(k, v)]
  {
    if e != [] {
      var t := e[1..];
      assert e == [e[0]] + t;
      KeysCons(e[0], t);
      assert e[0].0 != k && !HasKey(t, k);
      SetNewKey(t, k, v);
      calc {
        Set(e, k, v);
        [e[0]] + Set(t, k, v);
        [e[0]] + (t + [(k, v)]);
        e + [(k, v)];
      }
    }
  }

  /** Setting a key keeps the keys distinct. */
  lemma {:induction false} SetDistinct(e: Entries, k: string, v: Value)
    requires DistinctKeys(e)
    ensures DistinctKeys(Set(e, k, v))
  {
    var r := Set(e, k, v);
    KeysIndex(r);
    KeysIndex(e);
    forall i, j | 0 <= i < j < |r| ensures r[i].0 != r[j].0 {
      assert Keys(r)[i] == r[i].0 && Keys(r)[j] == r[j].0;
      if !HasKey(e, k) && j == |e| {
        assert Keys(r)[i] == Keys(e)[i];
      } else {
        assert Keys(r)[i] == Keys(e)[i] && Keys(r)[j] == Keys(e)[j];
      }
    }
  }

  /** The dict literal `{**d, **more}` built step by step: every entry of
      `more`, in order, is assigned into `e`. */
  function Update(e: Entries, more: Entries): Entries
    decreases |more|
  {
    if more == [] then e
    else Update(Set(e, more[0].0, more[0].1), more[1..])
  }

  /** After `{**d, **more}`, a key of `more` maps to its value there, and any
      other key keeps its value in d. */
  lemma {:induction false} UpdateGet(e: Entries, more: Entries, k: string)
    requires DistinctKeys(more)
    ensures Get(Update(e, more), k) == if HasKey(more, k) then Get(more, k) else Get(e, k)
    decreases |more|
  {
    if more != [] {
      var s := Set(e, more[0].0, more[0].1);
      UpdateGet(s, more[1..], k);
      assert Keys(more) == [more[0].0] + Keys(more[1..]);
      if k != more[0].0 {
        assert Get(s, k) == Get(e, k);
      } else {
        assert !HasKey(more[1..], k) by {
          KeysIndex(more[1..]);
          forall i | 0 <= i < |more[1..]| ensures Keys(more[1..])[i] != k {
            assert more[1..][i] == more[i + 1];
          }
        }
      }
    }
  }

  /** `len(v)`: defined on strings, lists and dicts; TypeError otherwise. */
  function PyLen(v: Value): Option<nat>
  {
    match v
    case Str(s) => Some(|s|)
    case Arr(items) => Some(|items|)
    case Obj(entries) => Some(|entries|)
    case _ => None
  }

  /** `for x in v`: a list yields its items, a dict its keys, a string its
      characters; any other value is not iterable (TypeError). */
  function Iterate(v: Value): (r: Option<seq<Value>>)
    ensures r.Some? <==> v.Arr? || v.Obj? || v.Str?
    ensures r.Some? ==> Some(|r.value|) == PyLen(v)
  {
    match v
    case Arr(items) => Some(items)
    case Obj(entries) => Some(seq(|entries|, i requires 0 <= i < |entries| => Str(entries[i].0)))
    case Str(s) => Some(seq(|s|, i requires 0 <= i < |s| => Str([s[i]])))
    case _ => None
  }

  // ------------------------------------------------------------ json module

  /** A value json.dumps can serialise: no datetime and no ObjectId anywhere. */
  predicate Serializable(v: Value)
  {
    match v
    case Time(_) => false
    case ObjectId(_) => false
    case Arr(items) => forall i :: 0 <= i < |items| ==> Serializable(items[i])
    case Obj(entries) => forall i :: 0 <= i < |entries| ==> Serializable(entries[i].1)
    case _ => true
  }

  /** The type name of the first value json.dumps cannot serialise, in the
      depth-first order in which it walks the value. */
  function FirstUnserializable(v: Value): (r: Option<string>)
    ensures r.None? <==> Serializable(v)
  {
    match v
    case Time(_) => Some("datetime")
    case ObjectId(_) => Some("ObjectId")
    case Arr(items) =>
      var found := seq(|items|, i requires 0 <= i < |items| => FirstUnserializable(items[i]));
      assert forall i :: 0 <= i < |items| ==> (found[i].None? <==> Serializable(items[i]));
      FirstIn(found)
    case Obj(entries) =>
      var found := seq(|entries|, i requires 0 <= i < |entries| => FirstUnserializable(entries[i].1));
      assert forall i :: 0 <= i < |entries| ==> (found[i].None? <==> Serializable(entries[i].1));
      FirstIn(found)
    case _ => None
  }

  function FirstIn(found: seq<Option<string>>): (r: Option<string>)
    ensures r.None? <==> forall i :: 0 <= i < |found| ==> found[i].None?
  {
    if found == [] then None
    else if found[0].Some? then found[0]
    else FirstIn(found[1..])
  }

  /** The json library, left abstract: `loads` parses text, or gives the
      message of the JSONDecodeError it raises; `render` is the text
      json.dumps(v, indent=2) produces for a serialisable v. */
  datatype Codec = Codec(loads: string -> Result<Value, string>, render: Value -> string)

  /** json.dumps: a value holding a datetime or an ObjectId raises TypeError. */
  function Dumps(codec: Codec, v: Value): (r: Result<string, Raised>)
    ensures r.Ok? <==> Serializable(v)
    ensures r.Ok? ==> r.value == codec.render(v)
    ensures r.Err? ==> r.error.PyException? && r.error.kind == "TypeError"
  {
    match FirstUnserializable(v)
    case Some(t) => Err(PyException("TypeError", "Object of type " + t + " is not JSON serializable"))
    case None => Ok(codec.render(v))
  }

  /** str(e) for a raised exception; Starlette renders an HTTPException as
      "status: detail". */
  function ErrorText(e: Raised): string
  {
    match e
    case HttpException(status, detail) => NatToString(status) + ": " + detail
    case PyException(_, message) => message
  }
}
