/** JSON-shaped Python values: what json.load produces and what the
    entities store as attributes. `Null` is Python's None. Objects keep
    their key order, as Python dicts do. */
module Json {
  import opened Outcomes

  datatype Json =
    | Null
    | Bool(b: bool)
    | Int(i: int)
    | Str(s: string)
    | Arr(items: seq<Json>)
    | Obj(fields: seq<(string, Json)>)

  type Fields = seq<(string, Json)>

  /** Python truthiness: None, False, 0, '', [] and {} are false. */
  predicate Truthy(j: Json) {
    match j
    case Null => false
    case Bool(b) => b
    case Int(i) => i != 0
    case Str(s) => s != ""
    case Arr(items) => items != []
    case Obj(fields) => fields != []
  }

  /** bool and int values compare as numbers in Python (True == 1). */
  predicate IsNumber(j: Json) {
    j.Bool? || j.Int?
  }

  function NumberValue(j: Json): int
    requires IsNumber(j)
  {
    if j.Bool? then (if j.b then 1 else 0) else j.i
  }

  /** `a == b` on Python values: numbers by value, everything else structurally. */
  predicate PyEq(a: Json, b: Json) {
    if IsNumber(a) && IsNumber(b) then NumberValue(a) == NumberValue(b) else a == b
  }

  lemma PyEqIsEquivalence(a: Json, b: Json)
    ensures PyEq(a, a)
    ensures PyEq(a, b) == PyEq(b, a)
  {
  }

  /** `a or b` on Python values. */
  function Or(a: Json, b: Json): (r: Json)
    ensures Truthy(a) ==> r == a
    ensures !Truthy(a) ==> r == b
  {
    if Truthy(a) then a else b
  }

  /** d.get(k) on an ordered list of entries: the value of the first entry
      with key k. */
  function Get<V>(d: seq<(string, V)>, k: string): (r: Option<V>)
    ensures r.Some? <==> exists i :: 0 <= i < |d| && d[i].0 == k
    ensures r.Some? ==> exists i :: 0 <= i < |d| && d[i] == (k, r.value)
  {
    if d == [] then None
    else if d[0].0 == k then Some(d[0].1)
    else
      var r := Get(d[1..], k);
      assert forall i :: 1 <= i < |d| ==> d[i] == d[1..][i - 1];
      r
  }

  /** d[k] = v: replaces the value in place when k is present, else appends. */
  function Set(d: Fields, k: string, v: Json): (r: Fields)
    ensures Get(r, k) == Some(v)
    ensures forall k' :: k' != k ==> Get(r, k') == Get(d, k')
    decreases |d|
  {
    if d == [] then [(k, v)]
    else if d[0].0 == k then [(k, v)] + d[1..]
    else [d[0]] + Set(d[1..], k, v)
  }

  /** d.pop(k) on a dict with distinct keys: the dict without k. */
  function Remove(d: Fields, k: string): (r: Fields)
    ensures Get(r, k) == None
    ensures forall k' :: k' != k ==> Get(r, k') == Get(d, k')
  {
    if d == [] then []
    else if d[0].0 == k then Remove(d[1..], k)
    else [d[0]] + Remove(d[1..], k)
  }

  /** The dict as keyword arguments: key -> value, the first entry of a key winning. */
  function ToMap(d: Fields): (m: map<string, Json>)
    ensures forall k :: (k in m <==> Get(d, k).Some?)
    ensures forall k :: k in m ==> Get(d, k) == Some(m[k])
  {
    if d == [] then map[] else ToMap(d[1..])[d[0].0 := d[0].1]
  }

  /** Python's position for index i into a sequence of length n: a
      negative index counts from the end. */
  function Position(n: nat, i: int): (r: Option<nat>)
    ensures r.Some? <==> 0 - (n as int) <= i < n
    ensures r.Some? ==> r.value < n && (if i < 0 then r.value == n + i else r.value == i)
  {
    var j := if i < 0 then n + i else i;
    if 0 <= j < n then Some(j) else None
  }

  /** c[k] on a JSON value with any key: a dict looks the key up (its keys
      are strings, so no other key is found, and lists and dicts are
      unhashable); a list or a string takes an int (or bool) index; other
      values are not subscriptable. The KeyError for a scalar key that is
      not a string carries the key's repr, so the int key 0 gives
      KeyError("0"), which looks the same as a missing string key "0";
      Python's KeyError(0) and KeyError('0') differ. */
  function Index(c: Json, k: Json): (r: Result<Json>)
    ensures c.Obj? && k.Str? ==> (r.Ok? <==> Get(c.fields, k.s).Some?) && (r.Ok? ==> Get(c.fields, k.s) == Some(r.value))
    ensures c.Obj? && k.Str? && Get(c.fields, k.s).None? ==> r == Err(KeyError(k.s))
    ensures c.Obj? && (k.Arr? || k.Obj?) ==> r == Err(TypeError)
    ensures c.Arr? && IsNumber(k) ==>
      match Position(|c.items|, NumberValue(k))
      case None => r == Err(IndexError)
      case Some(j) => r == Ok(c.items[j])
    ensures (c.Arr? || c.Str?) && !IsNumber(k) ==> r == Err(TypeError)
    ensures (c.Null? || c.Bool? || c.Int?) ==> r == Err(TypeError)
  {
    match c
    case Obj(fields) =>
      if k.Arr? || k.Obj? then Err(TypeError)
      else if !k.Str? then Err(KeyError(Repr(k)))
      else (match Get(fields, k.s) case None => Err(KeyError(k.s)) case Some(v) => Ok(v))
    case Arr(items) =>
      if !IsNumber(k) then Err(TypeError)
      else (match Position(|items|, NumberValue(k)) case None => Err(IndexError) case Some(j) => Ok(items[j]))
    case Str(s) =>
      if !IsNumber(k) then Err(TypeError)
      else (match Position(|s|, NumberValue(k)) case None => Err(IndexError) case Some(j) => Ok(Str([s[j]])))
    case _ => Err(TypeError)
  }

  /** d[k] with a string key: only a dict has string keys. */
  function Subscript(d: Json, k: string): (r: Result<Json>)
    ensures d.Obj? && Get(d.fields, k).Some? <==> r.Ok?
    ensures r.Ok? ==> Get(d.fields, k) == Some(r.value)
    ensures d.Obj? && Get(d.fields, k).None? ==> r == Err(KeyError(k))
    ensures !d.Obj? ==> r == Err(TypeError)
  {
    Index(d, Str(k))
  }

  /** `for x in j`: a list yields its items, a dict its keys, a string its
      characters; other values are not iterable. */
  function Iterate(j: Json): (r: Result<seq<Json>>)
    ensures r.Err? <==> !(j.Arr? || j.Obj? || j.Str?)
    ensures r.Err? ==> r.error == TypeError
    ensures j.Arr? ==> r == Ok(j.items)
    ensures j.Obj? ==> r.Ok? && |r.value| == |j.fields| && forall i :: 0 <= i < |j.fields| ==> r.value[i] == Str(j.fields[i].0)
    ensures j.Str? ==> r.Ok? && |r.value| == |j.s| && forall i :: 0 <= i < |j.s| ==> r.value[i] == Str([j.s[i]])
  {
    match j
    case Arr(items) => Ok(items)
    case Obj(fields) => Ok(seq(|fields|, i requires 0 <= i < |fields| => Str(fields[i].0)))
    case Str(s) => Ok(seq(|s|, i requires 0 <= i < |s| => Str([s[i]])))
    case _ => Err(TypeError)
  }

  /** The decimal digits of a natural number. */
  function NatToDecimal(n: nat): (s: string)
    ensures |s| > 0
    ensures forall i :: 0 <= i < |s| ==> '0' <= s[i] <= '9'
    decreases n
  {
    var d := ['0' + (n % 10) as char];
    if n < 10 then d else NatToDecimal(n / 10) + d
  }

  /** str(i) for a Python int. */
  function IntToDecimal(i: int): string {
    if i < 0 then "-" + NatToDecimal(-i) else NatToDecimal(i)
  }

  /** repr(s) for a string; escaping of quotes and backslashes is not modelled. */
  function QuoteRepr(s: string): string {
    "'" + s + "'"
  }

  /** str(j): strings are themselves, containers use repr of their items. */
  function ToStr(j: Json): string {
    match j
    case Str(s) => s
    case _ => Repr(j)
  }

  function Repr(j: Json): string
    decreases j, 1
  {
    match j
    case Null => "None"
    case Bool(b) => if b then "True" else "False"
    case Int(i) => IntToDecimal(i)
    case Str(s) => QuoteRepr(s)
    case Arr(items) => "[" + ReprItems(j, items) + "]"
    case Obj(fields) => "{" + ReprFields(j, fields) + "}"
  }

  function ReprItems(ghost parent: Json, items: seq<Json>): string
    requires forall x :: x in items ==> x < parent
    decreases parent, 0, |items|
  {
    if items == [] then ""
    else
      assert items[0] in items;
      if |items| == 1 then Repr(items[0])
      else
        assert forall x :: x in items[1..] ==> x in items;
        Repr(items[0]) + ", " + ReprItems(parent, items[1..])
  }

  function ReprFields(ghost parent: Json, fields: Fields): string
    requires forall p :: p in fields ==> p.1 < parent
    decreases parent, 0, |fields|
  {
    if fields == [] then ""
    else
      assert fields[0] in fields;
      var first := QuoteRepr(fields[0].0) + ": " + Repr(fields[0].1);
      if |fields| == 1 then first
      else
        assert forall p :: p in fields[1..] ==> p in fields;
        first + ", " + ReprFields(parent, fields[1..])
  }

  /** str(d) for a dict of strings to strings, such as request headers. */
  function StringDictRepr(d: seq<(string, string)>): string {
    "{" + StringPairs(d) + "}"
  }

  function StringPairs(d: seq<(string, string)>): string {
    if d == [] then ""
    else
      var first := QuoteRepr(d[0].0) + ": " + QuoteRepr(d[0].1);
      if |d| == 1 then first else first + ", " + StringPairs(d[1..])
  }
}
