/** The JavaScript values the browser views receive from `fetchAPI` (the
    result of `response.json()`, or `null` when the fetch failed), and the
    operators the views apply to them: truthiness, `||`, `??`, optional
    chaining, `===` and template-literal conversion. Numbers are integers
    here. */
module Js {
  import opened Wrappers
  import opened Strings

  datatype JsVal =
    | Undefined
    | Null
    | Bool(b: bool)
    | Num(n: int)
    | Str(s: string)
    | Arr(items: seq<JsVal>)
    | Obj(fields: seq<(string, JsVal)>)

  /** JavaScript truthiness: every array and object is truthy. */
  predicate Truthy(v: JsVal)
  {
    match v
    case Undefined => false
    case Null => false
    case Bool(b) => b
    case Num(n) => n != 0
    case Str(s) => s != ""
    case Arr(_) => true
    case Obj(_) => true
  }

  predicate Nullish(v: JsVal) { v.Undefined? || v.Null? }

  /** `a || b`. */
  function Or(a: JsVal, b: JsVal): (r: JsVal)
    ensures Truthy(a) ==> r == a
    ensures !Truthy(a) ==> r == b
  {
    if Truthy(a) then a else b
  }

  /** `a ?? b`: unlike `||`, keeps `0`, `false` and `""`. */
  function Coalesce(a: JsVal, b: JsVal): (r: JsVal)
    ensures !Nullish(a) ==> r == a
    ensures Nullish(a) ==> r == b
  {
    if Nullish(a) then b else a
  }

  /** `v?.key`: a member of an object, `undefined` for anything else (a
      primitive has none of the members the views read). */
  function Get(v: JsVal, key: string): (r: JsVal)
    ensures !v.Obj? ==> r == Undefined
    ensures v.Obj? && r != Undefined ==> exists i :: 0 <= i < |v.fields| && v.fields[i] == (key, r)
  {
    match v
    case Obj(fields) =>
      (match LastBinding(fields, key)
       case Some(x) => x
       case None => Undefined)
    case _ => Undefined
  }

  /** `v.key`: None when `v` is `null` or `undefined`, where JavaScript
      throws a TypeError. */
  function Member(v: JsVal, key: string): (r: Option<JsVal>)
    ensures r.None? <==> Nullish(v)
    ensures r.Some? ==> r.value == Get(v, key)
  {
    if Nullish(v) then None else Some(Get(v, key))
  }

  /** `a === b`: primitives compare by value; arrays and objects compare by
      identity, and two values decoded from JSON are never the same object. */
  predicate StrictEq(a: JsVal, b: JsVal)
  {
    !a.Arr? && !a.Obj? && a == b
  }

  /** `Array.isArray(v)`. */
  predicate IsArray(v: JsVal) { v.Arr? }

  /** `v.length` on a value that is not null or undefined: the size of an
      array or a string, an object's own `length` property, and `undefined`
      for numbers and booleans. */
  function Length(v: JsVal): (r: JsVal)
    ensures v.Arr? ==> r == Num(|v.items|)
    ensures v.Str? ==> r == Num(|v.s|)
    ensures v.Obj? ==> r == Get(v, "length")
    ensures !v.Arr? && !v.Str? && !v.Obj? ==> r == Undefined
  {
    match v
    case Arr(items) => Num(|items|)
    case Str(s) => Num(|s|)
    case Obj(_) => Get(v, "length")
    case _ => Undefined
  }

  /** The elements of `v` when it is an array, otherwise none. */
  function Elements(v: JsVal): (r: seq<JsVal>)
    ensures v.Arr? ==> r == v.items
    ensures !v.Arr? ==> r == []
  {
    if v.Arr? then v.items else []
  }

  /** `Object.values(v)` for a decoded object. */
  function Values(v: JsVal): (r: seq<JsVal>)
    ensures v.Obj? ==> |r| == |v.fields| && forall i :: 0 <= i < |r| ==> r[i] == v.fields[i].1
  {
    match v
    case Obj(fields) => seq(|fields|, i requires 0 <= i < |fields| => fields[i].1)
    case Arr(items) => items
    case Str(s) => seq(|s|, i requires 0 <= i < |s| => Str([s[i]]))
    case _ => []
  }

  /** `String(v)`, as a template literal `${v}` writes it. */
  function ToText(v: JsVal): (r: string)
    ensures v.Num? ==> r == IntToString(v.n)
    ensures v.Str? ==> r == v.s
    decreases v
  {
    match v
    case Undefined => "undefined"
    case Null => "null"
    case Bool(b) => if b then "true" else "false"
    case Num(n) => IntToString(n)
    case Str(s) => s
    case Arr(items) =>
      Join(seq(|items|, i requires 0 <= i < |items| => if Nullish(items[i]) then "" else ToText(items[i])), ",")
    case Obj(_) => "[object Object]"
  }

  /** `items.filter(keep)`. */
  function Filter(items: seq<JsVal>, keep: JsVal -> bool): (r: seq<JsVal>)
    ensures |r| <= |items|
    ensures forall x :: x in r ==> x in items && keep(x)
    ensures forall x :: x in items && keep(x) ==> x in r
  {
    if items == [] then []
    else Filter(items[..|items| - 1], keep) + (if keep(items[|items| - 1]) then [items[|items| - 1]] else [])
  }

  /** Filtering distributes over concatenation, so the kept elements stay in
      input order. */
  lemma {:induction false} FilterAppend(a: seq<JsVal>, b: seq<JsVal>, keep: JsVal -> bool)
    ensures Filter(a + b, keep) == Filter(a, keep) + Filter(b, keep)
    decreases |b|
  {
    if b == [] {
      assert a + b == a;
    } else {
      var n := |b| - 1;
      var ab := a + b;
      assert ab[..|ab| - 1] == a + b[..n];
      assert ab[|ab| - 1] == b[n];
      FilterAppend(a, b[..n], keep);
      FilterLast(ab, keep);
      FilterLast(b, keep);
    }
  }

  lemma FilterLast(items: seq<JsVal>, keep: JsVal -> bool)
    requires items != []
    ensures Filter(items, keep) ==
      Filter(items[..|items| - 1], keep) + (if keep(items[|items| - 1]) then [items[|items| - 1]] else [])
  {
  }

  /** Every item read with `read`, in order, or None when one of the reads
      throws (a `for` loop that reads a property of each item). */
  function ReadAll<T>(items: seq<JsVal>, read: JsVal -> Option<T>): (r: Option<seq<T>>)
    ensures r.Some? <==> forall i :: 0 <= i < |items| ==> read(items[i]).Some?
    ensures r.Some? ==> |r.value| == |items| && forall i :: 0 <= i < |items| ==> r.value[i] == read(items[i]).value
  {
    if items == [] then Some([])
    else
      var n := |items| - 1;
      var pre := items[..n];
      assert forall i :: 0 <= i < n ==> pre[i] == items[i];
      var done := ReadAll(pre, read);
      var last := read(items[n]);
      if done.None? || last.None? then None
      else
        assert forall i :: 0 <= i < n ==> (done.value + [last.value])[i] == done.value[i];
        Some(done.value + [last.value])
  }

  /** The index of the first element satisfying `p` (`items.find(p)`). */
  function FindFirst(items: seq<JsVal>, p: JsVal -> bool): (r: Option<nat>)
    ensures r.Some? ==>
      r.value < |items| && p(items[r.value]) && forall i :: 0 <= i < r.value ==> !p(items[i])
    ensures r.None? ==> forall i :: 0 <= i < |items| ==> !p(items[i])
  {
    if items == [] then None
    else if p(items[0]) then Some(0)
    else
      match FindFirst(items[1..], p)
      case None => None
      case Some(k) => Some(k + 1)
  }

  /** `items.find(p)`: the element, or `undefined`. */
  function Find(items: seq<JsVal>, p: JsVal -> bool): JsVal
  {
    match FindFirst(items, p)
    case Some(k) => items[k]
    case None => Undefined
  }

  /** `items.forEach(x => out.push(line(x)))` on an empty `out`. */
  method PushLines(items: seq<JsVal>, line: JsVal -> string) returns (out: seq<string>)
    ensures |out| == |items|
    ensures forall i :: 0 <= i < |items| ==> out[i] == line(items[i])
  {
    out := [];
    var i := 0;
    while i < |items|
      invariant 0 <= i <= |items|
      invariant |out| == i
      invariant forall k :: 0 <= k < i ==> out[k] == line(items[k])
    {
      out := out + [line(items[i])];
      i := i + 1;
    }
  }
}
