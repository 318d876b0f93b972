/** Parsed JSON values as the scrapers walk them, with JavaScript's property
    access, optional chaining, truthiness, `||` and `parseFloat` of an
    arbitrary value. `None` of `Option<Json>` is `undefined`. */
module JsonValues {

  import opened Wrappers
  import opened Text
  import opened Numbers

  datatype Json =
    | JNull
    | JBool(b: bool)
    | JNum(n: real)
    | JStr(s: string)
    | JArr(items: seq<Json>)
    | JObj(fields: seq<(string, Json)>)

  /** The value of `key` in a field list; `JSON.parse` keeps the last of
      duplicated keys, so the search runs from the end. */
  function Lookup(fields: seq<(string, Json)>, key: string): (r: Option<Json>)
    ensures r.Some? ==> exists i :: 0 <= i < |fields| && fields[i] == (key, r.value)
    ensures r.None? ==> forall i :: 0 <= i < |fields| ==> fields[i].0 != key
  {
    if fields == [] then None
    else if fields[|fields| - 1].0 == key then Some(fields[|fields| - 1].1)
    else Lookup(fields[..|fields| - 1], key)
  }

  /** A found value is that of the last binding of `key`: no later field
      binds it again. */
  lemma {:induction false} LookupIsLastBinding(fields: seq<(string, Json)>, key: string)
    requires Lookup(fields, key).Some?
    ensures exists i :: 0 <= i < |fields| && fields[i] == (key, Lookup(fields, key).value)
                        && forall j :: i < j < |fields| ==> fields[j].0 != key
  {
    var n := |fields|;
    var v := Lookup(fields, key).value;
    if fields[n - 1].0 == key {
      assert fields[n - 1] == (key, v);
    } else {
      var front := fields[..n - 1];
      assert Lookup(front, key) == Lookup(fields, key);
      LookupIsLastBinding(front, key);
      var i :| 0 <= i < |front| && front[i] == (key, v) && forall j :: i < j < |front| ==> front[j].0 != key;
      assert fields[i] == front[i];
      forall j | i < j < n
        ensures fields[j].0 != key
      {
        if j < n - 1 {
          assert fields[j] == front[j];
        }
      }
    }
  }

  /** `v?.key`: `undefined` on `undefined` and `null`, the member on an
      object, and `undefined` on every other value (built-in properties of
      strings and arrays are not read by the scrapers under a data key). */
  function Get(v: Option<Json>, key: string): (r: Option<Json>)
    ensures r.Some? ==> v.Some? && v.value.JObj?
  {
    match v
    case Some(JObj(fields)) => Lookup(fields, key)
    case _ => None
  }

  /** `v.key` without optional chaining throws on `undefined` and `null`. */
  predicate AccessThrows(v: Option<Json>) {
    v.None? || v == Some(JNull)
  }

  /** JavaScript truthiness of a value (`undefined` is falsy). */
  predicate Truthy(v: Option<Json>) {
    match v
    case None => false
    case Some(JNull) => false
    case Some(JBool(b)) => b
    case Some(JNum(n)) => n != 0.0
    case Some(JStr(s)) => s != []
    case Some(_) => true
  }

  /** `a || b`. */
  function Or(a: Option<Json>, b: Option<Json>): (r: Option<Json>)
    ensures Truthy(a) ==> r == a
    ensures !Truthy(a) ==> r == b
  {
    if Truthy(a) then a else b
  }

  /** `Array.isArray(v)`. */
  predicate IsArray(v: Option<Json>) {
    v.Some? && v.value.JArr?
  }

  /** `v === false`. */
  predicate IsFalse(v: Option<Json>) { v == Some(JBool(false)) }

  /** `v === true`. */
  predicate IsTrue(v: Option<Json>) { v == Some(JBool(true)) }

  /** `parseFloat(v)`, which first converts `v` to a string: `undefined`,
      `null`, booleans and objects become non-numeric text; a number is
      itself; an array becomes its elements joined by ',', which parses as
      its first element does, since ',' ends a number. */
  function ParseFloatOf(v: Option<Json>): (r: Option<real>)
    ensures v.Some? && v.value.JNum? ==> r == Some(v.value.n)
    ensures v.Some? && v.value.JStr? ==> r == ParseFloat(v.value.s)
    ensures v.None? || (v.Some? && (v.value.JNull? || v.value.JBool? || v.value.JObj?)) ==> r.None?
  {
    match v
    case None => None
    case Some(j) => ParseFloatOfValue(j)
  }

  function ParseFloatOfValue(j: Json): Option<real>
  {
    match j
    case JNum(n) => Some(n)
    case JStr(s) => ParseFloat(s)
    case JArr(items) => if items == [] then None else ParseFloatOfValue(items[0])
    case _ => None
  }

  /** `a || d` where the default `d` is a literal, so the result is defined. */
  function OrElse(a: Option<Json>, d: Json): (r: Json)
    ensures Truthy(a) ==> Some(r) == a
    ensures !Truthy(a) ==> r == d
  {
    if Truthy(a) then a.value else d
  }

  /** The values `for (const x of v)` visits: an array's elements, a
      string's characters (as one-character strings); any other value is
      not iterable and the loop throws (`None`). */
  function Iterate(v: Json): (r: Option<seq<Json>>)
    ensures v.JArr? ==> r == Some(v.items)
    ensures r.Some? <==> v.JArr? || v.JStr?
  {
    match v
    case JArr(items) => Some(items)
    case JStr(s) => Some(seq(|s|, i requires 0 <= i < |s| => JStr([s[i]])))
    case _ => None
  }
}
