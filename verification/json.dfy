/**
 * JSON values as the EDI reading service returns them, with the small part
 * of JavaScript's property-access rules that `normalize` relies on:
 * `v.key`, `v?.key`, `v?.[0]`, truthiness and `||`.
 */
module Json {
  import opened Wrappers

  /** An object keeps its members in key order. */
  datatype Json =
    | Null
    | Bool(b: bool)
    | Num(n: real)
    | Str(s: string)
    | Arr(items: seq<Json>)
    | Obj(members: seq<Member>)

  datatype Member = Member(key: string, value: Json)

  /** The only exception property access raises: reading a property of `null` or `undefined`. */
  datatype JsError = TypeError

  /** The keys of an object's members, in order. */
  function Keys(ms: seq<Member>): (r: seq<string>)
    ensures |r| == |ms|
    ensures forall i :: 0 <= i < |ms| ==> r[i] == ms[i].key
  {
    if ms == [] then [] else [ms[0].key] + Keys(ms[1..])
  }

  /** The values of an object's members, in order. */
  function Values(ms: seq<Member>): (r: seq<Json>)
    ensures |r| == |ms|
    ensures forall i :: 0 <= i < |ms| ==> r[i] == ms[i].value
  {
    if ms == [] then [] else [ms[0].value] + Values(ms[1..])
  }

  /** No key occurs twice, as in every JavaScript object. */
  predicate DistinctKeys(ms: seq<Member>) {
    forall i, j :: 0 <= i < j < |ms| ==> ms[i].key != ms[j].key
  }

  /** The value stored under `key`, or `undefined`. */
  function Lookup(ms: seq<Member>, key: string): (r: Option<Json>)
    ensures r.None? <==> key !in Keys(ms)
    ensures r.Some? ==> exists i :: 0 <= i < |ms| && ms[i] == Member(key, r.value)
  {
    if ms == [] then None
    else if ms[0].key == key then Some(ms[0].value)
    else Lookup(ms[1..], key)
  }

  /** With distinct keys, the member at `i` is what a lookup of its key finds. */
  lemma {:induction false} LookupDistinct(ms: seq<Member>, i: nat)
    requires DistinctKeys(ms) && i < |ms|
    ensures Lookup(ms, ms[i].key) == Some(ms[i].value)
  {
    if i > 0 {
      LookupDistinct(ms[1..], i - 1);
    }
  }

  /** JavaScript truthiness; `None` is `undefined`. */
  predicate Truthy(v: Option<Json>) {
    match v
    case None => false
    case Some(Null) => false
    case Some(Bool(b)) => b
    case Some(Num(n)) => n != 0.0
    case Some(Str(s)) => s != ""
    case Some(Arr(_)) => true
    case Some(Obj(_)) => true
  }

  /** `a || b` */
  function Or(a: Option<Json>, b: Json): (r: Json)
    ensures Truthy(a) ==> Some(r) == a
    ensures !Truthy(a) ==> r == b
  {
    if Truthy(a) then a.value else b
  }

  /** `v.key`: a TypeError on `null` and `undefined`; `undefined` on values without that member. */
  function Get(v: Option<Json>, key: string): (r: Result<Option<Json>, JsError>)
    ensures r.Failure? <==> v == None || v == Some(Null)
  {
    match v
    case None => Failure(TypeError)
    case Some(Null) => Failure(TypeError)
    case Some(Obj(ms)) => Success(Lookup(ms, key))
    case Some(_) => Success(None)
  }

  /** `v?.key`: short-circuits to `undefined` on `null` and `undefined`. */
  function GetOpt(v: Option<Json>, key: string): (r: Option<Json>) {
    match v
    case None => None
    case Some(Null) => None
    case Some(Obj(ms)) => Lookup(ms, key)
    case Some(_) => None
  }

  /** `v?.[0]`: the first element of an array or character of a string, member "0" of an object. */
  function First(v: Option<Json>): Option<Json> {
    match v
    case Some(Arr(items)) => if items == [] then None else Some(items[0])
    case Some(Obj(ms)) => Lookup(ms, "0")
    case Some(Str(s)) => if s == [] then None else Some(Str([s[0]]))
    case _ => None
  }
}
