/** `toLowerCaseKeys`: lower-cases every object key of a JSON tree, at every depth. */
module EdinationUtils {
  import opened Wrappers
  import opened JsString
  import opened Json

  /** `acc[key] = value` on an object kept as an ordered member list. */
  function Assign(acc: seq<Member>, key: string, value: Json): seq<Member> {
    if acc == [] then [Member(key, value)]
    else if acc[0].key == key then [Member(key, value)] + acc[1..]
    else [acc[0]] + Assign(acc[1..], key, value)
  }

  /** The `reduce` in `toLowerCaseKeys`: the members assigned one after the other. */
  function Reduce(acc: seq<Member>, pairs: seq<Member>): seq<Member>
    decreases pairs
  {
    if pairs == [] then acc
    else Reduce(Assign(acc, pairs[0].key, pairs[0].value), pairs[1..])
  }

  /** Each member with its key lowered and its value transformed, before the `reduce`. */
  function Lowered(ms: seq<Member>): (r: seq<Member>)
    ensures |r| == |ms|
    decreases ms, 0
  {
    seq(|ms|, i requires 0 <= i < |ms| => Member(ToLowerCase(ms[i].key), ToLowerCaseKeys(ms[i].value)))
  }

  /** The members of a transformed object: later keys overwrite earlier ones that lower alike. */
  function LowerMembers(ms: seq<Member>): seq<Member>
    decreases ms, 1
  {
    Reduce([], Lowered(ms))
  }

  /** `toLowerCaseKeys(obj)`: arrays element by element, objects key by key, anything else as is. */
  function ToLowerCaseKeys(j: Json): Json
    decreases j, 2
  {
    match j
    case Arr(items) => Arr(seq(|items|, i requires 0 <= i < |items| => ToLowerCaseKeys(items[i])))
    case Obj(ms) => Obj(LowerMembers(ms))
    case _ => j
  }

  /** The index of the last member whose key is `key`, or -1. */
  function LastKeyIndex(ms: seq<Member>, key: string): (r: int)
    ensures -1 <= r < |ms|
    ensures r >= 0 ==> ms[r].key == key
    ensures forall j :: r < j < |ms| ==> ms[j].key != key
  {
    if ms == [] then -1
    else if ms[|ms| - 1].key == key then |ms| - 1
    else LastKeyIndex(ms[..|ms| - 1], key)
  }

  /** Every key of the tree is lower-case, at every depth. */
  predicate AllKeysLower(j: Json)
    decreases j, 2
  {
    match j
    case Arr(items) => forall i :: 0 <= i < |items| ==> AllKeysLower(items[i])
    case Obj(ms) => AllMembersLower(ms)
    case _ => true
  }

  predicate AllMembersLower(ms: seq<Member>)
    decreases ms, 0
  {
    forall i :: 0 <= i < |ms| ==> IsLower(ms[i].key) && AllKeysLower(ms[i].value)
  }

  /** An assignment keeps the keys in place and appends a key it has not seen. */
  lemma {:induction false} AssignKeys(acc: seq<Member>, key: string, value: Json)
    ensures Keys(Assign(acc, key, value)) == if key in Keys(acc) then Keys(acc) else Keys(acc) + [key]
  {
    if acc != [] {
      assert Keys(acc) == [acc[0].key] + Keys(acc[1..]);
      if acc[0].key != key {
        var rest := Assign(acc[1..], key, value);
        assert Assign(acc, key, value) == [acc[0]] + rest;
        AssignKeys(acc[1..], key, value);
        assert Keys([acc[0]] + rest) == [acc[0].key] + Keys(rest);
        assert key in Keys(acc) <==> key in Keys(acc[1..]);
        if key !in Keys(acc[1..]) {
          assert [acc[0].key] + (Keys(acc[1..]) + [key]) == ([acc[0].key] + Keys(acc[1..])) + [key];
        }
      } else {
        assert Keys([Member(key, value)] + acc[1..]) == [key] + Keys(acc[1..]);
      }
    }
  }

  /** Assigning a key not yet present appends it. */
  lemma {:induction false} AssignFresh(acc: seq<Member>, key: string, value: Json)
    requires key !in Keys(acc)
    ensures Assign(acc, key, value) == acc + [Member(key, value)]
  {
    if acc != [] {
      assert Keys(acc) == [acc[0].key] + Keys(acc[1..]);
      AssignFresh(acc[1..], key, value);
      assert acc == [acc[0]] + acc[1..];
    }
  }

  /** Each member after an assignment is the assigned one or the one that was there. */
  lemma {:induction false} AssignMembers(acc: seq<Member>, key: string, value: Json)
    ensures var r := Assign(acc, key, value);
      forall i :: 0 <= i < |r| ==> r[i] == Member(key, value) || (i < |acc| && r[i] == acc[i])
  {
    if acc != [] && acc[0].key != key {
      var r := Assign(acc, key, value);
      var rest := Assign(acc[1..], key, value);
      AssignMembers(acc[1..], key, value);
      assert r == [acc[0]] + rest;
      forall i | 0 < i < |r| ensures r[i] == Member(key, value) || (i < |acc| && r[i] == acc[i]) {
        assert r[i] == rest[i - 1];
      }
    }
  }

  /** After an assignment, the key holds the assigned value. */
  lemma {:induction false} AssignLookup(acc: seq<Member>, key: string, value: Json)
    ensures Lookup(Assign(acc, key, value), key) == Some(value)
  {
    if acc != [] && acc[0].key != key {
      AssignLookup(acc[1..], key, value);
      assert Assign(acc, key, value)[1..] == Assign(acc[1..], key, value);
    }
  }

  /** Assigning one key leaves the lookup of every other key as it was. */
  lemma {:induction false} AssignOther(acc: seq<Member>, key: string, value: Json, other: string)
    requires other != key
    ensures Lookup(Assign(acc, key, value), other) == Lookup(acc, other)
  {
    if acc != [] && acc[0].key != key {
      AssignOther(acc[1..], key, value, other);
      assert Assign(acc, key, value)[1..] == Assign(acc[1..], key, value);
    }
  }

  /** Assigning keeps keys distinct. */
  lemma AssignDistinct(acc: seq<Member>, key: string, value: Json)
    requires DistinctKeys(acc)
    ensures DistinctKeys(Assign(acc, key, value))
  {
    var r := Assign(acc, key, value);
    AssignKeys(acc, key, value);
    forall i, j | 0 <= i < j < |r| ensures r[i].key != r[j].key {
      assert Keys(r)[i] == r[i].key && Keys(r)[j] == r[j].key;
      if key in Keys(acc) {
        assert Keys(acc)[i] == acc[i].key && Keys(acc)[j] == acc[j].key;
      } else if j < |acc| {
        assert Keys(acc)[i] == acc[i].key && Keys(acc)[j] == acc[j].key;
      } else {
        assert Keys(acc)[i] == acc[i].key;
      }
    }
  }

  /** The reduce ends with the keys it started with plus the keys it assigned, still distinct. */
  lemma {:induction false} ReduceKeys(acc: seq<Member>, pairs: seq<Member>)
    ensures forall k :: k in Keys(Reduce(acc, pairs)) <==> k in Keys(acc) || k in Keys(pairs)
    ensures DistinctKeys(acc) ==> DistinctKeys(Reduce(acc, pairs))
    decreases pairs
  {
    if pairs != [] {
      var next := Assign(acc, pairs[0].key, pairs[0].value);
      ReduceKeys(next, pairs[1..]);
      AssignKeys(acc, pairs[0].key, pairs[0].value);
      if DistinctKeys(acc) {
        AssignDistinct(acc, pairs[0].key, pairs[0].value);
      }
      assert Keys(pairs) == [pairs[0].key] + Keys(pairs[1..]);
    }
  }

  /** After the reduce, a key holds the value of the last pair assigned to it. */
  lemma {:induction false} ReduceLookup(acc: seq<Member>, pairs: seq<Member>, key: string)
    ensures Lookup(Reduce(acc, pairs), key) ==
      var l := LastKeyIndex(pairs, key); if l >= 0 then Some(pairs[l].value) else Lookup(acc, key)
    decreases pairs
  {
    if pairs != [] {
      var next := Assign(acc, pairs[0].key, pairs[0].value);
      ReduceLookup(next, pairs[1..], key);
      LastKeyShift(pairs, key);
      var l' := LastKeyIndex(pairs[1..], key);
      if l' >= 0 {
        assert pairs[1..][l'] == pairs[l' + 1];
      } else if pairs[0].key != key {
        AssignOther(acc, pairs[0].key, pairs[0].value, key);
      } else {
        AssignLookup(acc, key, pairs[0].value);
      }
    }
  }

  /** The last index in a sequence from the last index in its tail. */
  lemma LastKeyShift(ms: seq<Member>, key: string)
    requires ms != []
    ensures var l' := LastKeyIndex(ms[1..], key);
      LastKeyIndex(ms, key) == if l' >= 0 then l' + 1 else if ms[0].key == key then 0 else -1
  {
    var l := LastKeyIndex(ms, key);
    var l' := LastKeyIndex(ms[1..], key);
    if l > 0 {
      assert ms[1..][l - 1] == ms[l];
    }
    if l' >= 0 {
      assert ms[l' + 1] == ms[1..][l'];
    }
  }

  /** In a list of distinct keys, the key after a prefix is not among the prefix's keys. */
  lemma FreshAfterPrefix(acc: seq<Member>, pairs: seq<Member>)
    requires pairs != [] && DistinctKeys(acc + pairs)
    ensures pairs[0].key !in Keys(acc)
  {
    var both := acc + pairs;
    forall i | 0 <= i < |acc| ensures Keys(acc)[i] != pairs[0].key {
      assert both[i] == acc[i] && both[|acc|] == pairs[0];
    }
  }

  /** Assigning fresh, distinct keys just appends them. */
  lemma {:induction false} ReduceFresh(acc: seq<Member>, pairs: seq<Member>)
    requires DistinctKeys(acc + pairs)
    ensures Reduce(acc, pairs) == acc + pairs
    decreases pairs
  {
    if pairs != [] {
      FreshAfterPrefix(acc, pairs);
      var next := acc + [pairs[0]];
      AssignFresh(acc, pairs[0].key, pairs[0].value);
      assert next + pairs[1..] == acc + pairs;
      ReduceFresh(next, pairs[1..]);
    }
  }

  /** Every member the reduce leaves is one it started with or one it assigned. */
  lemma {:induction false} ReduceMembers(acc: seq<Member>, pairs: seq<Member>)
    ensures forall m :: m in Reduce(acc, pairs) ==> m in acc || m in pairs
    decreases pairs
  {
    if pairs != [] {
      var next := Assign(acc, pairs[0].key, pairs[0].value);
      ReduceMembers(next, pairs[1..]);
      AssignMembers(acc, pairs[0].key, pairs[0].value);
      assert pairs[0] == Member(pairs[0].key, pairs[0].value);
      forall m | m in next ensures m in acc || m == pairs[0] {
        var i :| 0 <= i < |next| && next[i] == m;
      }
      forall m | m in pairs[1..] ensures m in pairs {
      }
    }
  }

  // ---------------------------------------------------------------- properties

  /** Null, booleans, numbers and strings come back unchanged. */
  lemma PrimitivesUnchanged(j: Json)
    requires !j.Arr? && !j.Obj?
    ensures ToLowerCaseKeys(j) == j
  {
  }

  /** Arrays map element by element: same length, each element transformed. */
  lemma ArraysMapElementwise(items: seq<Json>)
    ensures ToLowerCaseKeys(Arr(items)).Arr?
    ensures |ToLowerCaseKeys(Arr(items)).items| == |items|
    ensures forall i :: 0 <= i < |items| ==> ToLowerCaseKeys(Arr(items)).items[i] == ToLowerCaseKeys(items[i])
  {
  }

  /** An object's keys come out distinct. */
  lemma ObjectKeysDistinct(ms: seq<Member>)
    ensures ToLowerCaseKeys(Obj(ms)).Obj?
    ensures DistinctKeys(LowerMembers(ms))
  {
    ReduceKeys([], Lowered(ms));
  }

  /** An object's keys are exactly the lowered input keys. */
  lemma ObjectKeys(ms: seq<Member>)
    ensures forall k :: k in Keys(LowerMembers(ms)) <==> exists i :: 0 <= i < |ms| && k == ToLowerCase(ms[i].key)
  {
    var lowered := Lowered(ms);
    ReduceKeys([], lowered);
    forall k ensures k in Keys(lowered) <==> exists i :: 0 <= i < |ms| && k == ToLowerCase(ms[i].key) {
      if k in Keys(lowered) {
        var i :| 0 <= i < |lowered| && Keys(lowered)[i] == k;
        assert k == ToLowerCase(ms[i].key);
      }
      if exists i :: 0 <= i < |ms| && k == ToLowerCase(ms[i].key) {
        var i :| 0 <= i < |ms| && k == ToLowerCase(ms[i].key);
        assert Keys(lowered)[i] == k;
      }
    }
  }

  /** Every member of a transformed object is some input member, key lowered and value transformed. */
  lemma ObjectMembers(ms: seq<Member>)
    ensures forall m :: m in LowerMembers(ms) ==> m in Lowered(ms)
  {
    ReduceMembers([], Lowered(ms));
  }

  /** Every key of a transformed object is lower-case. */
  lemma ObjectKeysLower(ms: seq<Member>)
    ensures forall i :: 0 <= i < |LowerMembers(ms)| ==> IsLower(LowerMembers(ms)[i].key)
  {
    var out := LowerMembers(ms);
    ObjectMembers(ms);
    forall i | 0 <= i < |out| ensures IsLower(out[i].key) {
      assert out[i] in out;
      var k :| 0 <= k < |ms| && out[i] == Lowered(ms)[k];
    }
  }

  /**
   * When several keys lower to the same key, the value is that of the last
   * of them in key order, itself transformed.
   */
  lemma LaterKeyWins(ms: seq<Member>, key: string)
    ensures var l := LastKeyIndex(Lowered(ms), key);
      Lookup(LowerMembers(ms), key)
        == if l >= 0 then Some(ToLowerCaseKeys(ms[l].value)) else None
  {
    ReduceLookup([], Lowered(ms), key);
  }

  /** The transformation is deep: no upper-case key is left at any depth. */
  lemma {:induction false} NoUpperCaseKeyLeft(j: Json)
    ensures AllKeysLower(ToLowerCaseKeys(j))
    decreases j
  {
    match j
    case Arr(items) =>
      forall i | 0 <= i < |items| ensures AllKeysLower(ToLowerCaseKeys(items[i])) {
        NoUpperCaseKeyLeft(items[i]);
      }
    case Obj(ms) =>
      var out := LowerMembers(ms);
      assert ToLowerCaseKeys(j) == Obj(out);
      ObjectMembers(ms);
      ObjectKeysLower(ms);
      forall i | 0 <= i < |out| ensures AllKeysLower(out[i].value) {
        assert out[i] in out;
        var k :| 0 <= k < |ms| && out[i] == Lowered(ms)[k];
        NoUpperCaseKeyLeft(ms[k].value);
      }
      assert AllMembersLower(out);
    case _ =>
  }

  /** Transforming twice is transforming once. */
  lemma {:induction false} Idempotent(j: Json)
    ensures ToLowerCaseKeys(ToLowerCaseKeys(j)) == ToLowerCaseKeys(j)
    decreases j
  {
    match j
    case Arr(items) =>
      var r := ToLowerCaseKeys(j).items;
      forall i | 0 <= i < |items| ensures ToLowerCaseKeys(r[i]) == r[i] {
        Idempotent(items[i]);
      }
    case Obj(ms) =>
      var out := ToLowerCaseKeys(j).members;
      ObjectMembers(ms);
      ObjectKeysDistinct(ms);
      var again := Lowered(out);
      forall i | 0 <= i < |out| ensures again[i] == out[i] {
        assert out[i] in out;
        var k :| 0 <= k < |ms| && out[i] == Lowered(ms)[k];
        Idempotent(ms[k].value);
        ToLowerCaseOfLower(ToLowerCase(ms[k].key));
      }
      assert again == out;
      assert [] + out == out;
      ReduceFresh([], out);
    case _ =>
  }
}
