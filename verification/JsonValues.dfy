/** Decoded JSON values and the supervisor's structural comparison of launch configurations. */
module JsonValues {
  import opened Utf16Text

  /** Numbers are the finite, non-negative-zero doubles that decoding lets through, on which
      `Object.is` is plain equality. Members keep their insertion order. */
  datatype Json =
    | JNull
    | JBool(b: bool)
    | JNumber(n: real)
    | JString(s: Text)
    | JArray(items: seq<Json>)
    | JObject(members: seq<Member>)

  datatype Member = Member(key: Text, value: Json)

  /** A member of a JavaScript object is identified by its key, at every level. */
  predicate DistinctKeys(j: Json)
    decreases j
  {
    match j
    case JArray(items) => forall i | 0 <= i < |items| :: DistinctKeys(items[i])
    case JObject(ms) =>
      && UniqueKeys(ms)
      && (forall i | 0 <= i < |ms| :: DistinctKeys(ms[i].value))
    case _ => true
  }

  predicate UniqueKeys(ms: seq<Member>) {
    forall i, k | 0 <= i < k < |ms| :: ms[i].key != ms[k].key
  }

  predicate HasKey(ms: seq<Member>, key: Text) {
    exists i | 0 <= i < |ms| :: ms[i].key == key
  }

  function ValueAt(ms: seq<Member>, key: Text): (v: Json)
    requires HasKey(ms, key)
    ensures exists i | 0 <= i < |ms| :: ms[i].key == key && ms[i].value == v
  {
    if ms[0].key == key then ms[0].value else ValueAt(ms[1..], key)
  }

  /** The supervisor's `sameJsonValue`. Only the keys of the left object are looked up. */
  predicate SameJsonValue(left: Json, right: Json)
    decreases left
  {
    match (left, right)
    case (JArray(ls), JArray(rs)) =>
      |ls| == |rs| && forall i | 0 <= i < |ls| :: SameJsonValue(ls[i], rs[i])
    case (JObject(ls), JObject(rs)) =>
      && |ls| == |rs|
      && forall i | 0 <= i < |ls| :: HasKey(rs, ls[i].key) && SameJsonValue(ls[i].value, ValueAt(rs, ls[i].key))
    case _ => left == right && !left.JArray? && !left.JObject?
  }

  // ---------------------------------------------------------------- meaning up to key order

  /** A JSON value with the order of object members forgotten. */
  datatype Tree =
    | Leaf(json: Json)
    | Items(items: seq<Tree>)
    | Fields(fields: map<Text, Tree>)

  function Meaning(j: Json): Tree
    decreases j
  {
    match j
    case JArray(items) => Items(ItemMeanings(j, items))
    case JObject(ms) => Fields(FieldMeanings(j, ms))
    case _ => Leaf(j)
  }

  function ItemMeanings(parent: Json, items: seq<Json>): (r: seq<Tree>)
    requires forall i | 0 <= i < |items| :: items[i] < parent
    ensures |r| == |items| && forall i | 0 <= i < |items| :: r[i] == Meaning(items[i])
    decreases parent, |items|
  {
    if items == [] then [] else [Meaning(items[0])] + ItemMeanings(parent, items[1..])
  }

  function FieldMeanings(parent: Json, ms: seq<Member>): (r: map<Text, Tree>)
    requires forall i | 0 <= i < |ms| :: ms[i] < parent
    decreases parent, |ms|
  {
    if ms == [] then map[] else FieldMeanings(parent, ms[1..])[ms[0].key := Meaning(ms[0].value)]
  }

  function Keys(ms: seq<Member>): (r: set<Text>)
  {
    set i | 0 <= i < |ms| :: ms[i].key
  }

  /** `fields` holds exactly the members of `ms`, each under its key. */
  ghost predicate Describes(fields: map<Text, Tree>, ms: seq<Member>) {
    && fields.Keys == Keys(ms)
    && forall i | 0 <= i < |ms| :: ms[i].key in fields && fields[ms[i].key] == Meaning(ms[i].value)
  }

  lemma {:induction false} FieldMeaningsDescribe(parent: Json, ms: seq<Member>)
    requires forall i | 0 <= i < |ms| :: ms[i] < parent
    requires UniqueKeys(ms)
    ensures Describes(FieldMeanings(parent, ms), ms)
    decreases |ms|
  {
    if ms != [] {
      var rest := ms[1..];
      FieldMeaningsDescribe(parent, rest);
      KeysOfCons(ms);
      forall i | 0 <= i < |ms|
        ensures ms[i].key in FieldMeanings(parent, ms) && FieldMeanings(parent, ms)[ms[i].key] == Meaning(ms[i].value)
      {
        if i > 0 {
          assert rest[i - 1] == ms[i];
        }
      }
    }
  }

  lemma KeysOfCons(ms: seq<Member>)
    requires ms != []
    ensures Keys(ms) == Keys(ms[1..]) + {ms[0].key}
  {
    assert ms == [ms[0]] + ms[1..];
  }

  lemma {:induction false} DistinctKeysAreCounted(ms: seq<Member>)
    requires UniqueKeys(ms)
    ensures |Keys(ms)| == |ms|
  {
    if ms != [] {
      DistinctKeysAreCounted(ms[1..]);
      KeysOfCons(ms);
    }
  }

  lemma {:induction false} SubsetOfEqualSizeIsAll<T>(a: set<T>, b: set<T>)
    requires a <= b && |a| == |b|
    ensures a == b
  {
    assert b == a + (b - a);
  }

  lemma ValueAtIsTheMember(ms: seq<Member>, i: nat)
    requires i < |ms|
    requires UniqueKeys(ms)
    ensures HasKey(ms, ms[i].key) && ValueAt(ms, ms[i].key) == ms[i].value
  {
    var k :| 0 <= k < |ms| && ms[k].key == ms[i].key && ms[k].value == ValueAt(ms, ms[i].key);
  }

  /** Although it looks up one side's keys only, the comparison decides equality up to key order. */
  lemma {:induction false} SameJsonDecidesMeaning(left: Json, right: Json)
    requires DistinctKeys(left) && DistinctKeys(right)
    ensures SameJsonValue(left, right) <==> Meaning(left) == Meaning(right)
    decreases left
  {
    if left.JArray? && right.JArray? {
      forall i | 0 <= i < |left.items| && |left.items| == |right.items|
        ensures SameJsonValue(left.items[i], right.items[i]) <==> Meaning(left.items[i]) == Meaning(right.items[i])
      {
        SameJsonDecidesMeaning(left.items[i], right.items[i]);
      }
      if Meaning(left) == Meaning(right) {
        assert forall i | 0 <= i < |left.items| :: Meaning(left).items[i] == Meaning(right).items[i];
      }
    } else if left.JObject? && right.JObject? {
      SameObjectsDecideMeaning(left, right);
    }
  }

  /** Some member of `rs` has the key of `m` and a value of the same meaning. */
  ghost predicate Matched(m: Member, rs: seq<Member>) {
    exists j | 0 <= j < |rs| :: rs[j].key == m.key && Meaning(rs[j].value) == Meaning(m.value)
  }

  lemma {:induction false} SameObjectsDecideMeaning(left: Json, right: Json)
    requires DistinctKeys(left) && DistinctKeys(right)
    requires left.JObject? && right.JObject?
    ensures SameJsonValue(left, right) <==> Meaning(left) == Meaning(right)
    decreases left, 0
  {
    var ls, rs := left.members, right.members;
    forall i | 0 <= i < |ls|
      ensures HasKey(rs, ls[i].key) && SameJsonValue(ls[i].value, ValueAt(rs, ls[i].key)) <==> Matched(ls[i], rs)
    {
      MatchedIff(ls[i], rs);
      if HasKey(rs, ls[i].key) {
        SameJsonDecidesMeaning(ls[i].value, ValueAt(rs, ls[i].key));
      }
    }
    FieldMeaningsDescribe(left, ls);
    FieldMeaningsDescribe(right, rs);
    MatchedMembersIff(FieldMeanings(left, ls), ls, FieldMeanings(right, rs), rs);
  }

  lemma MatchedIff(m: Member, rs: seq<Member>)
    requires UniqueKeys(rs)
    ensures Matched(m, rs) <==> HasKey(rs, m.key) && Meaning(ValueAt(rs, m.key)) == Meaning(m.value)
  {
    if HasKey(rs, m.key) {
      var j :| 0 <= j < |rs| && rs[j].key == m.key;
      ValueAtIsTheMember(rs, j);
    }
  }

  /** Equally many members, each left one matched on the right: exactly then the field maps agree. */
  lemma MatchedMembersIff(lm: map<Text, Tree>, ls: seq<Member>, rm: map<Text, Tree>, rs: seq<Member>)
    requires UniqueKeys(ls) && UniqueKeys(rs) && Describes(lm, ls) && Describes(rm, rs)
    ensures |ls| == |rs| && (forall i | 0 <= i < |ls| :: Matched(ls[i], rs)) <==> lm == rm
  {
    DistinctKeysAreCounted(ls);
    DistinctKeysAreCounted(rs);
    forall i | 0 <= i < |ls|
      ensures Matched(ls[i], rs) <==> ls[i].key in rm && rm[ls[i].key] == lm[ls[i].key]
    {
      MatchedByField(ls[i], rm, rs);
    }
    if |ls| == |rs| && forall i | 0 <= i < |ls| :: Matched(ls[i], rs) {
      SubsetOfEqualSizeIsAll(lm.Keys, rm.Keys);
      forall k | k in lm ensures lm[k] == rm[k] {
        var i :| 0 <= i < |ls| && ls[i].key == k;
      }
    }
  }

  lemma MatchedByField(m: Member, rm: map<Text, Tree>, rs: seq<Member>)
    requires Describes(rm, rs)
    ensures Matched(m, rs) <==> m.key in rm && rm[m.key] == Meaning(m.value)
  {
    if m.key in rm {
      var j :| 0 <= j < |rs| && rs[j].key == m.key;
    }
  }

  /** Hence joining an initialization by this comparison is an equivalence. */
  lemma SameJsonIsAnEquivalence(a: Json, b: Json, c: Json)
    requires DistinctKeys(a) && DistinctKeys(b) && DistinctKeys(c)
    ensures SameJsonValue(a, a)
    ensures SameJsonValue(a, b) ==> SameJsonValue(b, a)
    ensures SameJsonValue(a, b) && SameJsonValue(b, c) ==> SameJsonValue(a, c)
  {
    SameJsonDecidesMeaning(a, a);
    SameJsonDecidesMeaning(a, b);
    SameJsonDecidesMeaning(b, a);
    SameJsonDecidesMeaning(b, c);
    SameJsonDecidesMeaning(a, c);
  }
}
