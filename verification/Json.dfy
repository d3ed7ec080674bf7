/** JSON values as the postcondition engine sees them, its equality decision and
    its redaction. */
module Json {
  import opened InsertionOrder
  import opened Wrappers

  datatype Json =
    | Null
    | Bool(b: bool)
    | Number(n: real)
    | Str(s: string)
    | Arr(items: seq<Json>)
    | Obj(members: seq<Member>)

  datatype Member = Member(key: string, value: Json)

  function Keys(members: seq<Member>): (keys: seq<string>)
    ensures |keys| == |members|
    ensures forall i :: 0 <= i < |members| ==> keys[i] == members[i].key
  {
    seq(|members|, i requires 0 <= i < |members| => members[i].key)
  }

  /** No object has the same key twice. */
  predicate WellFormed(v: Json) {
    match v
    case Arr(items) => forall i :: 0 <= i < |items| ==> WellFormed(items[i])
    case Obj(members) =>
      Distinct(Keys(members)) && forall i :: 0 <= i < |members| ==> WellFormed(members[i].value)
    case _ => true
  }

  function Find(members: seq<Member>, key: string): (r: Option<nat>)
    ensures r.Some? ==> r.value < |members| && members[r.value].key == key
    ensures r.None? ==> key !in Keys(members)
  {
    if members == [] then None
    else
      assert forall k :: k in Keys(members) ==> k == members[0].key || k in Keys(members[1..]);
      if members[0].key == key then Some(0)
      else
        var rest := Find(members[1..], key);
        if rest.None? then None else Some(rest.value + 1)
  }

  // ---------- Equality ----------

  predicate DeepEqual(a: Json, b: Json)
    decreases a
  {
    match a
    case Null => b.Null?
    case Bool(x) => b.Bool? && x == b.b
    case Number(x) => b.Number? && x == b.n
    case Str(x) => b.Str? && x == b.s
    case Arr(xs) => b.Arr? && |xs| == |b.items| && forall i :: 0 <= i < |xs| ==> DeepEqual(xs[i], b.items[i])
    case Obj(ms) =>
      && b.Obj? && |ms| == |b.members|
      && forall i :: 0 <= i < |ms| ==>
           var j := Find(b.members, ms[i].key);
           j.Some? && DeepEqual(ms[i].value, b.members[j.value].value)
  }

  /** What a JSON value means: objects are maps from keys to values. */
  datatype Value =
    | VNull
    | VBool(b: bool)
    | VNumber(n: real)
    | VStr(s: string)
    | VArr(items: seq<Value>)
    | VObj(entries: map<string, Value>)

  function Meaning(v: Json): Value
    decreases v
  {
    match v
    case Null => VNull
    case Bool(x) => VBool(x)
    case Number(x) => VNumber(x)
    case Str(x) => VStr(x)
    case Arr(xs) => VArr(seq(|xs|, i requires 0 <= i < |xs| => Meaning(xs[i])))
    case Obj(ms) => VObj(Entries(ms))
  }

  function Entries(members: seq<Member>): (m: map<string, Value>)
    ensures forall k :: k in m <==> k in Keys(members)
    decreases members
  {
    if members == [] then map[]
    else
      var last := members[|members| - 1];
      assert Keys(members) == Keys(members[..|members| - 1]) + [last.key];
      Entries(members[..|members| - 1])[last.key := Meaning(last.value)]
  }

  lemma {:induction false} EntryAt(members: seq<Member>, i: nat)
    requires i < |members| && Distinct(Keys(members))
    ensures members[i].key in Entries(members) && Entries(members)[members[i].key] == Meaning(members[i].value)
    decreases |members|
  {
    var front := members[..|members| - 1];
    assert Keys(members)[i] == members[i].key;
    if i < |members| - 1 {
      assert Keys(front) == Keys(members)[..|members| - 1];
      EntryAt(front, i);
      assert Keys(members)[i] != Keys(members)[|members| - 1];
    }
  }

  lemma {:induction false} FindAt(members: seq<Member>, i: nat)
    requires i < |members| && Distinct(Keys(members))
    ensures Find(members, members[i].key) == Some(i)
  {
    var j := Find(members, members[i].key);
    assert Keys(members)[i] == members[i].key;
    assert j.Some? && Keys(members)[j.value] == Keys(members)[i];
  }

  /** Equal sizes and one-way inclusion force two distinct lists to have the same elements. */
  lemma {:induction false} OneWayInclusion(a: seq<string>, b: seq<string>)
    requires Distinct(a) && |a| >= |b|
    requires forall x :: x in a ==> x in b
    ensures |a| == |b|
    ensures forall x :: x in b ==> x in a
    ensures Distinct(b)
    decreases |a|
  {
    if a != [] {
      var x, rest := a[0], a[1..];
      assert x in a;
      var i :| 0 <= i < |b| && b[i] == x;
      var others := b[..i] + b[i + 1..];
      assert forall y :: y in b <==> y == x || y in others;
      forall y | y in rest ensures y in others {
        assert y in a;
      }
      OneWayInclusion(rest, others);
      DistinctInsert(b, i);
    }
  }

  lemma DistinctInsert(b: seq<string>, i: nat)
    requires i < |b| && Distinct(b[..i] + b[i + 1..]) && b[i] !in b[..i] + b[i + 1..]
    ensures Distinct(b)
  {
    var others := b[..i] + b[i + 1..];
    forall j, k | 0 <= j < k < |b| ensures b[j] != b[k] {
      var j', k' := if j < i then j else j - 1, if k < i then k else k - 1;
      if j != i {
        assert others[j'] == b[j];
      }
      if k != i {
        assert others[k'] == b[k];
      }
    }
  }

  // ---------- DeepEqual decides equality of meanings ----------

  lemma {:induction false} EqualMembersMeanTheSame(ms: seq<Member>, ns: seq<Member>)
    requires Distinct(Keys(ms)) && Distinct(Keys(ns)) && |ms| == |ns|
    requires forall i :: 0 <= i < |ms| ==>
      var j := Find(ns, ms[i].key);
      j.Some? && Meaning(ms[i].value) == Meaning(ns[j.value].value)
    ensures Entries(ms) == Entries(ns)
  {
    hide Find, Meaning;
    forall k | k in Keys(ms) ensures k in Keys(ns) && Entries(ms)[k] == Entries(ns)[k] {
      var i :| 0 <= i < |ms| && Keys(ms)[i] == k;
      var j := Find(ns, ms[i].key).value;
      assert Keys(ns)[j] == k;
      EntryAt(ms, i);
      EntryAt(ns, j);
    }
    OneWayInclusion(Keys(ms), Keys(ns));
  }

  lemma {:induction false} SameMeaningMembers(ms: seq<Member>, ns: seq<Member>)
    requires Distinct(Keys(ms)) && Distinct(Keys(ns)) && Entries(ms) == Entries(ns)
    ensures |ms| == |ns|
    ensures forall i :: 0 <= i < |ms| ==>
      var j := Find(ns, ms[i].key);
      j.Some? && Meaning(ms[i].value) == Meaning(ns[j.value].value)
  {
    hide Meaning;
    assert forall k :: k in Keys(ms) <==> k in Keys(ns);
    if |ms| >= |ns| {
      OneWayInclusion(Keys(ms), Keys(ns));
    } else {
      OneWayInclusion(Keys(ns), Keys(ms));
    }
    forall i | 0 <= i < |ms|
      ensures var j := Find(ns, ms[i].key); j.Some? && Meaning(ms[i].value) == Meaning(ns[j.value].value)
    {
      assert Keys(ms)[i] in Keys(ns);
      EntryAt(ms, i);
      EntryAt(ns, Find(ns, ms[i].key).value);
    }
  }

  /** `DeepEqual` is true exactly for values that mean the same. */
  lemma {:induction false} DeepEqualIsMeaning(a: Json, b: Json)
    requires WellFormed(a) && WellFormed(b)
    ensures DeepEqual(a, b) <==> Meaning(a) == Meaning(b)
    decreases a
  {
    if a.Arr? && b.Arr? {
      if |a.items| == |b.items| {
        forall i | 0 <= i < |a.items| {
          DeepEqualIsMeaning(a.items[i], b.items[i]);
        }
        ItemMeanings(a, b);
      } else {
        assert |Meaning(a).items| == |a.items| && |Meaning(b).items| == |b.items|;
      }
    } else if a.Obj? && b.Obj? {
      ObjectsByMeaning(a, b);
    }
  }

  lemma ItemMeanings(a: Json, b: Json)
    requires a.Arr? && b.Arr? && |a.items| == |b.items|
    ensures Meaning(a) == Meaning(b) <==> forall i :: 0 <= i < |a.items| ==> Meaning(a.items[i]) == Meaning(b.items[i])
  {
    if Meaning(a) == Meaning(b) {
      forall i | 0 <= i < |a.items| ensures Meaning(a.items[i]) == Meaning(b.items[i]) {
        assert Meaning(a).items[i] == Meaning(b).items[i];
      }
    }
  }

  lemma {:induction false} ObjectsByMeaning(a: Json, b: Json)
    requires WellFormed(a) && WellFormed(b) && a.Obj? && b.Obj?
    ensures DeepEqual(a, b) <==> Meaning(a) == Meaning(b)
    decreases a, 0
  {
    var ms, ns := a.members, b.members;
    forall i | 0 <= i < |ms| && Find(ns, ms[i].key).Some?
      ensures DeepEqual(ms[i].value, ns[Find(ns, ms[i].key).value].value)
         <==> Meaning(ms[i].value) == Meaning(ns[Find(ns, ms[i].key).value].value)
    {
      DeepEqualIsMeaning(ms[i].value, ns[Find(ns, ms[i].key).value].value);
    }
    if DeepEqual(a, b) {
      EqualMembersMeanTheSame(ms, ns);
    }
    if Meaning(a) == Meaning(b) {
      SameMeaningMembers(ms, ns);
    }
  }

  /** On JSON values, `DeepEqual` is an equivalence relation. */
  lemma DeepEqualIsEquivalence(a: Json, b: Json, c: Json)
    requires WellFormed(a) && WellFormed(b) && WellFormed(c)
    ensures DeepEqual(a, a)
    ensures DeepEqual(a, b) <==> DeepEqual(b, a)
    ensures DeepEqual(a, b) && DeepEqual(b, c) ==> DeepEqual(a, c)
  {
    hide DeepEqual, Meaning, WellFormed;
    DeepEqualIsMeaning(a, a);
    DeepEqualIsMeaning(a, b);
    DeepEqualIsMeaning(b, a);
    DeepEqualIsMeaning(b, c);
    DeepEqualIsMeaning(a, c);
  }

  // ---------- Redaction ----------

  const REDACTED := "[REDACTED]"

  function Sanitised(v: Json): Json
    decreases v
  {
    match v
    case Str(_) => Str(REDACTED)
    case Arr(xs) => Arr(seq(|xs|, i requires 0 <= i < |xs| => Sanitised(xs[i])))
    case Obj(ms) => Obj(seq(|ms|, i requires 0 <= i < |ms| => Member(ms[i].key, Sanitised(ms[i].value))))
    case _ => v
  }

  /** Builds the redacted copy, filling a fresh array or object member by member. */
  method SanitiseValue(v: Json) returns (r: Json)
    ensures r == Sanitised(v)
    ensures Redacted(r) && SameButStrings(v, r)
    decreases v
  {
    SanitisedLaw(v);
    match v {
      case Str(_) => r := Str(REDACTED);
      case Arr(xs) =>
        var copies: seq<Json> := [];
        for i := 0 to |xs|
          invariant |copies| == i && forall k :: 0 <= k < i ==> copies[k] == Sanitised(xs[k])
        {
          var copied := SanitiseValue(xs[i]);
          copies := copies + [copied];
        }
        r := Arr(copies);
      case Obj(ms) =>
        var result: seq<Member> := [];
        for i := 0 to |ms|
          invariant |result| == i && forall k :: 0 <= k < i ==> result[k] == Member(ms[k].key, Sanitised(ms[k].value))
        {
          var copied := SanitiseValue(ms[i].value);
          result := result + [Member(ms[i].key, copied)];
        }
        r := Obj(result);
      case _ => r := v;
    }
  }

  /** The same value but for what its strings say. */
  predicate SameButStrings(a: Json, b: Json)
    decreases a
  {
    match a
    case Str(_) => b.Str?
    case Arr(xs) => b.Arr? && |xs| == |b.items| && forall i :: 0 <= i < |xs| ==> SameButStrings(xs[i], b.items[i])
    case Obj(ms) =>
      b.Obj? && |ms| == |b.members|
      && forall i :: 0 <= i < |ms| ==> ms[i].key == b.members[i].key && SameButStrings(ms[i].value, b.members[i].value)
    case _ => a == b
  }

  /** Redaction hides exactly the contents of the strings: it gives the same result for
      two values if and only if they differ in nothing else. */
  lemma {:induction false} RedactionHidesExactlyStrings(a: Json, b: Json)
    ensures Sanitised(a) == Sanitised(b) <==> SameButStrings(a, b)
    decreases a
  {
    if a.Arr? && b.Arr? {
      var xs, ys := Sanitised(a).items, Sanitised(b).items;
      assert |xs| == |a.items| && |ys| == |b.items|;
      forall i | 0 <= i < |xs| && i < |ys| ensures xs[i] == ys[i] <==> SameButStrings(a.items[i], b.items[i]) {
        RedactionHidesExactlyStrings(a.items[i], b.items[i]);
      }
    } else if a.Obj? && b.Obj? {
      var ms, ns := Sanitised(a).members, Sanitised(b).members;
      assert |ms| == |a.members| && |ns| == |b.members|;
      forall i | 0 <= i < |ms| && i < |ns|
        ensures ms[i] == ns[i] <==>
          a.members[i].key == b.members[i].key && SameButStrings(a.members[i].value, b.members[i].value)
      {
        RedactionHidesExactlyStrings(a.members[i].value, b.members[i].value);
      }
    }
  }

  /** Every string in the value is the placeholder. */
  predicate Redacted(v: Json)
    decreases v
  {
    match v
    case Str(s) => s == "[REDACTED]"
    case Arr(xs) => forall i :: 0 <= i < |xs| ==> Redacted(xs[i])
    case Obj(ms) => forall i :: 0 <= i < |ms| ==> Redacted(ms[i].value)
    case _ => true
  }

  /** A redacted value differs from the original in its strings only, and each of them is the placeholder. */
  lemma {:induction false} SanitisedLaw(v: Json)
    ensures Redacted(Sanitised(v)) && SameButStrings(v, Sanitised(v))
    decreases v
  {
    match v
    case Arr(xs) =>
      forall i | 0 <= i < |xs| ensures Redacted(Sanitised(v).items[i]) && SameButStrings(xs[i], Sanitised(v).items[i]) {
        SanitisedLaw(xs[i]);
      }
    case Obj(ms) =>
      forall i | 0 <= i < |ms|
        ensures Redacted(Sanitised(v).members[i].value) && SameButStrings(ms[i].value, Sanitised(v).members[i].value)
      {
        SanitisedLaw(ms[i].value);
      }
    case _ =>
  }
}
