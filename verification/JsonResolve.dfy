/** Resolving a parsed path in a JSON value. */
module JsonResolve {
  import opened Json
  import opened JsonPath
  import opened Wrappers

  /** The array position that `name` spells as its own key, if any. */
  function PositionNamed(name: string): Option<nat> {
    if DigitRun(name) < |name| || name == [] then None
    else
      var n := DecimalValue(name);
      if Decimal(n) == name then Some(n) else None
  }

  /** One token: an own member of an object, an own key of an array, or an array element. */
  function OwnMember(v: Json, t: Token): Option<Json> {
    match t
    case Field(name) =>
      (match v
       case Obj(members) =>
         var i := Find(members, name);
         if i.Some? then Some(members[i.value].value) else None
       case Arr(items) =>
         var i := PositionNamed(name);
         if name == "length" then Some(Number(|items| as real))
         else if i.Some? && i.value < |items| then Some(items[i.value])
         else None
       case _ => None)
    case Index(i) => if v.Arr? && i < |v.items| then Some(v.items[i]) else None
  }

  function Resolve(v: Json, tokens: seq<Token>): Option<Json>
    decreases |tokens|
  {
    if tokens == [] then Some(v)
    else
      var next := OwnMember(v, tokens[0]);
      if next.None? then None else Resolve(next.value, tokens[1..])
  }

  /** The resolver's loop; None stands for `undefined`. */
  method ResolveJsonPath(value: Json, tokens: seq<Token>) returns (r: Option<Json>)
    ensures r == Resolve(value, tokens)
  {
    var current := Some(value);
    for i := 0 to |tokens|
      invariant Resolve(value, tokens) == if current.None? then None else Resolve(current.value, tokens[i..])
    {
      if current.None? || current.value.Null? || !(current.value.Obj? || current.value.Arr?) {
        return None;
      }
      var token := tokens[i];
      assert tokens[i..][0] == token && tokens[i..][1..] == tokens[i + 1..];
      if token.Field? {
        current := OwnMember(current.value, token);
      } else {
        if !current.value.Arr? {
          return None;
        }
        current := if token.index < |current.value.items| then Some(current.value.items[token.index]) else None;
      }
    }
    r := current;
  }

  /** Resolution composes over concatenated token lists. */
  lemma {:induction false} ResolveConcat(v: Json, a: seq<Token>, b: seq<Token>)
    ensures Resolve(v, a + b) == (var w := Resolve(v, a); if w.None? then None else Resolve(w.value, b))
    decreases |a|
  {
    if a == [] {
      assert a + b == b;
    } else {
      assert (a + b)[1..] == a[1..] + b;
      var next := OwnMember(v, a[0]);
      if next.Some? {
        ResolveConcat(next.value, a[1..], b);
      }
    }
  }

  // ---------- What a path leads to ----------

  /** `w` is what `t` names in `v`: a member of an object; of an array, an element, whose position may also be
      spelled as a field, or its length. */
  predicate Names(v: Json, t: Token, w: Json) {
    match (v, t)
    case (Obj(members), Field(name)) => Member(name, w) in members
    case (Arr(items), Field(name)) =>
      || (name == "length" && w == Number(|items| as real))
      || exists i :: 0 <= i < |items| && Decimal(i) == name && items[i] == w
    case (Arr(items), Index(i)) => i < |items| && items[i] == w
    case _ => false
  }

  ghost predicate LeadsTo(v: Json, tokens: seq<Token>, w: Json)
    decreases |tokens|
  {
    if tokens == [] then v == w
    else exists next :: Names(v, tokens[0], next) && LeadsTo(next, tokens[1..], w)
  }

  lemma PositionIsSpelled(name: string, i: nat)
    ensures PositionNamed(name) == Some(i) <==> Decimal(i) == name
  {
    if Decimal(i) == name {
      DecimalValueOfDecimal(i);
      assert DigitRun(name) == |name|;
    }
  }

  lemma LengthIsNoPosition(i: nat)
    ensures Decimal(i) != "length"
  {
    assert !IsDigit("length"[0]);
  }

  lemma OwnMemberIsNamed(v: Json, t: Token, w: Json)
    requires WellFormed(v)
    ensures OwnMember(v, t) == Some(w) <==> Names(v, t, w)
  {
    hide PositionNamed, Decimal, Find;
    match (v, t)
    case (Obj(members), Field(name)) =>
      if Member(name, w) in members {
        var i :| 0 <= i < |members| && members[i] == Member(name, w);
        FindAt(members, i);
      }
    case (Arr(items), Field(name)) =>
      forall i: nat ensures Decimal(i) != "length" && (PositionNamed(name) == Some(i) <==> Decimal(i) == name) {
        LengthIsNoPosition(i);
        PositionIsSpelled(name, i);
      }
    case _ =>
  }

  lemma NamedIsWellFormed(v: Json, t: Token, w: Json)
    requires WellFormed(v) && Names(v, t, w)
    ensures WellFormed(w)
  {
    hide Decimal;
  }

  /** A path resolves to exactly what its tokens lead to, one after the other, and to nothing if they lead nowhere. */
  lemma {:induction false} ResolveMeaning(v: Json, tokens: seq<Token>, w: Json)
    requires WellFormed(v)
    ensures Resolve(v, tokens) == Some(w) <==> LeadsTo(v, tokens, w)
    decreases |tokens|
  {
    hide OwnMember, Names, WellFormed;
    if tokens != [] {
      var next := OwnMember(v, tokens[0]);
      if next.Some? {
        OwnMemberIsNamed(v, tokens[0], next.value);
        NamedIsWellFormed(v, tokens[0], next.value);
        ResolveMeaning(next.value, tokens[1..], w);
      }
      forall other | Names(v, tokens[0], other) ensures next == Some(other) {
        OwnMemberIsNamed(v, tokens[0], other);
      }
    }
  }

  // ---------- Redaction commutes with resolution ----------

  function SanitisedOption(v: Option<Json>): Option<Json> {
    if v.None? then None else Some(Sanitised(v.value))
  }

  lemma FindSanitised(members: seq<Member>, name: string)
    ensures Find(Sanitised(Obj(members)).members, name) == Find(members, name)
    decreases |members|
  {
    var copies := Sanitised(Obj(members)).members;
    if members != [] {
      assert copies[1..] == Sanitised(Obj(members[1..])).members;
      FindSanitised(members[1..], name);
    }
  }

  lemma MemberSanitised(v: Json, t: Token)
    ensures OwnMember(Sanitised(v), t) == SanitisedOption(OwnMember(v, t))
  {
    if v.Obj? && t.Field? {
      FindSanitised(v.members, t.name);
    }
  }

  /** Redacting the evidence and then resolving a path gives the redacted observation. */
  lemma {:induction false} SanitiseCommutesWithResolve(v: Json, tokens: seq<Token>)
    ensures Resolve(Sanitised(v), tokens) == SanitisedOption(Resolve(v, tokens))
    decreases |tokens|
  {
    hide OwnMember, Sanitised;
    if tokens != [] {
      MemberSanitised(v, tokens[0]);
      var next := OwnMember(v, tokens[0]);
      if next.Some? {
        SanitiseCommutesWithResolve(next.value, tokens[1..]);
      }
    }
  }

  // ---------- Every location can be named ----------

  /** `w` sits in `v` at the location that names a member of each object and a position of each array on the way. */
  predicate Located(v: Json, location: seq<Token>, w: Json)
    decreases |location|
  {
    if location == [] then v == w
    else
      match (v, location[0])
      case (Obj(members), Field(name)) =>
        exists i :: 0 <= i < |members| && members[i].key == name && Located(members[i].value, location[1..], w)
      case (Arr(items), Index(i)) => i < |items| && Located(items[i], location[1..], w)
      case _ => false
  }

  lemma {:induction false} LocatedIsResolved(v: Json, location: seq<Token>, w: Json)
    requires WellFormed(v) && Located(v, location, w)
    ensures Resolve(v, location) == Some(w)
    decreases |location|
  {
    hide PositionNamed, Decimal, Find;
    if location != [] {
      match (v, location[0])
      case (Obj(members), Field(name)) =>
        var i :| 0 <= i < |members| && members[i].key == name && Located(members[i].value, location[1..], w);
        FindAt(members, i);
        LocatedIsResolved(members[i].value, location[1..], w);
      case (Arr(items), Index(i)) => LocatedIsResolved(items[i], location[1..], w);
    }
  }

  /** Resolution reaches every location of a tree that a path can spell: its printed path parses back to the
      location, which resolves to what sits there, whatever the rest of the tree holds. */
  lemma EveryLocationIsReachable(v: Json, location: seq<Token>, w: Json)
    requires WellFormed(v) && Located(v, location, w) && Printable(location)
    ensures Parse(Print(location)) == Ok(location) && Resolve(v, location) == Some(w)
  {
    hide Parse, Print, Printable, Resolve, Located, WellFormed;
    PrintParseRoundTrip(location);
    LocatedIsResolved(v, location, w);
  }

  /** `w` occurs in `v`, itself included. */
  predicate Occurs(v: Json, w: Json)
    decreases v
  {
    || v == w
    || match v {
      case Arr(items) => exists i :: 0 <= i < |items| && Occurs(items[i], w)
      case Obj(members) => exists i :: 0 <= i < |members| && Occurs(members[i].value, w)
      case _ => false
    }
  }

  /** Whatever occurs in a tree has a location. */
  lemma {:induction false} LocationOf(v: Json, w: Json) returns (location: seq<Token>)
    requires Occurs(v, w)
    ensures Located(v, location, w)
    decreases v
  {
    if v == w {
      location := [];
    } else {
      match v
      case Arr(items) =>
        var i :| 0 <= i < |items| && Occurs(items[i], w);
        var rest := LocationOf(items[i], w);
        location := [Index(i)] + rest;
        assert location[1..] == rest;
      case Obj(members) =>
        var i :| 0 <= i < |members| && Occurs(members[i].value, w);
        var rest := LocationOf(members[i].value, w);
        location := [Field(members[i].key)] + rest;
        assert location[1..] == rest;
    }
  }
}
