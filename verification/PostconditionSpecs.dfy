/** Reading a postcondition specification: assertions with their metadata, out of any JSON value. */
module PostconditionSpecs {
  import opened Json
  import opened Sorting
  import opened Subsequences
  import opened Text
  import opened Wrappers

  datatype Assertion =
    | HttpStatus(status: int)
    | DomContains(text: string, selector: Option<string>, caseInsensitive: bool)
    | JsonPathEquals(path: string, expected: Json)

  datatype Spec = Spec(assertions: seq<Assertion>, metadata: Option<Json>)

  datatype SpecError =
    | NotObjectOrArray
    | AssertionsNotArray
    | NoAssertions
    | AssertionNotObject
    | MissingType
    | StatusNotInteger
    | StatusOutOfRange
    | MissingText
    | MissingPath
    | MissingExpected
    | Unsupported(what: string)

  const MAX_STATUS := 65535

  /** The value of an own member. */
  function Lookup(members: seq<Member>, key: string): Option<Json> {
    var i := Find(members, key);
    if i.Some? then Some(members[i.value].value) else None
  }

  function LookupText(members: seq<Member>, key: string): Option<string> {
    var v := Lookup(members, key);
    if v.Some? && v.value.Str? then Some(v.value.s) else None
  }

  function ParseStatus(equals: Option<Json>): Result<Assertion, SpecError> {
    if equals.None? || !equals.value.Number? ||
      equals.value.n != equals.value.n.Floor as real then Err(StatusNotInteger)
    else if equals.value.n.Floor < 0 || equals.value.n.Floor > MAX_STATUS then Err(StatusOutOfRange)
    else Ok(HttpStatus(equals.value.n.Floor))
  }

  function ParseMembers(members: seq<Member>): Result<Assertion, SpecError> {
    var typeName := LookupText(members, "type");
    if typeName.None? then Err(MissingType)
    else if typeName.value == "http_status" then ParseStatus(Lookup(members, "equals"))
    else if typeName.value == "dom_contains" then
      var text, caseInsensitive := LookupText(members, "text"), Lookup(members, "case_insensitive");
      if text.None? then Err(MissingText)
      else
        Ok(DomContains(text.value, LookupText(members, "selector"),
                       caseInsensitive.Some? && caseInsensitive.value.Bool? && caseInsensitive.value.b))
    else if typeName.value == "json_path" then
      var path, expected := LookupText(members, "path"), Lookup(members, "equals");
      if path.None? then Err(MissingPath)
      else if expected.None? then Err(MissingExpected)
      else Ok(JsonPathEquals(path.value, expected.value))
    else Err(Unsupported(typeName.value))
  }

  /** An array is an object without a `type`. */
  function ParseAssertion(v: Json): Result<Assertion, SpecError> {
    match v
    case Obj(members) => ParseMembers(members)
    case Arr(_) => Err(MissingType)
    case _ => Err(AssertionNotObject)
  }

  /** All assertions, or the error of the first item that is none. */
  function ParseItems(items: seq<Json>): Result<seq<Assertion>, SpecError> {
    if items == [] then Ok([])
    else
      var front := ParseItems(items[..|items| - 1]);
      if front.Err? then front
      else
        var last := ParseAssertion(items[|items| - 1]);
        if last.Err? then Err(last.error) else Ok(front.value + [last.value])
  }

  function ParseAssertionArray(items: seq<Json>): Result<seq<Assertion>, SpecError> {
    if items == [] then Err(NoAssertions) else ParseItems(items)
  }

  /** The members beside the assertions. */
  function Others(members: seq<Member>): seq<Member> {
    if members == [] then []
    else
      var last := members[|members| - 1];
      Others(members[..|members| - 1]) + if last.key == "assertions" then [] else [last]
  }

  function FieldList(members: seq<Member>): string {
    if members == [] then "" else Join(SortedKeys(members), ',')
  }

  function SortedKeys(members: seq<Member>): (keys: seq<string>)
    ensures |keys| == |members|
  {
    SortLength(StringLeq, Keys(members));
    Sort(StringLeq, Keys(members))
  }

  function ParseSpec(raw: Json): Result<Spec, SpecError> {
    match raw
    case Arr(items) =>
      var assertions := ParseAssertionArray(items);
      if assertions.Err? then Err(assertions.error) else Ok(Spec(assertions.value, None))
    case Obj(members) =>
      var listed := Lookup(members, "assertions");
      if listed.Some? then
        if !listed.value.Arr? then Err(AssertionsNotArray)
        else
          var assertions, others := ParseAssertionArray(listed.value.items), Others(members);
          if assertions.Err? then Err(assertions.error)
          else Ok(Spec(assertions.value, if others == [] then None else Some(Obj(others))))
      else if Lookup(members, "type").Some? then
        var assertion := ParseAssertion(raw);
        if assertion.Err? then Err(assertion.error) else Ok(Spec([assertion.value], None))
      else Err(Unsupported("object_with_fields:" + FieldList(members)))
    case _ => Err(NotObjectOrArray)
  }

  /** The parser, which copies the metadata member by member. */
  method ParseSpecification(raw: Json) returns (r: Result<Spec, SpecError>)
    ensures r == ParseSpec(raw)
    ensures if r.Ok? then Specifies(raw, r.value) else Unspecified(raw, r.error)
  {
    hide Specifies, Unspecified;
    SpecMeaning(raw);
    if !raw.Obj? || Lookup(raw.members, "assertions").None? || !Lookup(raw.members, "assertions").value.Arr? {
      return ParseSpec(raw);
    }
    var assertions := ParseAssertionArray(Lookup(raw.members, "assertions").value.items);
    if assertions.Err? {
      return Err(assertions.error);
    }
    var metadata: seq<Member> := [];
    var hasMetadata := false;
    for i := 0 to |raw.members|
      invariant metadata == Others(raw.members[..i])
      invariant hasMetadata <==> metadata != []
    {
      assert raw.members[..i + 1][..i] == raw.members[..i];
      if raw.members[i].key != "assertions" {
        metadata := metadata + [raw.members[i]];
        hasMetadata := true;
      }
    }
    assert raw.members[..|raw.members|] == raw.members;
    r := Ok(Spec(assertions.value, if hasMetadata then Some(Obj(metadata)) else None));
  }

  // ---------- What is read as what ----------

  predicate IsText(v: Option<Json>) {
    v.Some? && v.value.Str?
  }

  /** `v` is an object whose members say `a`; other members do not matter. */
  predicate Says(v: Json, a: Assertion) {
    v.Obj? &&
    var ms := v.members;
    match a
    case HttpStatus(status) =>
      && Lookup(ms, "type") == Some(Str("http_status"))
      && Lookup(ms, "equals") == Some(Number(status as real)) && 0 <= status <= 65535
    case DomContains(text, selector, caseInsensitive) =>
      && Lookup(ms, "type") == Some(Str("dom_contains")) && Lookup(ms, "text") == Some(Str(text))
      && selector == (if IsText(Lookup(ms, "selector")) then Some(Lookup(ms, "selector").value.s) else None)
      && (caseInsensitive <==> Lookup(ms, "case_insensitive") == Some(Bool(true)))
    case JsonPathEquals(path, expected) =>
      && Lookup(ms, "type") == Some(Str("json_path")) && Lookup(ms, "path") == Some(Str(path))
      && Lookup(ms, "equals") == Some(expected)
  }

  predicate IsWhole(v: Option<Json>) {
    v.Some? && v.value.Number? && v.value.n == v.value.n.Floor as real
  }

  /** `v` says no assertion, for the reason `error`. */
  predicate Misstates(v: Json, error: SpecError) {
    var kind := if v.Obj? then Lookup(v.members, "type") else None;
    match error
    case AssertionNotObject => !v.Obj? && !v.Arr?
    case MissingType => v.Arr? || (v.Obj? && !IsText(kind))
    case Unsupported(what) => kind == Some(Str(what)) && what !in ["http_status", "dom_contains", "json_path"]
    case StatusNotInteger => kind == Some(Str("http_status")) && !IsWhole(Lookup(v.members, "equals"))
    case StatusOutOfRange =>
      kind == Some(Str("http_status")) && IsWhole(Lookup(v.members, "equals")) &&
      !(0.0 <= Lookup(v.members, "equals").value.n <= 65535.0)
    case MissingText => kind == Some(Str("dom_contains")) && !IsText(Lookup(v.members, "text"))
    case MissingPath => kind == Some(Str("json_path")) && !IsText(Lookup(v.members, "path"))
    case MissingExpected =>
      kind == Some(Str("json_path")) && IsText(Lookup(v.members, "path")) && Lookup(v.members, "equals").None?
    case _ => false
  }

  /** An item is read as an assertion exactly if it says it, and refused for exactly the reason it says none. */
  lemma AssertionMeaning(v: Json, a: Assertion, error: SpecError)
    ensures ParseAssertion(v) == Ok(a) <==> Says(v, a)
    ensures ParseAssertion(v) == Err(error) <==> Misstates(v, error)
  {
    hide Find, Lookup;
  }

  /** The items say the assertions, one each. */
  ghost predicate AllSay(items: seq<Json>, assertions: seq<Assertion>) {
    |items| == |assertions| && forall i :: 0 <= i < |items| ==> Says(items[i], assertions[i])
  }

  ghost predicate SaysSome(v: Json) {
    exists a :: Says(v, a)
  }

  /** The first item that says no assertion says none for the reason `error`. */
  ghost predicate FirstMisstates(items: seq<Json>, error: SpecError) {
    exists i :: 0 <= i < |items| && Misstates(items[i], error) && forall j :: 0 <= j < i ==> SaysSome(items[j])
  }

  lemma {:induction false} ItemsMeaning(items: seq<Json>)
    ensures ParseItems(items).Ok? ==> AllSay(items, ParseItems(items).value)
    ensures ParseItems(items).Err? ==> FirstMisstates(items, ParseItems(items).error)
  {
    hide Says, Misstates, ParseAssertion;
    if items != [] {
      var front, last := items[..|items| - 1], items[|items| - 1];
      assert items == front + [last];
      ItemsMeaning(front);
      var r := ParseAssertion(last);
      if r.Ok? {
        AssertionMeaning(last, r.value, NoAssertions);
      } else {
        AssertionMeaning(last, HttpStatus(0), r.error);
      }
      if ParseItems(front).Err? {
        var e := ParseItems(front).error;
        var i :| 0 <= i < |front| && Misstates(front[i], e) && forall j :: 0 <= j < i ==> SaysSome(front[j]);
        assert items[i] == front[i] && forall j :: 0 <= j < i ==> items[j] == front[j];
      }
    }
  }

  lemma {:induction false} OthersMeaning(members: seq<Member>)
    ensures forall m :: m in Others(members) <==> m in members && m.key != "assertions"
    ensures Subsequence(Others(members), members)
  {
    if members != [] {
      var front, last := members[..|members| - 1], members[|members| - 1];
      assert members == front + [last];
      OthersMeaning(front);
      AppendBoth(Others(front), front, last);
      assert Others(front) + [] == Others(front);
    }
  }

  /** What a specification is read as: an array of assertions, an object that lists them under `assertions` with the
      other members as metadata, or an object with a `type`, which is one assertion. */
  ghost predicate Specifies(raw: Json, spec: Spec) {
    match raw
    case Arr(items) => items != [] && AllSay(items, spec.assertions) && spec.metadata.None?
    case Obj(members) =>
      var listed := Lookup(members, "assertions");
      if listed.Some? then
        && listed.value.Arr? && listed.value.items != [] && AllSay(listed.value.items, spec.assertions)
        && (if forall m :: m in members ==> m.key == "assertions" then spec.metadata.None?
            else spec.metadata.Some? && spec.metadata.value.Obj? && IsRest(spec.metadata.value.members, members))
      else
        Lookup(members, "type").Some? && AllSay([raw], spec.assertions) && spec.metadata.None?
    case _ => false
  }

  /** `rest` are the members beside the assertions, in their order. */
  ghost predicate IsRest(rest: seq<Member>, members: seq<Member>) {
    (forall m :: m in rest <==> m in members && m.key != "assertions") && Subsequence(rest, members)
  }

  /** Why `raw` is no specification. */
  ghost predicate Unspecified(raw: Json, error: SpecError) {
    match raw
    case Arr(items) => if items == [] then error == NoAssertions else FirstMisstates(items, error)
    case Obj(members) =>
      var listed := Lookup(members, "assertions");
      if listed.Some? then
        if !listed.value.Arr? then error == AssertionsNotArray
        else if listed.value.items == [] then error == NoAssertions
        else FirstMisstates(listed.value.items, error)
      else if Lookup(members, "type").Some? then Misstates(raw, error)
      else error.Unsupported?
    case _ => error == NotObjectOrArray
  }

  lemma SpecMeaning(raw: Json)
    ensures ParseSpec(raw).Ok? ==> Specifies(raw, ParseSpec(raw).value)
    ensures ParseSpec(raw).Err? ==> Unspecified(raw, ParseSpec(raw).error)
  {
    hide ParseItems, ParseAssertion, Others, Find, Says, Misstates, FirstMisstates, FieldList, Subsequence;
    match raw
    case Arr(items) => ItemsMeaning(items);
    case Obj(members) =>
      var listed := Lookup(members, "assertions");
      if listed.Some? && listed.value.Arr? {
        ItemsMeaning(listed.value.items);
        OthersMeaning(members);
        assert Others(members) != [] ==> Others(members)[0] in Others(members);
      } else if listed.None? && Lookup(members, "type").Some? {
        var r := ParseAssertion(raw);
        AssertionMeaning(raw, if r.Ok? then r.value else HttpStatus(0), if r.Err? then r.error else NoAssertions);
      }
    case _ =>
  }

  // ---------- Writing a specification and reading it back ----------

  function Encode(a: Assertion): Json {
    match a
    case HttpStatus(status) => Obj([Member("type", Str("http_status")), Member("equals", Number(status as real))])
    case DomContains(text, selector, caseInsensitive) =>
      Obj([Member("type", Str("dom_contains")), Member("text", Str(text)),
        Member("case_insensitive", Bool(caseInsensitive))]
          + if selector.Some? then [Member("selector", Str(selector.value))] else [])
    case JsonPathEquals(path, expected) =>
      Obj([Member("type", Str("json_path")), Member("path", Str(path)), Member("equals", expected)])
  }

  /** A status fits 16 bits. */
  predicate Encodable(a: Assertion) {
    a.HttpStatus? ==> 0 <= a.status <= MAX_STATUS
  }

  function EncodeAll(assertions: seq<Assertion>): (items: seq<Json>)
    ensures |items| == |assertions| && forall i :: 0 <= i < |items| ==> items[i] == Encode(assertions[i])
  {
    seq(|assertions|, i requires 0 <= i < |assertions| => Encode(assertions[i]))
  }

  /** An assertion is read back as written exactly when its status, if it has one, fits 16 bits. */
  lemma EncodeParse(a: Assertion)
    ensures ParseAssertion(Encode(a)) == Ok(a) <==> Encodable(a)
  {
    match a
    case HttpStatus(status) => EncodeParseStatus(status);
    case DomContains(text, selector, caseInsensitive) => EncodeParseDom(text, selector, caseInsensitive);
    case JsonPathEquals(path, expected) => EncodeParsePath(path, expected);
  }

  lemma LookupFirst(first: Member, rest: seq<Member>, key: string)
    ensures Lookup([first] + rest, key) == if first.key == key then Some(first.value) else Lookup(rest, key)
  {
    assert ([first] + rest)[1..] == rest;
  }

  lemma EncodeParseStatus(status: int)
    ensures ParseAssertion(Encode(HttpStatus(status))) == Ok(HttpStatus(status)) <==> Encodable(HttpStatus(status))
  {
    hide Find;
    var kind, equals := Member("type", Str("http_status")), Member("equals", Number(status as real));
    LookupFirst(kind, [equals], "type");
    LookupFirst(kind, [equals], "equals");
    LookupFirst(equals, [], "equals");
    assert [kind] + [equals] == [kind, equals] && [equals] + [] == [equals];
  }

  lemma EncodeParsePath(path: string, expected: Json)
    ensures ParseAssertion(Encode(JsonPathEquals(path, expected))) == Ok(JsonPathEquals(path, expected))
  {
    hide Find;
    var kind, where, equals := Member("type", Str("json_path")), Member("path", Str(path)), Member("equals", expected);
    LookupFirst(kind, [where, equals], "type");
    LookupFirst(kind, [where, equals], "path");
    LookupFirst(kind, [where, equals], "equals");
    LookupFirst(where, [equals], "path");
    LookupFirst(where, [equals], "equals");
    LookupFirst(equals, [], "equals");
    assert [kind] + [where, equals] == [kind, where, equals];
    assert [where] + [equals] == [where, equals] && [equals] + [] == [equals];
  }

  lemma EncodeParseDom(text: string, selector: Option<string>, caseInsensitive: bool)
    ensures var a := DomContains(text, selector, caseInsensitive); ParseAssertion(Encode(a)) == Ok(a)
  {
    hide Find;
    var kind, body := Member("type", Str("dom_contains")), Member("text", Str(text));
    var folding := Member("case_insensitive", Bool(caseInsensitive));
    var tail := if selector.Some? then [Member("selector", Str(selector.value))] else [];
    var most, all := [folding] + tail, [kind, body, folding] + tail;
    assert all == [kind] + ([body] + most);
    LookupFirst(kind, [body] + most, "type");
    LookupFirst(kind, [body] + most, "text");
    LookupFirst(kind, [body] + most, "case_insensitive");
    LookupFirst(kind, [body] + most, "selector");
    LookupFirst(body, most, "text");
    LookupFirst(body, most, "case_insensitive");
    LookupFirst(body, most, "selector");
    LookupFirst(folding, tail, "case_insensitive");
    LookupFirst(folding, tail, "selector");
    LookupInTail(selector, tail);
  }

  lemma LookupInTail(selector: Option<string>, tail: seq<Member>)
    requires tail == if selector.Some? then [Member("selector", Str(selector.value))] else []
    ensures LookupText(tail, "selector") == selector
  {
  }

  lemma {:induction false} EncodeParseItems(assertions: seq<Assertion>)
    requires forall a :: a in assertions ==> Encodable(a)
    ensures ParseItems(EncodeAll(assertions)) == Ok(assertions)
  {
    hide Encode, ParseAssertion, Encodable;
    if assertions != [] {
      var front, last := assertions[..|assertions| - 1], assertions[|assertions| - 1];
      EncodeParseItems(front);
      EncodeParse(last);
      assert EncodeAll(assertions)[..|assertions| - 1] == EncodeAll(front);
      assert assertions == front + [last];
    }
  }

  lemma {:induction false} OthersOfExtra(extra: seq<Member>)
    requires forall i :: 0 <= i < |extra| ==> extra[i].key != "assertions"
    ensures Others(extra) == extra
  {
    if extra != [] {
      var front, last := extra[..|extra| - 1], extra[|extra| - 1];
      OthersOfExtra(front);
      assert extra == front + [last];
    }
  }

  lemma {:induction false} OthersAfterAssertions(listed: Member, extra: seq<Member>)
    requires listed.key == "assertions"
    ensures Others([listed] + extra) == Others(extra)
  {
    if extra == [] {
      assert [listed] + extra == [listed];
    } else {
      assert ([listed] + extra)[..|extra|] == [listed] + extra[..|extra| - 1];
      OthersAfterAssertions(listed, extra[..|extra| - 1]);
    }
  }

  /** A specification written as an object, with any metadata beside its assertions, is read back as it is. */
  lemma SpecRoundTrip(assertions: seq<Assertion>, extra: seq<Member>)
    requires assertions != [] && forall a :: a in assertions ==> Encodable(a)
    requires forall m :: m in extra ==> m.key != "assertions"
    ensures ParseSpec(Obj([Member("assertions", Arr(EncodeAll(assertions)))] + extra)) ==
            Ok(Spec(assertions, if extra == [] then None else Some(Obj(extra))))
  {
    hide ParseItems, EncodeAll, Others, Encodable;
    var listed := Member("assertions", Arr(EncodeAll(assertions)));
    EncodeParseItems(assertions);
    OthersOfExtra(extra);
    OthersAfterAssertions(listed, extra);
    LookupFirst(listed, extra, "assertions");
  }

  /** The three forms agree: a bare array, an object around it, and, for one item, the item itself. */
  lemma SpecFormsAgree(items: seq<Json>)
    ensures ParseSpec(Obj([Member("assertions", Arr(items))])) == ParseSpec(Arr(items))
    ensures |items| == 1 && items[0].Obj? && Lookup(items[0].members, "assertions").None? &&
      Lookup(items[0].members, "type").Some?
      ==> ParseSpec(items[0]) == ParseSpec(Arr(items))
  {
    hide ParseAssertion, Find;
    var listed := Member("assertions", Arr(items));
    LookupFirst(listed, [], "assertions");
    assert [listed] + [] == [listed];
    OthersAfterAssertions(listed, []);
    if |items| == 1 {
      assert ParseItems(items[..|items| - 1]) == Ok([]);
      var one := ParseAssertion(items[0]);
      assert one.Ok? ==> [] + [one.value] == [one.value];
    }
  }
}
