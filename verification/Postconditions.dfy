/** Evaluating a postcondition specification against evidence. */
module Postconditions {
  import opened Json
  import opened JsonPath
  import opened JsonResolve
  import opened PostconditionSpecs
  import opened Wrappers

  datatype Dom = Dom(selector: Option<string>, html: string)

  datatype Evidence = Evidence(http: Option<int>, dom: Option<Dom>, json: Option<Json>)

  datatype EvaluationError = BadSpec(cause: SpecError) | MissingEvidence(kind: string) | InvalidPath(reason: PathError)

  /** The results a report may hold; strings of the evidence appear in them only redacted. */
  datatype Outcome =
    | StatusMatched(status: int)
    | StatusMismatch(expectedStatus: int, observedStatus: int)
    | TextFound(expectedSelector: Option<string>, selector: Option<string>)
    | TextMissing(expectedSelector: Option<string>, selector: Option<string>)
    | ValueMatched(path: string, value: Json)
    | ValueMissing(path: string, expected: Json)
    | ValueMismatch(path: string, expected: Json, observed: Json)

  datatype Report = Report(passed: bool, outcomes: seq<Outcome>, metadata: Option<Json>)

  predicate Passed(o: Outcome) {
    o.StatusMatched? || o.TextFound? || o.ValueMatched?
  }

  predicate OccursAt(haystack: string, needle: string, i: nat) {
    i + |needle| <= |haystack| && haystack[i..i + |needle|] == needle
  }

  predicate Includes(haystack: string, needle: string) {
    exists i: nat :: i <= |haystack| && OccursAt(haystack, needle, i)
  }

  lemma IncludesMeaning(haystack: string, needle: string)
    ensures Includes(haystack, needle) <==> exists before, after :: haystack == before + (needle + after)
  {
    if i: nat :| i <= |haystack| && OccursAt(haystack, needle, i) {
      var before, after := haystack[..i], haystack[i + |needle|..];
      assert haystack == before + (needle + after);
    }
    if before, after :| haystack == before + (needle + after) {
      assert haystack[|before|..|before| + |needle|] == needle;
      assert OccursAt(haystack, needle, |before|);
    }
  }

  /** `lower` stands for the runtime's case folding. */
  function EvaluateAssertion(lower: string -> string, a: Assertion, e: Evidence): Result<Outcome, EvaluationError> {
    match a
    case HttpStatus(status) =>
      if e.http.None? then Err(MissingEvidence("http"))
      else if e.http.value == status then Ok(StatusMatched(status))
      else Ok(StatusMismatch(status, e.http.value))
    case DomContains(text, selector, caseInsensitive) =>
      if e.dom.None? then Err(MissingEvidence("dom"))
      else
        var html := e.dom.value.html;
        var found := if caseInsensitive then Includes(lower(html), lower(text)) else Includes(html, text);
        Ok(if found then TextFound(selector, e.dom.value.selector) else TextMissing(selector, e.dom.value.selector))
    case JsonPathEquals(path, expected) =>
      if e.json.None? || e.json.value.Null? then Err(MissingEvidence("json"))
      else
        var tokens := Parse(path);
        if tokens.Err? then Err(InvalidPath(tokens.error))
        else
          var observed := Resolve(e.json.value, tokens.value);
          if observed.None? then Ok(ValueMissing(path, Sanitised(expected)))
          else if DeepEqual(observed.value, expected) then Ok(ValueMatched(path, Sanitised(observed.value)))
          else Ok(ValueMismatch(path, Sanitised(expected), Sanitised(observed.value)))
  }

  /** The outcomes of all assertions, or the error of the first that cannot be evaluated. */
  function Outcomes(lower: string -> string, assertions: seq<Assertion>, e: Evidence)
      : Result<seq<Outcome>, EvaluationError>
  {
    if assertions == [] then Ok([])
    else
      var front := Outcomes(lower, assertions[..|assertions| - 1], e);
      if front.Err? then front
      else
        var last := EvaluateAssertion(lower, assertions[|assertions| - 1], e);
        if last.Err? then Err(last.error) else Ok(front.value + [last.value])
  }

  /** The report on `raw`: the outcomes of its assertions in order, whether all passed, and its metadata. */
  function Evaluation(lower: string -> string, raw: Json, e: Evidence): Result<Report, EvaluationError> {
    var spec := ParseSpec(raw);
    if spec.Err? then Err(BadSpec(spec.error))
    else
      var all := Outcomes(lower, spec.value.assertions, e);
      if all.Err? then Err(all.error)
      else Ok(Report(forall o :: o in all.value ==> Passed(o), all.value, spec.value.metadata))
  }

  // ---------- When an evaluation succeeds, and with what ----------

  /** The evidence that an assertion is about is there, and its path, if it has one, can be read. */
  predicate Evaluable(a: Assertion, e: Evidence) {
    match a
    case HttpStatus(_) => e.http.Some?
    case DomContains(_, _, _) => e.dom.Some?
    case JsonPathEquals(path, _) => e.json.Some? && !e.json.value.Null? && Parse(path).Ok?
  }

  /** The error of an assertion that cannot be evaluated: missing evidence of its kind, or else its unreadable path. */
  predicate Lacks(a: Assertion, e: Evidence, error: EvaluationError) {
    match a
    case HttpStatus(_) => e.http.None? && error == MissingEvidence("http")
    case DomContains(_, _, _) => e.dom.None? && error == MissingEvidence("dom")
    case JsonPathEquals(path, _) =>
      if e.json.None? || e.json.value.Null? then error == MissingEvidence("json")
      else Parse(path).Err? && error == InvalidPath(Parse(path).error)
  }

  /** The outcome of an assertion that can be evaluated. */
  predicate Judges(lower: string -> string, a: Assertion, e: Evidence, o: Outcome)
    requires Evaluable(a, e)
  {
    match a
    case HttpStatus(status) =>
      if e.http.value == status then o == StatusMatched(status) else o == StatusMismatch(status, e.http.value)
    case DomContains(text, selector, caseInsensitive) =>
      var html := e.dom.value.html;
      var found := if caseInsensitive then Includes(lower(html), lower(text)) else Includes(html, text);
      if found then o == TextFound(selector, e.dom.value.selector) else o == TextMissing(selector, e.dom.value.selector)
    case JsonPathEquals(path, expected) =>
      var observed := Resolve(e.json.value, Parse(path).value);
      if observed.None? then o == ValueMissing(path, Sanitised(expected))
      else if DeepEqual(observed.value, expected) then o == ValueMatched(path, Sanitised(observed.value))
      else o == ValueMismatch(path, Sanitised(expected), Sanitised(observed.value))
  }

  /** `r` gives the outcome of every assertion, in order, if all can be evaluated, and otherwise the error of the
      first that cannot. */
  ghost predicate Decides(lower: string -> string, assertions: seq<Assertion>, e: Evidence,
                          r: Result<seq<Outcome>, EvaluationError>) {
    match r
    case Ok(outcomes) =>
      |outcomes| == |assertions| &&
      forall i :: 0 <= i < |assertions| ==>
        Evaluable(assertions[i], e) && Judges(lower, assertions[i], e, outcomes[i])
    case Err(error) =>
      exists i :: 0 <= i < |assertions| && Lacks(assertions[i], e, error) &&
        forall j :: 0 <= j < i ==> Evaluable(assertions[j], e)
  }

  lemma AssertionDecides(lower: string -> string, a: Assertion, e: Evidence)
    ensures Evaluable(a, e) ==>
      EvaluateAssertion(lower, a, e).Ok? && Judges(lower, a, e, EvaluateAssertion(lower, a, e).value)
    ensures !Evaluable(a, e) ==>
      EvaluateAssertion(lower, a, e).Err? && Lacks(a, e, EvaluateAssertion(lower, a, e).error)
  {
    hide Parse, Resolve, DeepEqual, Sanitised, Includes;
  }

  lemma {:induction false} OutcomesDecide(lower: string -> string, assertions: seq<Assertion>, e: Evidence)
    ensures Decides(lower, assertions, e, Outcomes(lower, assertions, e))
  {
    hide EvaluateAssertion, Evaluable, Lacks, Judges;
    if assertions != [] {
      var front, last := assertions[..|assertions| - 1], assertions[|assertions| - 1];
      var before := Outcomes(lower, front, e);
      OutcomesDecide(lower, front, e);
      AssertionDecides(lower, last, e);
      if before.Err? {
        var i :| 0 <= i < |front| && Lacks(front[i], e, before.error)
          && forall j :: 0 <= j < i ==> Evaluable(front[j], e);
        assert Lacks(assertions[i], e, before.error);
      }
    }
  }

  lemma LackingIsNotEvaluable(a: Assertion, e: Evidence, error: EvaluationError)
    requires Lacks(a, e, error)
    ensures !Evaluable(a, e)
  {
    hide Parse;
  }

  /** An evaluation succeeds exactly when the specification parses and every assertion of it can be evaluated; then
      the report has the outcome of each, passes exactly when all are passed, and carries the metadata. Otherwise
      the error is that of the specification or that of the first assertion which cannot be evaluated. */
  ghost predicate Evaluates(lower: string -> string, raw: Json, e: Evidence, r: Result<Report, EvaluationError>) {
    var spec := ParseSpec(raw);
    if spec.Err? then r == Err(BadSpec(spec.error))
    else
      && (r.Ok? <==> forall a :: a in spec.value.assertions ==> Evaluable(a, e))
      && (r.Ok? ==>
        && Decides(lower, spec.value.assertions, e, Ok(r.value.outcomes))
        && (r.value.passed <==> forall o :: o in r.value.outcomes ==> Passed(o))
        && r.value.metadata == spec.value.metadata)
      && (r.Err? ==> Decides(lower, spec.value.assertions, e, Err(r.error)))
  }

  lemma EvaluationDecides(lower: string -> string, raw: Json, e: Evidence)
    ensures Evaluates(lower, raw, e, Evaluation(lower, raw, e))
  {
    hide ParseSpec, Outcomes, Evaluable, Lacks, Judges, Passed;
    var spec := ParseSpec(raw);
    if spec.Ok? {
      var assertions := spec.value.assertions;
      var all := Outcomes(lower, assertions, e);
      OutcomesDecide(lower, assertions, e);
      if all.Err? {
        var i :| 0 <= i < |assertions| && Lacks(assertions[i], e, all.error);
        LackingIsNotEvaluable(assertions[i], e, all.error);
        assert assertions[i] in assertions;
      }
    }
  }

  method EvaluatePostcondition(lower: string -> string, raw: Json, e: Evidence)
    returns (r: Result<Report, EvaluationError>)
    ensures r == Evaluation(lower, raw, e)
    ensures Evaluates(lower, raw, e, r)
  {
    hide EvaluateAssertion, ParseSpec, Passed, Evaluates;
    EvaluationDecides(lower, raw, e);
    var parsed := ParseSpecification(raw);
    if parsed.Err? {
      return Err(BadSpec(parsed.error));
    }
    var assertions := parsed.value.assertions;
    var results: seq<Outcome> := [];
    var overallPassed := true;
    for i := 0 to |assertions|
      invariant Outcomes(lower, assertions[..i], e) == Ok(results)
      invariant overallPassed == forall o :: o in results ==> Passed(o)
    {
      assert assertions[..i + 1][..i] == assertions[..i];
      var result := EvaluateAssertion(lower, assertions[i], e);
      if result.Err? {
        FirstErrorWins(lower, assertions, e, i + 1);
        return Err(result.error);
      }
      if !Passed(result.value) {
        overallPassed := false;
      }
      results := results + [result.value];
    }
    assert assertions[..|assertions|] == assertions;
    r := Ok(Report(overallPassed, results, parsed.value.metadata));
  }

  lemma {:induction false} FirstErrorWins(lower: string -> string, assertions: seq<Assertion>, e: Evidence, n: nat)
    requires n <= |assertions| && Outcomes(lower, assertions[..n], e).Err?
    ensures Outcomes(lower, assertions, e) == Outcomes(lower, assertions[..n], e)
    decreases |assertions|
  {
    if n < |assertions| {
      var front := assertions[..|assertions| - 1];
      assert front[..n] == assertions[..n];
      FirstErrorWins(lower, front, e, n);
    } else {
      assert assertions[..n] == assertions;
    }
  }

  // ---------- What a report means ----------

  /** The assertion holds of the evidence. */
  predicate Holds(lower: string -> string, a: Assertion, e: Evidence) {
    match a
    case HttpStatus(status) => e.http == Some(status)
    case DomContains(text, selector, caseInsensitive) =>
      e.dom.Some?
      && if caseInsensitive then Includes(lower(e.dom.value.html), lower(text)) else Includes(e.dom.value.html, text)
    case JsonPathEquals(path, expected) =>
      e.json.Some? && Parse(path).Ok?
      && var observed := Resolve(e.json.value, Parse(path).value);
         observed.Some? && Meaning(observed.value) == Meaning(expected)
  }

  predicate WellFormedAssertion(a: Assertion) {
    a.JsonPathEquals? ==> WellFormed(a.expected)
  }

  predicate WellFormedEvidence(e: Evidence) {
    e.json.Some? ==> WellFormed(e.json.value)
  }

  lemma {:induction false} ResolveWellFormed(v: Json, tokens: seq<Token>)
    requires WellFormed(v)
    ensures Resolve(v, tokens).Some? ==> WellFormed(Resolve(v, tokens).value)
    decreases |tokens|
  {
    if tokens != [] && OwnMember(v, tokens[0]).Some? {
      ResolveWellFormed(OwnMember(v, tokens[0]).value, tokens[1..]);
    }
  }

  lemma OutcomeMeaning(lower: string -> string, a: Assertion, e: Evidence)
    requires WellFormedAssertion(a) && WellFormedEvidence(e)
    ensures var r := EvaluateAssertion(lower, a, e); r.Ok? ==> (Passed(r.value) <==> Holds(lower, a, e))
  {
    hide Parse, Resolve, DeepEqual, Meaning, WellFormed, Sanitised;
    if a.JsonPathEquals? && e.json.Some? && Parse(a.path).Ok? {
      var tokens := Parse(a.path).value;
      ResolveWellFormed(e.json.value, tokens);
      var observed := Resolve(e.json.value, tokens);
      if observed.Some? {
        DeepEqualIsMeaning(observed.value, a.expected);
      }
    }
  }

  /** A report has one outcome per assertion, each passed exactly when its assertion holds;
      it passes exactly when all of them hold. */
  lemma {:induction false} ReportMeaning(lower: string -> string, assertions: seq<Assertion>, e: Evidence)
    requires WellFormedEvidence(e) && forall a :: a in assertions ==> WellFormedAssertion(a)
    requires Outcomes(lower, assertions, e).Ok?
    ensures var all := Outcomes(lower, assertions, e).value;
      && |all| == |assertions|
      && (forall i :: 0 <= i < |all| ==> (Passed(all[i]) <==> Holds(lower, assertions[i], e)))
      && ((forall o :: o in all ==> Passed(o)) <==> forall a :: a in assertions ==> Holds(lower, a, e))
  {
    hide EvaluateAssertion, Holds, Passed, WellFormedAssertion, WellFormedEvidence;
    if assertions != [] {
      var front, last := assertions[..|assertions| - 1], assertions[|assertions| - 1];
      assert assertions == front + [last];
      ReportMeaning(lower, front, e);
      OutcomeMeaning(lower, last, e);
      var all := Outcomes(lower, assertions, e).value;
      assert all == Outcomes(lower, front, e).value + [all[|front|]];
    }
  }

  /** The same evidence but for what the strings inside its JSON say. */
  predicate SameEvidenceButStrings(e: Evidence, f: Evidence) {
    && e.http == f.http && e.dom == f.dom
    && (e.json.Some? <==> f.json.Some?)
    && (e.json.Some? ==> SameButStrings(e.json.value, f.json.value))
  }

  lemma OutcomeHidesStrings(lower: string -> string, a: Assertion, e: Evidence, f: Evidence)
    requires SameEvidenceButStrings(e, f)
    ensures var r, q := EvaluateAssertion(lower, a, e), EvaluateAssertion(lower, a, f);
      && (r.Err? || q.Err? ==> r == q)
      && (r.Ok? && q.Ok? && (Passed(r.value) <==> Passed(q.value)) ==> r == q)
  {
    hide Parse, Resolve, DeepEqual, Sanitised;
    if a.JsonPathEquals? && e.json.Some? && Parse(a.path).Ok? {
      var tokens := Parse(a.path).value;
      RedactionHidesExactlyStrings(e.json.value, f.json.value);
      SanitiseCommutesWithResolve(e.json.value, tokens);
      SanitiseCommutesWithResolve(f.json.value, tokens);
    }
  }

  /** A report reveals nothing of the strings in the JSON evidence beyond which assertions passed:
      evidence that differs only there gives the same report or the same error. */
  lemma {:induction false} ReportHidesStrings(lower: string -> string, assertions: seq<Assertion>, e: Evidence,
                                              f: Evidence)
    requires SameEvidenceButStrings(e, f)
    ensures var r, q := Outcomes(lower, assertions, e), Outcomes(lower, assertions, f);
      && (r.Err? || q.Err? ==> r == q)
      && (r.Ok? && q.Ok? ==>
            |r.value| == |q.value|
            && ((forall i :: 0 <= i < |r.value| ==> (Passed(r.value[i]) <==> Passed(q.value[i]))) ==> r == q))
  {
    hide EvaluateAssertion, Passed, SameEvidenceButStrings;
    if assertions != [] {
      var front, last := assertions[..|assertions| - 1], assertions[|assertions| - 1];
      ReportHidesStrings(lower, front, e, f);
      OutcomeHidesStrings(lower, last, e, f);
      var r, q := Outcomes(lower, assertions, e), Outcomes(lower, assertions, f);
      if r.Ok? && q.Ok? {
        var rf, qf := Outcomes(lower, front, e).value, Outcomes(lower, front, f).value;
        assert r.value[|rf|] == r.value[|r.value| - 1] && q.value[|qf|] == q.value[|q.value| - 1];
        assert forall i :: 0 <= i < |rf| ==> r.value[i] == rf[i] && q.value[i] == qf[i];
      }
    }
  }

  // ---------- Whole reports ----------

  lemma AssertionOfWellFormed(v: Json)
    requires WellFormed(v) && ParseAssertion(v).Ok?
    ensures WellFormedAssertion(ParseAssertion(v).value)
  {
  }

  lemma {:induction false} AssertionsOfWellFormed(items: seq<Json>)
    requires (forall v :: v in items ==> WellFormed(v)) && ParseItems(items).Ok?
    ensures forall a :: a in ParseItems(items).value ==> WellFormedAssertion(a)
  {
    hide WellFormed, ParseAssertion, WellFormedAssertion;
    if items != [] {
      var front, last := items[..|items| - 1], items[|items| - 1];
      assert items == front + [last];
      AssertionsOfWellFormed(front);
      AssertionOfWellFormed(last);
    }
  }

  lemma SpecOfWellFormed(raw: Json)
    requires WellFormed(raw) && ParseSpec(raw).Ok?
    ensures forall a :: a in ParseSpec(raw).value.assertions ==> WellFormedAssertion(a)
  {
    hide WellFormedAssertion, ParseItems, ParseMembers, Find, Others;
    match raw
    case Arr(items) => AssertionsOfWellFormed(items);
    case Obj(members) =>
      if Lookup(members, "assertions").Some? {
        AssertionsOfWellFormed(Lookup(members, "assertions").value.items);
      } else {
        AssertionOfWellFormed(raw);
      }
  }

  /** A report passes exactly when every assertion of the specification holds of the evidence, and it says so of
      each. */
  lemma EvaluationMeaning(lower: string -> string, raw: Json, e: Evidence)
    requires WellFormed(raw) && WellFormedEvidence(e)
    ensures Evaluation(lower, raw, e).Ok? ==>
      var report, assertions := Evaluation(lower, raw, e).value, ParseSpec(raw).value.assertions;
      && |report.outcomes| == |assertions|
      && (forall i :: 0 <= i < |assertions| ==> (Passed(report.outcomes[i]) <==> Holds(lower, assertions[i], e)))
      && (report.passed <==> forall a :: a in assertions ==> Holds(lower, a, e))
      && report.metadata == ParseSpec(raw).value.metadata
  {
    hide ParseSpec, Outcomes, Holds, Passed, WellFormed, WellFormedEvidence, WellFormedAssertion;
    if Evaluation(lower, raw, e).Ok? {
      SpecOfWellFormed(raw);
      ReportMeaning(lower, ParseSpec(raw).value.assertions, e);
    }
  }

  function Verdicts(outcomes: seq<Outcome>): (r: seq<bool>)
    ensures |r| == |outcomes| && forall i :: 0 <= i < |r| ==> (r[i] <==> Passed(outcomes[i]))
  {
    seq(|outcomes|, i requires 0 <= i < |outcomes| => Passed(outcomes[i]))
  }

  /** A report reveals nothing of the strings in the JSON evidence beyond its verdicts: evidence that differs only
      there gives the same error, or the same report up to verdicts. */
  lemma EvaluationHidesStrings(lower: string -> string, raw: Json, e: Evidence, f: Evidence)
    requires SameEvidenceButStrings(e, f)
    ensures var r, q := Evaluation(lower, raw, e), Evaluation(lower, raw, f);
      && (r.Err? || q.Err? ==> r == q)
      && (r.Ok? && q.Ok? && Verdicts(r.value.outcomes) == Verdicts(q.value.outcomes) ==> r == q)
  {
    hide ParseSpec, Outcomes, Passed, SameEvidenceButStrings;
    if ParseSpec(raw).Ok? {
      ReportHidesStrings(lower, ParseSpec(raw).value.assertions, e, f);
      var r, q := Evaluation(lower, raw, e), Evaluation(lower, raw, f);
      if r.Ok? && q.Ok? && Verdicts(r.value.outcomes) == Verdicts(q.value.outcomes) {
        forall i | 0 <= i < |r.value.outcomes| ensures Passed(r.value.outcomes[i]) <==> Passed(q.value.outcomes[i]) {
          assert Verdicts(r.value.outcomes)[i] == Verdicts(q.value.outcomes)[i];
        }
      }
    }
  }
}
