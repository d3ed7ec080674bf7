/** The JSON path parser of the postcondition engine, and what printing a path and parsing it gives back. */
module JsonPath {
  import opened Powers
  import opened Text
  import opened Wrappers

  datatype Token = Field(name: string) | Index(index: nat)

  datatype PathError =
    | EmptyPath
    | NoDollar
    | EndsWithDot
    | EmptyField
    | UnclosedIndex
    | EmptyIndex
    | BadIndex
    | UnexpectedCharacter(c: char)

  // ---------- Integers in strings ----------

  predicate IsDigit(c: char) {
    '0' <= c <= '9'
  }

  function DigitValue(c: char): nat
    requires IsDigit(c)
  {
    c as int - '0' as int
  }

  /** The length of the longest run of digits at the start. */
  function DigitRun(s: string): (n: nat)
    ensures n <= |s|
    ensures forall i :: 0 <= i < n ==> IsDigit(s[i])
    ensures n < |s| ==> !IsDigit(s[n])
  {
    if s != [] && IsDigit(s[0]) then 1 + DigitRun(s[1..]) else 0
  }

  function DecimalValue(s: string): nat
    requires forall i :: 0 <= i < |s| ==> IsDigit(s[i])
  {
    if s == [] then 0 else 10 * DecimalValue(s[..|s| - 1]) + DigitValue(s[|s| - 1])
  }

  function Decimal(n: nat): (s: string)
    ensures s != [] && forall i :: 0 <= i < |s| ==> IsDigit(s[i])
    ensures s[0] == '0' ==> s == "0"
  {
    (if n < 10 then [] else Decimal(n / 10)) + [(n % 10 + '0' as int) as char]
  }

  lemma {:induction false} DecimalValueOfDecimal(n: nat)
    ensures DecimalValue(Decimal(n)) == n
  {
    var s := Decimal(n);
    if n < 10 {
      assert s[..|s| - 1] == [];
    } else {
      assert s[..|s| - 1] == Decimal(n / 10);
      DecimalValueOfDecimal(n / 10);
    }
  }

  const MAX_SAFE := 0x20_0000_0000_0000

  /** How many binary digits of `n` a double has no room for. */
  function ExtraBits(n: nat): nat {
    if n < MAX_SAFE then 0 else 1 + ExtraBits(n / 2)
  }

  /** The double nearest to `n`, ties to even; None when that is infinity. */
  function NearestDouble(n: nat): Option<int> {
    if n < MAX_SAFE then Some(n)
    else
      var unit := Power2(ExtraBits(n));
      var q, r := n / unit, n % unit;
      var rounded := (if 2 * r > unit || (2 * r == unit && q % 2 == 1) then q + 1 else q) * unit;
      if rounded < Power2(1024) then Some(rounded) else None
  }

  /** `m` times `unit` is the multiple of `unit` nearest to `n`, the even one half-way, where `unit` leaves `n`
      53 binary digits. */
  predicate IsNearest(n: nat, unit: nat, m: nat) {
    && 0x20_0000_0000_0000 * unit <= 2 * n && n < 0x20_0000_0000_0000 * unit
    && 2 * n - unit <= 2 * (m * unit) <= 2 * n + unit
    && (2 * (m * unit) == 2 * n - unit || 2 * (m * unit) == 2 * n + unit ==> m % 2 == 0)
  }

  lemma {:induction false} LeadingDigits(n: nat)
    requires n >= MAX_SAFE
    ensures var unit := Power2(ExtraBits(n)); MAX_SAFE * unit <= 2 * n && n < MAX_SAFE * unit
  {
    if n / 2 >= MAX_SAFE {
      LeadingDigits(n / 2);
    } else {
      assert ExtraBits(n / 2) == 0 && Power2(0) == 1;
    }
    assert Power2(ExtraBits(n)) == 2 * Power2(ExtraBits(n / 2));
  }

  /** An index below 2^53 is its own double; a larger one becomes the nearest double, if that is below 2^1024. */
  lemma NearestDoubleLaw(n: nat)
    ensures n < 0x20_0000_0000_0000 ==> NearestDouble(n) == Some(n)
    ensures n >= 0x20_0000_0000_0000 ==>
      var unit := Power2(ExtraBits(n));
      exists m: nat :: IsNearest(n, unit, m) &&
        NearestDouble(n) == if m * unit < Power2(1024) then Some(m * unit) else None
  {
    hide Power2, ExtraBits;
    if n >= MAX_SAFE {
      LeadingDigits(n);
      var unit := Power2(ExtraBits(n));
      var q, r := n / unit, n % unit;
      var m := if 2 * r > unit || (2 * r == unit && q % 2 == 1) then q + 1 else q;
      RoundedIsNearest(n, unit, q, r, m);
    }
  }

  lemma RoundedIsNearest(n: nat, unit: nat, q: nat, r: nat, m: nat)
    requires n == q * unit + r && r < unit && MAX_SAFE * unit <= 2 * n && n < MAX_SAFE * unit
    requires m == if 2 * r > unit || (2 * r == unit && q % 2 == 1) then q + 1 else q
    ensures IsNearest(n, unit, m)
  {
    assert (q + 1) * unit == q * unit + unit;
  }

  /** `Number.parseInt(s, 10)`: blanks, a sign, then as many digits as there are. None stands
      for NaN and infinity, which the parser rejects alike. */
  function ParseInt(s: string): Option<int> {
    var t := TrimStart(s);
    var negative := t != [] && t[0] == '-';
    var body := if t != [] && (t[0] == '-' || t[0] == '+') then t[1..] else t;
    var n := DigitRun(body);
    if n == 0 then None
    else
      var magnitude := NearestDouble(DecimalValue(body[..n]));
      if magnitude.None? then None
      else if negative then Some(-magnitude.value) else Some(magnitude.value)
  }

  // ---------- Parsing ----------

  /** The length of the longest run of characters a field name may hold. */
  function FieldRun(s: string): (n: nat)
    ensures n <= |s|
    ensures forall i :: 0 <= i < n ==> s[i] != '.' && s[i] != '['
    ensures n < |s| ==> s[n] == '.' || s[n] == '['
  {
    if s != [] && s[0] != '.' && s[0] != '[' then 1 + FieldRun(s[1..]) else 0
  }

  function IndexOf(s: string, c: char): (r: Option<nat>)
    ensures r.Some? ==> r.value < |s| && s[r.value] == c && c !in s[..r.value]
    ensures r.None? ==> c !in s
  {
    if s == [] then None
    else if s[0] == c then Some(0)
    else
      var rest := IndexOf(s[1..], c);
      if rest.None? then None
      else
        assert s[..rest.value + 1] == [s[0]] + s[1..][..rest.value];
        Some(rest.value + 1)
  }

  /** The first token of a non-empty rest, and what follows it. */
  function NextToken(rest: string): (r: Result<(Token, string), PathError>)
    requires rest != []
    ensures r.Ok? ==> |r.value.1| < |rest|
  {
    if rest[0] == '.' then
      var body := rest[1..];
      if body == [] then Err(EndsWithDot)
      else
        var n := FieldRun(body);
        if n == 0 then Err(EmptyField) else Ok((Field(body[..n]), body[n..]))
    else if rest[0] == '[' then
      var body := rest[1..];
      var closing := IndexOf(body, ']');
      if closing.None? then Err(UnclosedIndex)
      else if closing.value == 0 then Err(EmptyIndex)
      else
        var index := ParseInt(body[..closing.value]);
        if index.None? || index.value < 0 then Err(BadIndex)
        else Ok((Index(index.value), body[closing.value + 1..]))
    else Err(UnexpectedCharacter(rest[0]))
  }

  function Prepend(tokens: seq<Token>, r: Result<seq<Token>, PathError>): Result<seq<Token>, PathError> {
    if r.Ok? then Ok(tokens + r.value) else r
  }

  function ParseTokens(rest: string): Result<seq<Token>, PathError>
    decreases |rest|
  {
    if rest == [] then Ok([])
    else
      var next := NextToken(rest);
      if next.Err? then Err(next.error) else Prepend([next.value.0], ParseTokens(next.value.1))
  }

  function Parse(path: string): Result<seq<Token>, PathError> {
    var trimmed := Trim(path);
    if trimmed == [] then Err(EmptyPath)
    else if trimmed[0] != '$' then Err(NoDollar)
    else ParseTokens(trimmed[1..])
  }

  /** The parser's loop: it consumes `rest` token by token and stops on every string. */
  method ParseJsonPath(path: string) returns (r: Result<seq<Token>, PathError>)
    ensures r == Parse(path)
  {
    var trimmed := Trim(path);
    assert forall ts: seq<Token> :: [] + ts == ts;
    if |trimmed| == 0 {
      return Err(EmptyPath);
    }
    if trimmed[0] != '$' {
      return Err(NoDollar);
    }
    var tokens: seq<Token> := [];
    var rest := trimmed[1..];
    while |rest| > 0
      invariant Parse(path) == Prepend(tokens, ParseTokens(rest))
      decreases |rest|
    {
      if rest[0] == '.' {
        var body := rest[1..];
        if |body| == 0 {
          return Err(EndsWithDot);
        }
        var matched := FieldRun(body);
        if matched == 0 {
          return Err(EmptyField);
        }
        tokens, rest := Extend(tokens, Field(body[..matched]), body[matched..], rest), body[matched..];
      } else if rest[0] == '[' {
        var body := rest[1..];
        var closing := IndexOf(body, ']');
        if closing.None? {
          return Err(UnclosedIndex);
        }
        var indexStr := body[..closing.value];
        if |indexStr| == 0 {
          return Err(EmptyIndex);
        }
        var index := ParseInt(indexStr);
        if index.None? || index.value < 0 {
          return Err(BadIndex);
        }
        tokens, rest := Extend(tokens, Index(index.value), body[closing.value + 1..], rest), body[closing.value + 1..];
      } else {
        return Err(UnexpectedCharacter(rest[0]));
      }
    }
    assert tokens + [] == tokens;
    r := Ok(tokens);
  }

  /** Appending the token just read; what is still to be parsed moves along. */
  function Extend(tokens: seq<Token>, t: Token, after: string, rest: string): (r: seq<Token>)
    requires rest != [] && NextToken(rest) == Ok((t, after))
    ensures r == tokens + [t]
    ensures Prepend(tokens, ParseTokens(rest)) == Prepend(r, ParseTokens(after))
  {
    assert ParseTokens(after).Ok? ==>
      tokens + ([t] + ParseTokens(after).value) == (tokens + [t]) + ParseTokens(after).value;
    tokens + [t]
  }

  // ---------- Printing ----------

  function PrintTokens(tokens: seq<Token>): string {
    if tokens == [] then []
    else
      (match tokens[0]
       case Field(name) => "." + name
       case Index(i) => "[" + Decimal(i) + "]")
      + PrintTokens(tokens[1..])
  }

  function Print(tokens: seq<Token>): string {
    "$" + PrintTokens(tokens)
  }

  predicate GoodName(name: string) {
    name != [] && '.' !in name && '[' !in name
  }

  /** Field names are non-empty and without `.` or `[`, indices are doubles, and a
      field at the end has no trailing blank. */
  predicate Printable(tokens: seq<Token>) {
    && (forall t :: t in tokens ==> if t.Field? then GoodName(t.name) else NearestDouble(t.index) == Some(t.index))
    && (tokens != [] && tokens[|tokens| - 1].Field? ==>
          var name := tokens[|tokens| - 1].name; name != [] && !IsBlank(name[|name| - 1]))
  }

  // ---------- Round trips ----------

  lemma {:induction false} DigitRunOf(digits: string, s: string)
    requires forall i :: 0 <= i < |digits| ==> IsDigit(digits[i])
    requires s == [] || !IsDigit(s[0])
    ensures DigitRun(digits + s) == |digits|
  {
    if digits == [] {
      assert digits + s == s;
    } else {
      assert (digits + s)[1..] == digits[1..] + s;
      DigitRunOf(digits[1..], s);
    }
  }

  lemma ParseDecimal(i: nat)
    ensures ParseInt(Decimal(i)) == NearestDouble(i)
  {
    hide NearestDouble;
    var s := Decimal(i);
    DigitRunOf(s, []);
    assert s + [] == s && s[..|s|] == s;
    DecimalValueOfDecimal(i);
    assert IsDigit(s[0]) && !IsBlank(s[0]);
  }

  lemma {:induction false} FieldRunOf(name: string, s: string)
    requires '.' !in name && '[' !in name
    requires s == [] || s[0] == '.' || s[0] == '['
    ensures FieldRun(name + s) == |name|
  {
    if name == [] {
      assert name + s == s;
    } else {
      assert (name + s)[1..] == name[1..] + s;
      assert name[0] in name;
      FieldRunOf(name[1..], s);
    }
  }

  lemma {:induction false} IndexOfFirst(before: string, c: char, after: string)
    requires c !in before
    ensures IndexOf(before + [c] + after, c) == Some(|before|)
  {
    var s := before + [c] + after;
    if before == [] {
      assert s[0] == c;
    } else {
      assert s[1..] == before[1..] + [c] + after;
      assert s[0] == before[0] && before[0] in before;
      IndexOfFirst(before[1..], c, after);
    }
  }

  /** What parsing makes of the indices of a token list: each becomes the nearest double. */
  function Rounded(tokens: seq<Token>): Result<seq<Token>, PathError> {
    if tokens == [] then Ok([])
    else
      match tokens[0]
      case Field(name) => Prepend([tokens[0]], Rounded(tokens[1..]))
      case Index(i) =>
        var d := NearestDouble(i);
        if d.None? || d.value < 0 then Err(BadIndex) else Prepend([Index(d.value)], Rounded(tokens[1..]))
  }

  lemma PrintedStart(tokens: seq<Token>)
    ensures PrintTokens(tokens) == [] || PrintTokens(tokens)[0] in {'.', '['}
  {
  }

  lemma NextPrintedField(name: string, after: string)
    requires GoodName(name) && (after == [] || after[0] in {'.', '['})
    ensures NextToken("." + name + after) == Ok((Field(name), after))
  {
    var s := "." + name + after;
    FieldRunOf(name, after);
    assert s[1..] == name + after;
    assert (name + after)[..|name|] == name && (name + after)[|name|..] == after;
  }

  lemma NextPrintedIndex(i: nat, after: string)
    ensures var d := NearestDouble(i);
      NextToken("[" + Decimal(i) + "]" + after) == if d.None? || d.value < 0 then Err(BadIndex)
        else Ok((Index(d.value), after))
  {
    hide NearestDouble, ParseInt;
    var digits := Decimal(i);
    var s := "[" + digits + "]" + after;
    IndexOfFirst(digits, ']', after);
    assert s[1..] == digits + [']'] + after;
    assert s[1..][..|digits|] == digits && s[1..][|digits| + 1..] == after;
    ParseDecimal(i);
  }

  lemma {:induction false} ParsePrintedTokens(tokens: seq<Token>)
    requires forall t :: t in tokens && t.Field? ==> GoodName(t.name)
    ensures ParseTokens(PrintTokens(tokens)) == Rounded(tokens)
  {
    hide NearestDouble, NextToken, Decimal, GoodName;
    if tokens != [] {
      var after := PrintTokens(tokens[1..]);
      ParsePrintedTokens(tokens[1..]);
      assert tokens[0] in tokens;
      match tokens[0]
      case Field(name) =>
        PrintedStart(tokens[1..]);
        NextPrintedField(name, after);
      case Index(i) =>
        NextPrintedIndex(i, after);
    }
  }

  /** Parsed names are good, and a field parsed last ends where the string does. */
  lemma {:induction false} ParsedTokensAreGood(rest: string)
    requires ParseTokens(rest).Ok?
    ensures var tokens := ParseTokens(rest).value;
      && (forall t :: t in tokens && t.Field? ==> GoodName(t.name))
      && (tokens != [] <==> rest != [])
      && (tokens != [] && tokens[|tokens| - 1].Field? ==>
            var name := tokens[|tokens| - 1].name; name != [] && name[|name| - 1] == rest[|rest| - 1])
    decreases |rest|
  {
    hide NextToken, GoodName;
    if rest != [] {
      var t, after := NextToken(rest).value.0, NextToken(rest).value.1;
      ParsedTokensAreGood(after);
      var tail := ParseTokens(after).value;
      var tokens := ParseTokens(rest).value;
      assert tokens == [t] + tail;
      assert tail != [] ==> tokens[|tokens| - 1] == tail[|tail| - 1];
      NextTokenIsGood(rest);
    }
  }

  lemma NextTokenIsGood(rest: string)
    requires rest != [] && NextToken(rest).Ok?
    ensures var (t, after) := NextToken(rest).value;
      && (after != [] ==> after[|after| - 1] == rest[|rest| - 1])
      && (t.Field? ==> GoodName(t.name) && t.name != [] && (after == [] ==> t.name[|t.name| - 1] == rest[|rest| - 1]))
  {
    hide ParseInt;
  }

  lemma {:induction false} RoundedKeepsRepresentable(tokens: seq<Token>)
    ensures Rounded(tokens) == Ok(tokens) <==> forall t :: t in tokens && t.Index? ==>
      NearestDouble(t.index) == Some(t.index)
  {
    hide NearestDouble;
    if tokens != [] {
      RoundedKeepsRepresentable(tokens[1..]);
      assert tokens == [tokens[0]] + tokens[1..];
      assert forall t :: t in tokens <==> t == tokens[0] || t in tokens[1..];
      if Rounded(tokens) == Ok(tokens) {
        var tail := Rounded(tokens[1..]);
        assert tail.Ok? && tokens[1..] == ([Rounded(tokens).value[0]] + tail.value)[1..] == tail.value;
      }
    }
  }

  /** Printing a token list as a `$` path and parsing it gives the list back exactly when it is printable. */
  lemma PrintParseRoundTrip(tokens: seq<Token>)
    ensures Parse(Print(tokens)) == Ok(tokens) <==> Printable(tokens)
  {
    hide Parse, Print, Printable;
    if Printable(tokens) {
      PrintableRoundTrips(tokens);
    }
    if Parse(Print(tokens)) == Ok(tokens) {
      RoundTripsArePrintable(tokens);
    }
  }

  lemma PrintableRoundTrips(tokens: seq<Token>)
    requires Printable(tokens)
    ensures Parse(Print(tokens)) == Ok(tokens)
  {
    hide NearestDouble, Trim, ParseTokens, Rounded, PrintTokens;
    var path := Print(tokens);
    assert path[0] == '$' && path[1..] == PrintTokens(tokens);
    if tokens != [] {
      PrintedEnd(tokens);
    } else {
      PrintedNothing();
    }
    ParsePrintedTokens(tokens);
    RoundedKeepsRepresentable(tokens);
  }

  lemma PrintedNothing()
    ensures PrintTokens([]) == []
  {
  }

  lemma RoundTripsArePrintable(tokens: seq<Token>)
    requires Parse(Print(tokens)) == Ok(tokens)
    ensures Printable(tokens)
  {
    hide NearestDouble, Trim, ParseTokens, Rounded, PrintTokens;
    var trimmed := Trim(Print(tokens));
    ParsedTokensAreGood(trimmed[1..]);
    assert trimmed[1..] != [] ==> trimmed[1..][|trimmed| - 2] == trimmed[|trimmed| - 1];
    TrimmedPrint(tokens, trimmed);
    assert trimmed[1..] == PrintTokens(tokens);
    ParsePrintedTokens(tokens);
    RoundedKeepsRepresentable(tokens);
  }

  /** The last character of a printed list ends its last field, or is the bracket of its last index. */
  lemma {:induction false} PrintedEnd(tokens: seq<Token>)
    requires tokens != []
    ensures var s, t := PrintTokens(tokens), tokens[|tokens| - 1];
      s != [] && match t {
        case Field(name) => s[|s| - 1] == if name == [] then '.' else name[|name| - 1]
        case Index(_) => s[|s| - 1] == ']'
      }
  {
    hide Decimal;
    var rest := PrintTokens(tokens[1..]);
    var first := match tokens[0] case Field(name) => "." + name case Index(i) => "[" + Decimal(i) + "]";
    assert PrintTokens(tokens) == first + rest;
    if |tokens| > 1 {
      PrintedEnd(tokens[1..]);
      assert tokens[1..][|tokens| - 2] == tokens[|tokens| - 1];
      assert (first + rest)[|first + rest| - 1] == rest[|rest| - 1];
    } else {
      assert rest == [] && first + rest == first;
    }
  }

  /** If the trimmed print still parses to the list, trimming took nothing away. */
  lemma TrimmedPrint(tokens: seq<Token>, trimmed: string)
    requires trimmed == Trim(Print(tokens)) && Trimmed(trimmed) && trimmed != []
    requires tokens != [] && tokens[|tokens| - 1].Field? ==>
      var name := tokens[|tokens| - 1].name; name != [] && name[|name| - 1] == trimmed[|trimmed| - 1]
    ensures trimmed == Print(tokens)
  {
    hide Trim, Decimal;
    if tokens != [] {
      PrintedEnd(tokens);
    }
    assert !IsBlank(']') && !IsBlank('$');
  }

  /** A dotted name does not survive: it prints like two fields and is read back as two. */
  lemma DottedNameIsSplit()
    ensures Parse(Print([Field("a.b")])) == Ok([Field("a"), Field("b")])
  {
    hide Parse;
    var one, two := [Field("a.b")], [Field("a"), Field("b")];
    assert one[1..] == [] && two[1..] == [Field("b")] && [Field("b")][1..] == [];
    assert PrintTokens([Field("b")]) == ".b";
    assert PrintTokens(one) == ".a.b" && PrintTokens(two) == "." + "a" + ".b";
    assert Print(one) == Print(two);
    PrintableRoundTrips(two);
  }

  /** Nor does a blank at the end of the last field. */
  lemma TrailingBlankIsLost()
    ensures Parse(Print([Field("a ")])) == Ok([Field("a")])
  {
    hide Trim, ParseTokens;
    var padded, bare := [Field("a ")], [Field("a")];
    assert padded[1..] == [] && bare[1..] == [];
    assert Print(padded) == "$.a " && Print(bare) == "$.a";
    TrimOfPadded();
    PrintableRoundTrips(bare);
    assert Trim("$.a") == "$.a";
  }

  lemma TrimOfPadded()
    ensures Trim("$.a ") == "$.a"
  {
    assert "$.a "[..3] == "$.a";
  }

  // ---------- What a path is ----------

  /** `s` starts with `digits` after blanks and a sign, and with no further digit. */
  predicate StartsWithInt(s: string, before: string, sign: string, digits: string, after: string) {
    && s == before + (sign + (digits + after)) && AllBlank(before) && sign in ["", "+", "-"]
    && digits != [] && (forall i :: 0 <= i < |digits| ==> IsDigit(digits[i]))
    && (after == [] || !IsDigit(after[0]))
  }

  function Signed(sign: string, magnitude: Option<int>): Option<int> {
    if magnitude.None? then None else Some(if sign == "-" then -magnitude.value else magnitude.value)
  }

  lemma {:induction false} TrimStartOf(before: string, rest: string)
    requires AllBlank(before) && (rest == [] || !IsBlank(rest[0]))
    ensures TrimStart(before + rest) == rest
  {
    if before == [] {
      assert before + rest == rest;
    } else {
      assert (before + rest)[1..] == before[1..] + rest;
      TrimStartOf(before[1..], rest);
    }
  }

  /** An integer is read from the digits that follow blanks and a sign, as the nearest double. */
  lemma IntIsParsed(s: string, before: string, sign: string, digits: string, after: string)
    requires StartsWithInt(s, before, sign, digits, after)
    ensures ParseInt(s) == Signed(sign, NearestDouble(DecimalValue(digits)))
  {
    hide NearestDouble, TrimStart, AllBlank, DecimalValue;
    var body := digits + after;
    assert IsDigit(body[0]) && !IsBlank(body[0]) && !IsBlank('-') && !IsBlank('+');
    TrimStartOf(before, sign + body);
    DigitRunOf(digits, after);
    assert body[..|digits|] == digits;
    if sign == [] {
      assert sign + body == body;
    } else {
      assert (sign + body)[1..] == body && (sign + body)[0] == sign[0];
    }
  }

  /** Nothing else is read as an integer. */
  lemma ParsedIntShape(s: string) returns (before: string, sign: string, digits: string, after: string)
    requires ParseInt(s).Some?
    ensures StartsWithInt(s, before, sign, digits, after)
  {
    hide NearestDouble, TrimStart, AllBlank, DecimalValue;
    before := TrimStartLaw(s);
    var t := TrimStart(s);
    sign := if t != [] && t[0] == '-' then "-" else if t != [] && t[0] == '+' then "+" else "";
    var body := if sign != "" then t[1..] else t;
    assert t == sign + body;
    digits, after := body[..DigitRun(body)], body[DigitRun(body)..];
    Halves(body, DigitRun(body));
  }

  lemma Halves(s: string, n: nat)
    requires n <= |s|
    ensures s == s[..n] + s[n..]
  {
  }

  /** `rest` begins with the token `t`, and `after` follows it. */
  ghost predicate Begins(rest: string, t: Token, after: string) {
    match t
    case Field(name) => GoodName(name) && rest == "." + name + after && (after == [] || after[0] in {'.', '['})
    case Index(i) => exists text :: IsIndexText(rest, text, after) && ParseInt(text) == Some(i)
  }

  /** `rest` begins with a bracketed non-empty text. */
  predicate IsIndexText(rest: string, text: string, after: string) {
    text != [] && ']' !in text && rest == "[" + text + "]" + after
  }

  /** `rest` begins with no token, for the reason `error`. */
  ghost predicate Stuck(rest: string, error: PathError)
    requires rest != []
  {
    match error
    case EndsWithDot => rest == "."
    case EmptyField => |rest| > 1 && rest[0] == '.' && rest[1] in {'.', '['}
    case UnclosedIndex => rest[0] == '[' && ']' !in rest
    case EmptyIndex => |rest| > 1 && rest[0] == '[' && rest[1] == ']'
    case BadIndex =>
      exists text, after :: IsIndexText(rest, text, after) && (ParseInt(text).None? || ParseInt(text).value < 0)
    case UnexpectedCharacter(c) => rest[0] == c && c !in {'.', '['}
    case _ => false
  }

  lemma TokenIsNext(rest: string, t: Token, after: string)
    requires Begins(rest, t, after)
    ensures rest != [] && NextToken(rest) == Ok((t, after))
  {
    hide ParseInt;
    match t
    case Field(name) => NextPrintedField(name, after);
    case Index(i) =>
      var text :| IsIndexText(rest, text, after) && ParseInt(text) == Some(i);
      IndexTextIsNext(rest, text, after);
  }

  lemma IndexTextIsNext(rest: string, text: string, after: string)
    requires IsIndexText(rest, text, after)
    ensures rest[0] == '[' && IndexOf(rest[1..], ']') == Some(|text|)
    ensures rest[1..][..|text|] == text && rest[1..][|text| + 1..] == after
  {
    IndexOfFirst(text, ']', after);
    assert rest[1..] == text + [']'] + after;
  }

  lemma NextIsToken(rest: string)
    requires rest != []
    ensures NextToken(rest).Ok? ==> Begins(rest, NextToken(rest).value.0, NextToken(rest).value.1)
    ensures NextToken(rest).Err? ==> Stuck(rest, NextToken(rest).error)
  {
    hide ParseInt;
    var body := rest[1..];
    if rest[0] == '.' && body != [] && FieldRun(body) > 0 {
      var n := FieldRun(body);
      assert rest == "." + body[..n] + body[n..];
    } else if rest[0] == '[' && IndexOf(body, ']').Some? {
      var n := IndexOf(body, ']').value;
      assert rest == "[" + body[..n] + "]" + body[n + 1..];
      assert n > 0 ==> IsIndexText(rest, body[..n], body[n + 1..]);
    } else if rest[0] == '[' {
      assert rest == "[" + body;
    }
  }

  lemma StuckIsNoToken(rest: string, error: PathError)
    requires rest != [] && Stuck(rest, error)
    ensures NextToken(rest) == Err(error)
  {
    hide ParseInt;
    match error
    case UnclosedIndex => assert rest[1..] != [] ==> forall c :: c in rest[1..] ==> c in rest;
    case EmptyIndex => assert IndexOf(rest[1..], ']') == Some(0);
    case BadIndex =>
      var text, after :| IsIndexText(rest, text, after) && (ParseInt(text).None? || ParseInt(text).value < 0);
      IndexTextIsNext(rest, text, after);
    case _ =>
  }

  /** `rest` is the tokens, one written after the other. */
  ghost predicate Spells(rest: string, tokens: seq<Token>)
    decreases |tokens|
  {
    if tokens == [] then rest == []
    else exists after :: Begins(rest, tokens[0], after) && Spells(after, tokens[1..])
  }

  /** After some tokens, `rest` has no next one, for the reason `error`. */
  ghost predicate FailsWith(rest: string, error: PathError)
    decreases |rest|
  {
    rest != [] &&
    (Stuck(rest, error) || exists t, after :: Begins(rest, t, after) && |after| < |rest| && FailsWith(after, error))
  }

  lemma {:induction false} SpelledIsParsed(rest: string, tokens: seq<Token>)
    requires Spells(rest, tokens)
    ensures ParseTokens(rest) == Ok(tokens)
    decreases |tokens|
  {
    hide NextToken, Begins;
    if tokens != [] {
      var after :| Begins(rest, tokens[0], after) && Spells(after, tokens[1..]);
      TokenIsNext(rest, tokens[0], after);
      SpelledIsParsed(after, tokens[1..]);
      assert tokens == [tokens[0]] + tokens[1..];
    }
  }

  lemma {:induction false} FailureIsParsed(rest: string, error: PathError)
    requires FailsWith(rest, error)
    ensures ParseTokens(rest) == Err(error)
    decreases |rest|
  {
    hide NextToken, Begins, Stuck;
    if Stuck(rest, error) {
      StuckIsNoToken(rest, error);
    } else {
      var t, after :| Begins(rest, t, after) && |after| < |rest| && FailsWith(after, error);
      TokenIsNext(rest, t, after);
      FailureIsParsed(after, error);
    }
  }

  lemma {:induction false} ParsedIsSpelled(rest: string)
    ensures ParseTokens(rest).Ok? ==> Spells(rest, ParseTokens(rest).value)
    ensures ParseTokens(rest).Err? ==> FailsWith(rest, ParseTokens(rest).error)
    decreases |rest|
  {
    hide NextToken, Begins, Stuck;
    if rest != [] {
      NextIsToken(rest);
      if NextToken(rest).Ok? {
        var (t, after) := NextToken(rest).value;
        ParsedIsSpelled(after);
        var tail := ParseTokens(after);
        assert tail.Ok? ==> ([t] + tail.value)[1..] == tail.value;
      }
    }
  }

  /** A path is read as some tokens exactly if, trimmed, it is `$` followed by their spelling; and it is refused with
      the error of the first place at which no token begins. */
  lemma ParseMeaning(path: string, tokens: seq<Token>, error: PathError)
    ensures var trimmed := Trim(path);
      var dollar := trimmed != [] && trimmed[0] == '$';
      && (Parse(path) == Ok(tokens) <==> dollar && Spells(trimmed[1..], tokens))
      && (Parse(path) == Err(error) <==>
        (error == EmptyPath && trimmed == []) || (error == NoDollar && trimmed != [] && !dollar) ||
        (dollar && FailsWith(trimmed[1..], error)))
  {
    hide Trim, Spells, FailsWith, ParseTokens;
    var trimmed := Trim(path);
    if trimmed != [] && trimmed[0] == '$' {
      ParsedIsSpelled(trimmed[1..]);
      if Spells(trimmed[1..], tokens) {
        SpelledIsParsed(trimmed[1..], tokens);
      }
      if FailsWith(trimmed[1..], error) {
        FailureIsParsed(trimmed[1..], error);
      }
      FailuresAreOfTokens(trimmed[1..]);
    }
  }

  lemma {:induction false} FailuresAreOfTokens(rest: string)
    ensures !FailsWith(rest, EmptyPath) && !FailsWith(rest, NoDollar)
    decreases |rest|
  {
    hide Begins;
    forall t, after | Begins(rest, t, after) && |after| < |rest|
      ensures !FailsWith(after, EmptyPath) && !FailsWith(after, NoDollar)
    {
      FailuresAreOfTokens(after);
    }
  }
}
