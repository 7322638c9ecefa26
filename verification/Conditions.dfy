/** Observation conditions: JSON Pointer (RFC 6901, sections 3 and 4) over JSON values, and typed checks. */
module Conditions {
  import opened Wrappers

  datatype Value =
    | Null
    | Boolean(b: bool)
    | Integer(n: int)
    | Decimal(r: real)
    | Text(text: string)
    | Array(items: seq<Value>)
    | Object(fields: map<string, Value>)

  datatype CheckTest =
    | BooleanIs(expected: bool)
    | IntegerRange(minimum: int, maximum: int)
    | TextEquals(text: string)
    | DigestEquals(digest: string)

  datatype ObservationCheck = ObservationCheck(pointer: string, test: CheckTest)

  datatype ConditionError = InvalidPointer | MissingPointer | WrongType | Mismatch

  const POINTER_LIMIT := 512
  const USIZE_LIMIT := 0x1_0000_0000_0000_0000
  const I64_LIMIT := 0x8000_0000_0000_0000

  // ----- Escapes -----

  /** Every tilde starts one of the two escapes. */
  predicate WellEscaped(s: string) {
    forall i | 0 <= i < |s| && s[i] == '~' :: i + 1 < |s| && s[i + 1] in {'0', '1'}
  }

  /** Scans one segment as an iterator does: a tilde consumes the character after it. */
  method ValidateSegment(s: string) returns (ok: bool)
    ensures ok <==> WellEscaped(s)
  {
    var i := 0;
    while i < |s|
      invariant i <= |s|
      invariant forall k | 0 <= k < i && s[k] == '~' :: k + 1 < i && s[k + 1] in {'0', '1'}
    {
      if s[i] == '~' {
        if i + 1 == |s| || s[i + 1] !in {'0', '1'} { return false; }
        i := i + 2;
      } else {
        i := i + 1;
      }
    }
    return true;
  }

  /** Left-to-right replacement of the non-overlapping occurrences of a two-character pattern. */
  function ReplaceAll(s: string, a: char, b: char, with: char): string {
    if |s| < 2 then s
    else if s[0] == a && s[1] == b then [with] + ReplaceAll(s[2..], a, b, with)
    else [s[0]] + ReplaceAll(s[1..], a, b, with)
  }

  /** What the program does: two whole-string replacements, slashes first. */
  function Unescape(s: string): string {
    ReplaceAll(ReplaceAll(s, '~', '1', '/'), '~', '0', '~')
  }

  /** What the standard asks for: one left-to-right pass. */
  function Decode(s: string): string {
    if |s| >= 2 && s[0] == '~' && s[1] == '0' then "~" + Decode(s[2..])
    else if |s| >= 2 && s[0] == '~' && s[1] == '1' then "/" + Decode(s[2..])
    else if s == "" then ""
    else [s[0]] + Decode(s[1..])
  }

  function Escape(key: string): string {
    if key == "" then ""
    else EscapeChar(key[0]) + Escape(key[1..])
  }

  function EscapeChar(c: char): string {
    if c == '~' then "~0" else if c == '/' then "~1" else [c]
  }

  lemma WellEscapedTail(s: string, n: nat)
    requires WellEscaped(s) && n <= |s|
    ensures WellEscaped(s[n..])
  {
    forall i | 0 <= i < |s[n..]| && s[n..][i] == '~'
      ensures i + 1 < |s[n..]| && s[n..][i + 1] in {'0', '1'}
    {
      assert s[n + i] == '~';
    }
  }

  /** Replacing slashes first is safe: what it leaves behind starts with an escape only if it did before. */
  lemma SlashesFirst(s: string)
    requires |s| >= 2 && s[0] == '~' && s[1] == '0'
    ensures ReplaceAll(s, '~', '1', '/') == "~0" + ReplaceAll(s[2..], '~', '1', '/')
  {
    assert s[1..][1..] == s[2..];
    if |s| == 2 {
      assert ReplaceAll(s[1..], '~', '1', '/') == s[1..];
    }
  }

  lemma HeadReplaced(c: char, s: string)
    requires c != '~'
    ensures ReplaceAll([c] + s, '~', '0', '~') == [c] + ReplaceAll(s, '~', '0', '~')
    ensures ReplaceAll([c] + s, '~', '1', '/') == [c] + ReplaceAll(s, '~', '1', '/')
  {
    assert ([c] + s)[1..] == s;
  }

  lemma TildeReplaced(s: string)
    ensures ReplaceAll("~0" + s, '~', '0', '~') == "~" + ReplaceAll(s, '~', '0', '~')
  {
    assert ("~0" + s)[2..] == s;
  }

  /** On every accepted segment the two sequential replacements are the standard's single decode. */
  lemma {:induction false} UnescapeIsDecode(s: string)
    requires WellEscaped(s)
    ensures Unescape(s) == Decode(s)
    decreases |s|
  {
    if s == "" {
    } else if s[0] == '~' {
      WellEscapedTail(s, 2);
      UnescapeIsDecode(s[2..]);
      if s[1] == '0' {
        SlashesFirst(s);
        TildeReplaced(ReplaceAll(s[2..], '~', '1', '/'));
      } else {
        HeadReplaced('/', ReplaceAll(s[2..], '~', '1', '/'));
      }
    } else {
      WellEscapedTail(s, 1);
      UnescapeIsDecode(s[1..]);
      assert s == [s[0]] + s[1..];
      HeadReplaced(s[0], s[1..]);
      HeadReplaced(s[0], ReplaceAll(s[1..], '~', '1', '/'));
    }
  }

  /** The order of the two replacements matters: tildes first would decode this accepted segment wrongly. */
  lemma TildesFirstIsWrong()
    ensures WellEscaped("~01") && Decode("~01") == "~1"
    ensures ReplaceAll(ReplaceAll("~01", '~', '0', '~'), '~', '1', '/') == "/"
  {
    assert "~01"[2..] == "1";
    assert ReplaceAll("1", '~', '0', '~') == "1";
    assert ReplaceAll("~01", '~', '0', '~') == "~1";
    assert Decode("1") == "1";
  }

  /** One more escaped character in front. */
  lemma EscapeStep(c: char, rest: string)
    requires WellEscaped(rest) && '/' !in rest
    ensures Decode(EscapeChar(c) + rest) == [c] + Decode(rest)
    ensures WellEscaped(EscapeChar(c) + rest) && '/' !in EscapeChar(c) + rest
  {
    var head := EscapeChar(c);
    assert (head + rest)[|head|..] == rest;
    forall i | 0 <= i < |head + rest| && (head + rest)[i] == '~'
      ensures i + 1 < |head + rest| && (head + rest)[i + 1] in {'0', '1'}
    {
      if i >= |head| {
        assert rest[i - |head|] == '~';
      }
    }
  }

  lemma {:induction false} EscapeRoundTrip(key: string)
    ensures Decode(Escape(key)) == key && WellEscaped(Escape(key)) && '/' !in Escape(key)
  {
    if key != "" {
      EscapeRoundTrip(key[1..]);
      assert key == [key[0]] + key[1..];
      assert Escape(key) == EscapeChar(key[0]) + Escape(key[1..]);
      hide Escape, EscapeChar, Decode, WellEscaped;
      EscapeStep(key[0], Escape(key[1..]));
    }
  }

  // ----- Pointers -----

  function Split(s: string): (parts: seq<string>)
    ensures parts != []
  {
    if s == "" then [""]
    else
      var rest := Split(s[1..]);
      if s[0] == '/' then [""] + rest else [[s[0]] + rest[0]] + rest[1..]
  }

  /** The reference tokens: everything after the first slash, split at slashes. */
  function Segments(pointer: string): seq<string> {
    Split(pointer)[1..]
  }

  function PointerOf(keys: seq<string>): string {
    if keys == [] then "" else "/" + Escape(keys[0]) + PointerOf(keys[1..])
  }

  function Escaped(keys: seq<string>): (r: seq<string>)
    ensures |r| == |keys| && forall i | 0 <= i < |r| :: r[i] == Escape(keys[i])
  {
    seq(|keys|, i requires 0 <= i < |keys| => Escape(keys[i]))
  }

  lemma {:induction false} SplitAppend(segment: string, tail: string)
    requires '/' !in segment
    ensures Split(segment + tail) == [segment + Split(tail)[0]] + Split(tail)[1..]
  {
    if segment == "" {
      assert segment + tail == tail;
      assert segment + Split(tail)[0] == Split(tail)[0];
    } else {
      SplitAppend(segment[1..], tail);
      assert (segment + tail)[1..] == segment[1..] + tail;
      assert segment + Split(tail)[0] == [segment[0]] + (segment[1..] + Split(tail)[0]);
    }
  }

  lemma {:induction false} SplitPointer(keys: seq<string>)
    ensures Split(PointerOf(keys)) == [""] + Escaped(keys)
  {
    if keys != [] {
      var tail := Escape(keys[0]) + PointerOf(keys[1..]);
      assert PointerOf(keys) == "/" + tail;
      assert ("/" + tail)[1..] == tail;
      EscapeRoundTrip(keys[0]);
      SplitPointer(keys[1..]);
      SplitAppend(Escape(keys[0]), PointerOf(keys[1..]));
      assert Escape(keys[0]) + "" == Escape(keys[0]);
      assert Split(tail) == [Escape(keys[0])] + Escaped(keys[1..]);
      assert Escaped(keys) == [Escape(keys[0])] + Escaped(keys[1..]);
    }
  }

  /** UTF-8 length: the program bounds bytes, not characters. */
  function Utf8Length(s: string): nat {
    if s == "" then 0
    else (if s[0] <= '\U{7F}' then 1 else if s[0] <= '\U{7FF}' then 2 else if s[0] <= '\U{FFFF}' then 3 else 4) + Utf8Length(s[1..])
  }

  predicate ValidPointer(pointer: string) {
    && Utf8Length(pointer) <= POINTER_LIMIT
    && (pointer != "" ==> pointer[0] == '/')
    && forall k | 0 <= k < |Segments(pointer)| :: WellEscaped(Segments(pointer)[k])
  }

  method TryNewPointer(pointer: string) returns (r: Result<string, ConditionError>)
    ensures r == if ValidPointer(pointer) then Ok(pointer) else Err(InvalidPointer)
  {
    if Utf8Length(pointer) > POINTER_LIMIT || (pointer != "" && pointer[0] != '/') {
      return Err(InvalidPointer);
    }
    var segments := Segments(pointer);
    for k := 0 to |segments|
      invariant forall i | 0 <= i < k :: WellEscaped(segments[i])
    {
      var ok := ValidateSegment(segments[k]);
      if !ok { return Err(InvalidPointer); }
    }
    return Ok(pointer);
  }

  // ----- Array indices -----

  predicate IsDigit(c: char) {
    '0' <= c <= '9'
  }

  function Number(digits: string): nat
    requires forall c | c in digits :: IsDigit(c)
  {
    if digits == "" then 0
    else
      var last := digits[|digits| - 1];
      assert IsDigit(last);
      10 * Number(digits[..|digits| - 1]) + (last as int - '0' as int)
  }

  /** Rust's unsigned parse: an optional plus, then at least one digit, and no overflow. */
  function ParseUsize(s: string): Option<nat> {
    var digits := if s != "" && s[0] == '+' then s[1..] else s;
    if digits != "" && (forall c | c in digits :: IsDigit(c)) && Number(digits) < USIZE_LIMIT
    then Some(Number(digits))
    else None
  }

  function ParseArrayIndex(s: string): Option<nat> {
    if s == "" || (|s| > 1 && s[0] == '0') then None else ParseUsize(s)
  }

  /** The standard's array index: zero, or digits that do not start with zero. */
  predicate StrictIndex(s: string) {
    s != "" && (forall c | c in s :: IsDigit(c)) && (|s| > 1 ==> s[0] != '0')
  }

  /** The program reads every strict index that fits a machine word, and deviates from the
      standard's grammar exactly on the inputs that start with a plus sign. */
  lemma IndexDeviation(s: string)
    ensures StrictIndex(s) ==> ParseArrayIndex(s) == if Number(s) < USIZE_LIMIT then Some(Number(s)) else None
    ensures ParseArrayIndex(s).Some? ==> s != "" && (StrictIndex(s) <==> s[0] != '+')
    ensures ParseArrayIndex("+1") == Some(1) && !StrictIndex("+1")
  {
    assert !IsDigit('+');
    assert "+1"[1..] == "1";
    assert Number("1") == 1 by { assert "1"[..0] == ""; }
    assert '+' in "+1" by { assert "+1"[0] == '+'; }
    if s != "" { assert s[0] in s; }
  }

  function DecimalOf(n: nat): string {
    if n < 10 then ['0' + n as char] else DecimalOf(n / 10) + ['0' + (n % 10) as char]
  }

  /** Every array position a machine word can express is addressed by its decimal spelling. */
  lemma {:induction false} DecimalRoundTrip(n: nat)
    ensures StrictIndex(DecimalOf(n)) && Number(DecimalOf(n)) == n
    ensures n < USIZE_LIMIT ==> ParseArrayIndex(DecimalOf(n)) == Some(n)
    ensures n > 0 ==> DecimalOf(n)[0] != '0'
  {
    var s := DecimalOf(n);
    if n < 10 {
      assert s[..0] == "";
    } else {
      DecimalRoundTrip(n / 10);
      assert s[..|s| - 1] == DecimalOf(n / 10);
    }
    IndexDeviation(s);
  }

  // ----- Resolution -----

  /** One step of a lookup by plain key. */
  function Select(current: Value, key: string): Option<Value> {
    match current
    case Object(fields) => if key in fields then Some(fields[key]) else None
    case Array(items) =>
      var index := ParseArrayIndex(key);
      if index.Some? && index.value < |items| then Some(items[index.value]) else None
    case _ => None
  }

  /** Direct lookup through nested objects and arrays. */
  function Descend(body: Value, keys: seq<string>): Option<Value> {
    if keys == [] then Some(body)
    else
      var next := Select(body, keys[0]);
      if next.None? then None else Descend(next.value, keys[1..])
  }

  function ResolveFrom(current: Value, segments: seq<string>): Result<Value, ConditionError> {
    if segments == [] then Ok(current)
    else
      :- Need(WellEscaped(segments[0]), InvalidPointer);
      var next := Select(current, Unescape(segments[0]));
      :- Need(next.Some?, MissingPointer);
      ResolveFrom(next.value, segments[1..])
  }

  function Resolution(pointer: string, body: Value): Result<Value, ConditionError> {
    ResolveFrom(body, Segments(pointer))
  }

  method Resolve(pointer: string, body: Value) returns (r: Result<Value, ConditionError>)
    ensures r == Resolution(pointer, body)
  {
    var current := body;
    var segments := Segments(pointer);
    for k := 0 to |segments|
      invariant Resolution(pointer, body) == ResolveFrom(current, segments[k..])
    {
      assert segments[k..][1..] == segments[k + 1..];
      var ok := ValidateSegment(segments[k]);
      if !ok { return Err(InvalidPointer); }
      var next := Select(current, Unescape(segments[k]));
      if next.None? { return Err(MissingPointer); }
      current := next.value;
    }
    return Ok(current);
  }

  lemma {:induction false} ResolveEscaped(body: Value, keys: seq<string>)
    ensures ResolveFrom(body, Escaped(keys)) == match Descend(body, keys) case Some(v) => Ok(v) case None => Err(MissingPointer)
  {
    if keys != [] {
      assert Escaped(keys)[1..] == Escaped(keys[1..]);
      EscapeRoundTrip(keys[0]);
      UnescapeIsDecode(Escape(keys[0]));
      var next := Select(body, keys[0]);
      if next.Some? { ResolveEscaped(next.value, keys[1..]); }
    }
  }

  /** Escaping any list of keys and resolving the pointer is direct lookup with the plain keys. */
  lemma ResolveIsLookup(body: Value, keys: seq<string>)
    ensures Resolution(PointerOf(keys), body) == match Descend(body, keys) case Some(v) => Ok(v) case None => Err(MissingPointer)
    ensures ValidPointer(PointerOf(keys)) <==> Utf8Length(PointerOf(keys)) <= POINTER_LIMIT
  {
    SplitPointer(keys);
    assert Segments(PointerOf(keys)) == Escaped(keys);
    ResolveEscaped(body, keys);
    forall k | 0 <= k < |keys|
      ensures WellEscaped(Escaped(keys)[k])
    {
      EscapeRoundTrip(keys[k]);
    }
  }

  /** A validated pointer never fails as malformed when it is resolved. */
  lemma {:induction false} ValidSegmentsResolve(current: Value, segments: seq<string>)
    requires forall k | 0 <= k < |segments| :: WellEscaped(segments[k])
    ensures ResolveFrom(current, segments) != Err(InvalidPointer)
    decreases |segments|
  {
    if segments != [] {
      var next := Select(current, Unescape(segments[0]));
      if next.Some? { ValidSegmentsResolve(next.value, segments[1..]); }
    }
  }

  /** Distinct key lists have distinct pointers. */
  lemma PointersAreDistinct(a: seq<string>, b: seq<string>)
    requires PointerOf(a) == PointerOf(b)
    ensures a == b
  {
    SplitPointer(a);
    SplitPointer(b);
    assert Escaped(a) == Segments(PointerOf(a)) == Escaped(b);
    forall i | 0 <= i < |a|
      ensures a[i] == b[i]
    {
      assert Escape(a[i]) == Escaped(a)[i] == Escaped(b)[i];
      EscapeRoundTrip(a[i]);
      EscapeRoundTrip(b[i]);
    }
  }

  // ----- Checks -----

  predicate IsDigest(s: string) {
    |s| == 64 && forall c | c in s :: IsDigit(c) || 'a' <= c <= 'f'
  }

  function EvaluateTest(value: Value, test: CheckTest): Outcome<ConditionError> {
    match test
    case BooleanIs(expected) => if value.Boolean? then Need(value.b == expected, Mismatch) else Fail(WrongType)
    case IntegerRange(minimum, maximum) =>
      if value.Integer? && -I64_LIMIT <= value.n < I64_LIMIT then Need(minimum <= value.n <= maximum, Mismatch) else Fail(WrongType)
    case TextEquals(expected) => if value.Text? then Need(value.text == expected, Mismatch) else Fail(WrongType)
    case DigestEquals(expected) =>
      if value.Text? then Need(IsDigest(value.text) && value.text == expected, Mismatch) else Fail(WrongType)
  }

  function CheckOne(body: Value, check: ObservationCheck): Outcome<ConditionError> {
    var value := Resolution(check.pointer, body);
    if value.Err? then Fail(value.error) else EvaluateTest(value.value, check.test)
  }

  predicate Satisfies(body: Value, checks: seq<ObservationCheck>) {
    forall c | c in checks :: CheckOne(body, c).Pass?
  }

  /** Passes exactly when every check holds; otherwise reports the first failing one. */
  method EvaluateChecks(body: Value, checks: seq<ObservationCheck>) returns (r: Outcome<ConditionError>)
    ensures r.Pass? <==> Satisfies(body, checks)
    ensures r.Fail? ==> exists k | 0 <= k < |checks| ::
              CheckOne(body, checks[k]) == r && forall i | 0 <= i < k :: CheckOne(body, checks[i]).Pass?
  {
    for k := 0 to |checks|
      invariant forall i | 0 <= i < k :: CheckOne(body, checks[i]).Pass?
    {
      var value := Resolve(checks[k].pointer, body);
      if value.Err? {
        assert CheckOne(body, checks[k]) == Fail(value.error);
        return Fail(value.error);
      }
      var outcome := EvaluateTest(value.value, checks[k].test);
      if outcome.Fail? {
        assert CheckOne(body, checks[k]) == outcome;
        return outcome;
      }
    }
    return Pass;
  }
}
