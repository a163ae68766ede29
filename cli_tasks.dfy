/** fhevm-hardhat-template/tasks/OpinionResearchPlatform.ts: the command-line
    tasks. `task:launch-survey` turns its string arguments into the registry
    call's arguments; `task:get-encrypted-counts` asks for every choice's
    encrypted count in turn, reporting a failure for one choice and going on
    with the next. */
module CliTasks {
  import opened Base
  import Registry

  // ---------------------------------------------------------------------
  // `split(",")` and its inverse

  /** `s.split(sep)`: the pieces between separators, empty ones included;
      the empty string splits into one empty piece. */
  function Split(s: string, sep: char): (r: seq<string>)
    ensures |r| == CountWhere(s, c => c == sep) + 1
    ensures forall i :: 0 <= i < |r| ==> sep !in r[i]
  {
    if s == [] then [""]
    else
      var rest := Split(s[1..], sep);
      if s[0] == sep then [""] + rest
      else [[s[0]] + rest[0]] + rest[1..]
  }

  /** `parts.join(sep)`. */
  function Join(parts: seq<string>, sep: char): string
    requires |parts| > 0
  {
    if |parts| == 1 then parts[0] else parts[0] + [sep] + Join(parts[1..], sep)
  }

  /** Splitting and joining again gives back the argument. */
  lemma {:induction false} JoinSplit(s: string, sep: char)
    ensures Join(Split(s, sep), sep) == s
  {
    if s != [] {
      JoinSplit(s[1..], sep);
      var rest := Split(s[1..], sep);
      if s[0] != sep && |rest| > 1 {
        assert Split(s, sep)[1..] == rest[1..];
        assert Join(Split(s, sep), sep) == [s[0]] + rest[0] + [sep] + Join(rest[1..], sep);
      }
    }
  }

  /** Joining pieces that hold no separator and splitting again gives back
      the pieces, so no piece is lost or merged. */
  lemma {:induction false} SplitJoin(parts: seq<string>, sep: char)
    requires |parts| > 0
    requires forall i :: 0 <= i < |parts| ==> sep !in parts[i]
    ensures Split(Join(parts, sep), sep) == parts
  {
    if |parts| == 1 {
      SplitPiece(parts[0], [], sep);
    } else {
      SplitJoin(parts[1..], sep);
      SplitPiece(parts[0], Join(parts[1..], sep), sep);
      assert [parts[0]] + parts[1..] == parts;
    }
  }

  /** A piece without separators followed by a separator and `tail` splits
      into that piece and the pieces of `tail`; with nothing after it, into
      the piece alone. */
  lemma {:induction false} SplitPiece(piece: string, tail: string, sep: char)
    requires sep !in piece
    ensures tail == [] ==> Split(piece, sep) == [piece]
    ensures Split(piece + [sep] + tail, sep) == [piece] + Split(tail, sep)
  {
    if piece != [] {
      SplitPiece(piece[1..], tail, sep);
      assert (piece + [sep] + tail)[1..] == piece[1..] + [sep] + tail;
      assert [piece[0]] + piece[1..] == piece;
    } else {
      assert ([] + [sep] + tail)[1..] == tail;
    }
  }

  // ---------------------------------------------------------------------
  // The launch arguments (lines 23-26)

  /** `choices.split(",").map(c => c.trim())`: one choice per comma-separated
      piece, trimmed, in order; empty pieces stay as empty choices. */
  function ParseChoices(arg: string): (r: seq<string>)
    ensures |r| == CountWhere(arg, c => c == ',') + 1
    ensures forall i :: 0 <= i < |r| ==> r[i] == Trim(Split(arg, ',')[i])
  {
    var pieces := Split(arg, ',');
    seq(|pieces|, i requires 0 <= i < |pieces| => Trim(pieces[i]))
  }

  /** `openaccess === "true"`: any other spelling, "True" included, means a
      restricted survey. */
  predicate ParseOpenAccess(flag: string) {
    flag == "true"
  }

  lemma OpenAccessOnlyForExactTrue()
    ensures ParseOpenAccess("true")
    ensures !ParseOpenAccess("True") && !ParseOpenAccess(" true") && !ParseOpenAccess("1")
  {
    assert "True"[0] != "true"[0];
    assert |" true"| != |"true"|;
  }

  predicate IsDecimalDigit(c: char) {
    '0' <= c <= '9'
  }

  predicate IsRadixDigit(c: char, hex: bool) {
    IsDecimalDigit(c) || (hex && ('a' <= c <= 'f' || 'A' <= c <= 'F'))
  }

  function DigitValue(c: char): (v: nat)
    ensures IsDecimalDigit(c) ==> v < 10
  {
    if IsDecimalDigit(c) then c as int - '0' as int
    else if 'a' <= c <= 'f' then c as int - 'a' as int + 10
    else if 'A' <= c <= 'F' then c as int - 'A' as int + 10
    else 0
  }

  /** The longest prefix made of digits of the radix. */
  function DigitPrefix(s: string, hex: bool): (r: string)
    ensures |r| <= |s| && r == s[..|r|]
    ensures forall i :: 0 <= i < |r| ==> IsRadixDigit(r[i], hex)
    ensures |r| < |s| ==> !IsRadixDigit(s[|r|], hex)
  {
    if s != [] && IsRadixDigit(s[0], hex) then [s[0]] + DigitPrefix(s[1..], hex) else []
  }

  /** The value of a digit string, most significant digit first. */
  function DigitsValue(ds: string, radix: nat): nat {
    if ds == [] then 0 else DigitsValue(ds[..|ds| - 1], radix) * radix + DigitValue(ds[|ds| - 1])
  }

  /** The digits of a string `parseInt` has already stripped of leading
      whitespace: after an optional sign and, for hexadecimal, a "0x" or
      "0X" prefix, the digits of the radix up to the first character that
      is not one. */
  function Unsigned(t: string): (u: string)
    ensures |u| <= |t|
  {
    if |t| > 0 && (t[0] == '-' || t[0] == '+') then t[1..] else t
  }

  predicate IsHexPrefixed(u: string) {
    |u| >= 2 && u[0] == '0' && (u[1] == 'x' || u[1] == 'X')
  }

  function DigitsOf(t: string): string {
    var u := Unsigned(t);
    DigitPrefix(if IsHexPrefixed(u) then u[2..] else u, IsHexPrefixed(u))
  }

  /** `parseInt` on a string whose leading whitespace is gone: `None` (`NaN`)
      without digits, otherwise their value, negated after a minus sign. */
  function ParseTrimmed(t: string): (r: Option<int>)
    ensures r.None? <==> DigitsOf(t) == []
    ensures r.Some? && !(|t| > 0 && t[0] == '-') ==> r.value >= 0
  {
    var ds := DigitsOf(t);
    var magnitude: int := DigitsValue(ds, if IsHexPrefixed(Unsigned(t)) then 16 else 10);
    if ds == [] then None
    else if |t| > 0 && t[0] == '-' then Some(-magnitude)
    else Some(magnitude)
  }

  /** `parseInt(s)` without a radix: leading whitespace skipped, then read as
      above. No digit at all gives `NaN`, here `None`. */
  function ParseInt(s: string): (r: Option<int>)
    ensures r.None? <==> DigitsOf(TrimStart(s)) == []
  {
    ParseTrimmed(TrimStart(s))
  }

  /** Decimal digits followed by anything that is not one: the digit
      prefix stops exactly at the end of the digits. */
  lemma {:induction false} DigitPrefixStops(r: string, t: string)
    requires forall i :: 0 <= i < |r| ==> IsDecimalDigit(r[i])
    requires t != [] ==> !IsDecimalDigit(t[0])
    ensures DigitPrefix(r + t, false) == r
  {
    if r != [] {
      assert (r + t)[1..] == r[1..] + t;
      DigitPrefixStops(r[1..], t);
    } else {
      assert r + t == t;
    }
  }

  /** A natural number written in decimal. */
  function Decimal(n: nat): (r: string)
    ensures |r| > 0 && forall i :: 0 <= i < |r| ==> IsDecimalDigit(r[i])
    ensures n > 0 ==> r[0] != '0'
    ensures n == 0 ==> r == "0"
  {
    var d := ['0' + (n % 10) as char];
    if n < 10 then d else Decimal(n / 10) + d
  }

  lemma {:induction false} DecimalValue(n: nat)
    ensures DigitsValue(Decimal(n), 10) == n
  {
    var r := Decimal(n);
    if n >= 10 {
      DecimalValue(n / 10);
      assert r[..|r| - 1] == Decimal(n / 10);
    }
  }

  /** A string that starts with a decimal digit and not with "0x" is read
      as a decimal number. */
  lemma ParseTrimmedUnsigned(u: string)
    requires u != [] && IsDecimalDigit(u[0])
    requires |u| >= 2 ==> u[1] != 'x' && u[1] != 'X'
    ensures ParseTrimmed(u) == Some(DigitsValue(DigitPrefix(u, false), 10))
  {
    assert Unsigned(u) == u;
    assert !IsHexPrefixed(u);
  }

  /** A string starting with a digit has no leading whitespace. */
  lemma DigitFirstIsTrimmed(u: string)
    requires u != [] && IsDecimalDigit(u[0])
    ensures TrimStart(u) == u
  {
    assert !IsWhitespace(u[0]);
  }

  /** A duration written in decimal parses back to itself. */
  lemma ParseIntDecimal(n: nat)
    ensures ParseInt(Decimal(n)) == Some(n)
  {
    var r := Decimal(n);
    DigitFirstIsTrimmed(r);
    ParseTrimmedUnsigned(r);
    DigitPrefixStops(r, []);
    assert r + [] == r;
    DecimalValue(n);
  }

  /** Leading blanks are skipped and text after the digits is ignored, so
      " 42s" or "3600 seconds" parse as 42 and 3600. A suffix starting with
      "x" is excluded: after a lone "0" it would select hexadecimal. */
  lemma ParseIntIgnoresSuffix(n: nat, suffix: string)
    requires suffix != [] ==> !IsDecimalDigit(suffix[0]) && suffix[0] != 'x' && suffix[0] != 'X'
    ensures ParseInt(" " + Decimal(n) + suffix) == Some(n)
  {
    var r := Decimal(n);
    var u := r + suffix;
    var s := " " + r + suffix;
    assert s[1..] == u;
    assert TrimStart(s) == TrimStart(u);
    assert u[0] == r[0];
    DigitFirstIsTrimmed(u);
    assert |u| >= 2 ==> (if |r| >= 2 then u[1] == r[1] else u[1] == suffix[0]);
    ParseTrimmedUnsigned(u);
    DigitPrefixStops(r, suffix);
    DecimalValue(n);
  }

  /** A minus sign before a decimal number makes it negative. */
  lemma ParseIntNegative(n: nat)
    ensures ParseInt("-" + Decimal(n)).Some?
    ensures ParseInt("-" + Decimal(n)).value == -(n as int)
  {
    var r := Decimal(n);
    var s := "-" + r;
    assert !IsWhitespace(s[0]);
    assert TrimStart(s) == s;
    assert Unsigned(s) == r;
    assert |r| >= 2 ==> r[1] != 'x';
    assert !IsHexPrefixed(r);
    DigitPrefixStops(r, []);
    assert r + [] == r;
    DecimalValue(n);
  }

  /** A "0x" prefix reads hexadecimal digits. */
  lemma ParseIntHex()
    ensures ParseInt("0x10") == Some(16)
  {
    DigitFirstIsTrimmed("0x10");
    assert Unsigned("0x10") == "0x10";
    assert IsHexPrefixed("0x10");
    assert "0x10"[2..] == "10";
    assert DigitPrefix("10", true) == "10";
    assert "10"[..1] == "1";
    assert DigitsValue("1", 16) == 1;
    assert DigitsValue("10", 16) == 16;
  }

  /** Without leading digits the result is `NaN`. */
  lemma ParseIntWord()
    ensures ParseInt("one hour") == None
  {
    assert !IsWhitespace('o');
    assert TrimStart("one hour") == "one hour";
    assert Unsigned("one hour") == "one hour";
    assert !IsHexPrefixed("one hour");
  }

  /** `Math.floor(Date.now() / 1000)`: the clock's milliseconds in seconds. */
  function LaunchTime(nowMillis: nat): (t: nat)
    ensures 1000 * t <= nowMillis < 1000 * (t + 1)
  {
    nowMillis / 1000
  }

  /** The arguments `launchSurvey` is called with. */
  datatype LaunchCall = LaunchCall(
    topic: string,
    description: string,
    choices: seq<string>,
    launchTime: int,
    closeTime: int,
    isOpenAccess: bool)

  /** The task's argument handling: the topic and description as given, the
      parsed choices, a close time `duration` seconds after the launch, and
      the access flag. A duration without digits makes the close time `NaN`,
      which the call cannot encode: `None`. */
  function LaunchArguments(topic: string, description: string, choices: string, duration: string,
                           openaccess: string, nowMillis: nat): (r: Option<LaunchCall>)
    ensures r.None? <==> ParseInt(duration).None?
    ensures r.Some? ==>
      && r.value.choices == ParseChoices(choices)
      && r.value.launchTime == LaunchTime(nowMillis)
      && r.value.closeTime == r.value.launchTime + ParseInt(duration).value
      && (r.value.isOpenAccess <==> openaccess == "true")
  {
    var d := ParseInt(duration);
    if d.None? then None
    else
      var launch := LaunchTime(nowMillis);
      Some(LaunchCall(topic, description, ParseChoices(choices), launch, launch + d.value, ParseOpenAccess(openaccess)))
  }

  /** A researcher's launch from the command line is admitted exactly when
      the list names two to four choices (empty pieces count) and the
      duration parses to a positive number of seconds. */
  lemma LaunchAdmittedIff(choices: string, duration: nat, nowMillis: nat)
    ensures var call := LaunchArguments("", "", choices, Decimal(duration), "true", nowMillis).value;
      Registry.LaunchRejection(true, call.choices, call.launchTime, call.closeTime) == None
      <==> 1 <= CountWhere(choices, c => c == ',') <= 3 && duration > 0
  {
    ParseIntDecimal(duration);
  }

  // ---------------------------------------------------------------------
  // task:get-encrypted-counts (lines 80-101)

  /** One printed line: a choice's handle, or "Error getting count". */
  datatype CountLine =
    | Handle(choice: string, handle: Registry.Handle)
    | CountError(choice: string)

  /** The line for choice `i`: the registry's answer, unless the call
      failed on the way (`rpcFails`). */
  function LineFor(platform: Registry.Platform, surveyId: nat, choices: seq<string>, i: nat, rpcFails: nat -> bool): (line: CountLine)
    reads platform
    requires platform.Valid() && i < |choices|
    ensures line.choice == choices[i]
  {
    var answer := platform.GetEncryptedResponseCount(surveyId, i);
    if rpcFails(i) || answer.Reverted? then CountError(choices[i]) else Handle(choices[i], answer.value)
  }

  /** The task: fetch the survey's information (a survey that does not exist
      ends the task: `None`), then one call per choice, in order. */
  method EncryptedCounts(platform: Registry.Platform, surveyId: nat, rpcFails: nat -> bool)
    returns (r: Option<seq<CountLine>>)
    requires platform.Valid()
    ensures r.None? <==> surveyId >= |platform.surveys|
    ensures r.Some? ==>
      var choices := platform.surveys[surveyId].choices;
      && |r.value| == |choices|
      && forall i :: 0 <= i < |choices| ==>
           && r.value[i].choice == choices[i]
           && (r.value[i].CountError? <==> rpcFails(i))
           && (r.value[i].Handle? ==> r.value[i].handle == platform.surveys[surveyId].encryptedCounts[i])
  {
    var info := platform.GetSurveyInfo(surveyId);
    if info.Reverted? {
      return None;
    }
    var choices := info.value.choices;
    var lines: seq<CountLine> := [];
    var i := 0;
    while i < |choices|
      invariant 0 <= i <= |choices|
      invariant |lines| == i
      invariant forall j :: 0 <= j < i ==> lines[j] == LineFor(platform, surveyId, choices, j, rpcFails)
    {
      lines := lines + [LineFor(platform, surveyId, choices, i, rpcFails)];
      i := i + 1;
    }
    r := Some(lines);
  }

  // ---------------------------------------------------------------------
  // task:close-survey (lines 103-116)

  /** `closeSurvey(surveyId)` sent from the first configured account: the
      survey closes when the registry admits the call; a revert ends the
      task with nothing changed. */
  method CloseSurveyTask(platform: Registry.Platform, signer: Registry.Address, surveyId: nat)
    returns (r: Registry.Outcome<Registry.Event>)
    requires platform.Valid()
    modifies platform`surveys
    ensures platform.Valid()
    ensures r.Ok? <==> old(platform.CloseRejection(signer, surveyId)) == None
    ensures r.Ok? ==>
      && r.value == Registry.SurveyClosed(surveyId)
      && platform.surveys == old(platform.surveys)[surveyId := old(platform.surveys)[surveyId].(isActive := false)]
    ensures r.Reverted? ==> platform.surveys == old(platform.surveys)
  {
    r := platform.CloseSurvey(signer, surveyId);
  }
}
