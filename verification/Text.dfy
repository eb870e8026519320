/** The text forms of the state directory: trimmed pointers, two-word markers and decimal numbers. */
module Text {
  import opened Inventory

  const MAX_INT64: int := 0x7FFF_FFFF_FFFF_FFFF

  predicate IsSpace(c: char) {
    || '\t' <= c <= '\r' || c == ' ' || c == '\U{85}' || c == '\U{A0}' || c == '\U{1680}'
    || '\U{2000}' <= c <= '\U{200A}' || c == '\U{2028}' || c == '\U{2029}' || c == '\U{202F}'
    || c == '\U{205F}' || c == '\U{3000}'
  }

  predicate IsWord(s: string) {
    s != "" && forall i :: 0 <= i < |s| ==> !IsSpace(s[i])
  }

  function TrimSpace(s: string): string {
    if s == "" then ""
    else if IsSpace(s[0]) then TrimSpace(s[1..])
    else if IsSpace(s[|s| - 1]) then TrimSpace(s[..|s| - 1])
    else s
  }

  // The length of the word that s starts with.
  function WordLength(s: string): (n: nat)
    ensures n <= |s|
    ensures forall i :: 0 <= i < n ==> !IsSpace(s[i])
    ensures n < |s| ==> IsSpace(s[n])
  {
    if s == "" || IsSpace(s[0]) then 0 else 1 + WordLength(s[1..])
  }

  function Fields(s: string): seq<string>
    decreases |s|
  {
    if s == "" then []
    else if IsSpace(s[0]) then Fields(s[1..])
    else
      var n := WordLength(s);
      [s[..n]] + Fields(s[n..])
  }

  lemma {:induction false} FieldsAreWords(s: string)
    ensures forall i :: 0 <= i < |Fields(s)| ==> IsWord(Fields(s)[i])
    decreases |s|
  {
    if s != "" {
      if IsSpace(s[0]) { FieldsAreWords(s[1..]); } else { FieldsAreWords(s[WordLength(s)..]); }
    }
  }

  lemma WordThen(word: string, rest: string)
    requires IsWord(word) && (rest == "" || IsSpace(rest[0]))
    ensures Fields(word + rest) == [word] + Fields(rest)
  {
    var s := word + rest;
    var n := WordLength(s);
    assert forall i :: 0 <= i < |word| ==> s[i] == word[i];
    assert rest != "" ==> s[|word|] == rest[0];
    assert s[..n] == word && s[n..] == rest;
  }

  /** A two-word marker reads back as written exactly when both parts are non-empty and free of white space. */
  lemma TwoFields(first: string, second: string)
    ensures Fields(first + " " + second) == [first, second] <==> IsWord(first) && IsWord(second)
  {
    FieldsAreWords(first + " " + second);
    if IsWord(first) && IsWord(second) {
      assert first + " " + second == first + (" " + second);
      WordThen(first, " " + second);
      assert (" " + second)[1..] == second + "";
      WordThen(second, "");
    }
    if Fields(first + " " + second) == [first, second] {
      assert IsWord(Fields(first + " " + second)[0]) && IsWord(Fields(first + " " + second)[1]);
    }
  }

  lemma TrimWord(s: string)
    requires IsWord(s)
    ensures TrimSpace(s) == s
  {
  }

  ghost predicate Spaces(s: string) {
    forall i :: 0 <= i < |s| ==> IsSpace(s[i])
  }

  /** What is between the white space at the two ends, and nothing if there is only white space. */
  lemma {:induction false} Trims(left: string, core: string, right: string)
    requires Spaces(left) && Spaces(right)
    requires core == "" || (!IsSpace(core[0]) && !IsSpace(core[|core| - 1]))
    ensures TrimSpace(left + core + right) == core
    decreases |left| + |right|
  {
    hide IsSpace;
    var s := left + core + right;
    if left != "" {
      assert s[1..] == left[1..] + core + right;
      Trims(left[1..], core, right);
    } else if right == "" {
      assert s == core;
    } else if core == "" {
      assert s == right && s[1..] == left + core + right[1..];
      Trims(left, core, right[1..]);
    } else {
      assert s[0] == core[0] && s[..|s| - 1] == left + core + right[..|right| - 1];
      Trims(left, core, right[..|right| - 1]);
    }
  }

  // ---- Decimal numbers -----------------------------------------------------

  predicate IsDigit(c: char) {
    '0' <= c <= '9'
  }

  // Values of digits only: the 64-bit range is checked by ParseInt.
  function ParseDigits(s: string): Option<nat> {
    if s == "" then None
    else
      var last := s[|s| - 1];
      if !IsDigit(last) then None
      else if |s| == 1 then Some((last - '0') as nat)
      else
        match ParseDigits(s[..|s| - 1])
        case None => None
        case Some(n) => Some(10 * n + (last - '0') as nat)
  }

  function FormatDigits(n: nat): (s: string)
    ensures s != "" && IsDigit(s[0])
  {
    var digit := ['0' + (n % 10) as char];
    if n < 10 then digit else FormatDigits(n / 10) + digit
  }

  function FormatInt(value: int): string {
    if value < 0 then "-" + FormatDigits(-value) else FormatDigits(value)
  }

  function ParseInt(s: string): Option<int> {
    if s == "" then None
    else if s[0] == '-' then
      match ParseDigits(s[1..])
      case None => None
      case Some(n) => if n <= MAX_INT64 + 1 then Some(-(n as int)) else None
    else
      match ParseDigits(if s[0] == '+' then s[1..] else s)
      case None => None
      case Some(n) => if n <= MAX_INT64 then Some(n) else None
  }

  lemma {:induction false} DigitsRoundTrip(n: nat)
    ensures ParseDigits(FormatDigits(n)) == Some(n)
    ensures IsWord(FormatDigits(n))
  {
    var s := FormatDigits(n);
    if n >= 10 {
      DigitsRoundTrip(n / 10);
      assert s[..|s| - 1] == FormatDigits(n / 10);
    }
  }

  lemma IntRoundTrip(value: int)
    ensures IsWord(FormatInt(value))
    ensures ParseInt(FormatInt(value)) == (if -MAX_INT64 - 1 <= value <= MAX_INT64 then Some(value) else None)
    ensures FormatInt(value)[0] == '-' <==> value < 0
  {
    if value < 0 {
      DigitsRoundTrip(-value);
      assert FormatInt(value)[1..] == FormatDigits(-value);
    } else {
      DigitsRoundTrip(value);
    }
  }

  // ---- Numerals --------------------------------------------------------------

  ghost predicate AllDigits(s: string) {
    s != "" && forall i :: 0 <= i < |s| ==> '0' <= s[i] <= '9'
  }

  ghost predicate Zeros(s: string) {
    forall i :: 0 <= i < |s| ==> s[i] == '0'
  }

  /** Leading zeros before the ordinary decimal form of n. */
  ghost predicate Numeral(s: string, n: nat) {
    exists k :: 0 <= k <= |s| && Zeros(s[..k]) && s[k..] == FormatDigits(n)
  }

  lemma {:induction false} DigitsParse(s: string)
    ensures ParseDigits(s).Some? <==> AllDigits(s)
  {
    if |s| > 1 { DigitsParse(s[..|s| - 1]); }
  }

  lemma {:induction false} NumeralParses(zeros: string, n: nat)
    requires Zeros(zeros)
    ensures ParseDigits(zeros + FormatDigits(n)) == Some(n)
    decreases n, |zeros|
  {
    var s := zeros + FormatDigits(n);
    if n >= 10 {
      assert s[..|s| - 1] == zeros + FormatDigits(n / 10);
      NumeralParses(zeros, n / 10);
    } else if zeros != "" {
      assert s[..|s| - 1] == zeros;
      ZerosParse(zeros);
    }
  }

  lemma {:induction false} ZerosParse(zeros: string)
    requires zeros != "" && Zeros(zeros)
    ensures ParseDigits(zeros) == Some(0)
  {
    if |zeros| > 1 { ZerosParse(zeros[..|zeros| - 1]); }
  }

  lemma FormatOn(n: nat, last: char)
    requires IsDigit(last)
    ensures
      var d := (last - '0') as nat;
      FormatDigits(10 * n + d) == if n == 0 then [last] else FormatDigits(n) + [last]
    ensures FormatDigits(0) == "0"
  {
    var d := (last - '0') as nat;
    assert (10 * n + d) / 10 == n && (10 * n + d) % 10 == d;
  }

  lemma ZerosOn(front: string, k: nat, last: char)
    requires k <= |front| && Zeros(front[..k]) && front[k..] == "0"
    ensures Zeros((front + [last])[..|front|]) && (front + [last])[|front|..] == [last]
  {
    assert (front + [last])[..|front|] == front == front[..k] + front[k..];
  }

  lemma TailOn(front: string, k: nat, last: char)
    requires k <= |front|
    ensures (front + [last])[..k] == front[..k] && (front + [last])[k..] == front[k..] + [last]
  {
  }

  lemma OneMoreDigit(front: string, n: nat, last: char)
    requires Numeral(front, n) && IsDigit(last)
    ensures Numeral(front + [last], 10 * n + (last - '0') as nat)
  {
    hide FormatDigits, Zeros;
    var k :| 0 <= k <= |front| && Zeros(front[..k]) && front[k..] == FormatDigits(n);
    FormatOn(n, last);
    if n == 0 { ZerosOn(front, k, last); } else { TailOn(front, k, last); }
  }

  lemma {:induction false} ParsedIsNumeral(s: string)
    requires ParseDigits(s).Some?
    ensures Numeral(s, ParseDigits(s).value)
  {
    var front, last := s[..|s| - 1], s[|s| - 1];
    if |s| == 1 {
      assert s[..0] == "" && s[0..] == [last] == FormatDigits((last - '0') as nat);
    } else {
      ParsedIsNumeral(front);
      OneMoreDigit(front, ParseDigits(front).value, last);
      assert s == front + [last];
    }
  }

  /** Digits are read in base ten, leading zeros and all, and nothing else is read as a number. */
  lemma ParsesNumerals(s: string, n: nat)
    ensures ParseDigits(s) == Some(n) <==> Numeral(s, n)
    ensures ParseDigits(s).Some? <==> AllDigits(s)
  {
    DigitsParse(s);
    if ParseDigits(s) == Some(n) { ParsedIsNumeral(s); }
    if Numeral(s, n) {
      var k :| 0 <= k <= |s| && Zeros(s[..k]) && s[k..] == FormatDigits(n);
      assert s == s[..k] + s[k..];
      NumeralParses(s[..k], n);
    }
  }

  /** A numeral, with or without a sign, is read as the integer it is, if that fits 64 bits; anything else is not. */
  lemma ParsesIntegers(s: string, value: int)
    ensures ParseInt(s) == Some(value) <==>
        exists digits, n: nat :: Numeral(digits, n)
          && ((s in {digits, "+" + digits} && value == n <= MAX_INT64)
              || (s == "-" + digits && value + n == 0 && n <= MAX_INT64 + 1))
  {
    hide ParseDigits, Numeral, FormatDigits;
    forall digits, n: nat ensures ParseDigits(digits) == Some(n) <==> Numeral(digits, n) { ParsesNumerals(digits, n); }
    forall digits ensures ParseDigits(digits).Some? <==> AllDigits(digits) { ParsesNumerals(digits, 0); }
    if s != "" { assert s == [s[0]] + s[1..]; }
  }
}
