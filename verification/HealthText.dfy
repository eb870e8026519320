/** The small texts the health rules read: schedules and quantities, each exactly by its shape. */
module HealthText {
  import opened Inventory
  import opened HealthRules
  import Text

  // ---- Schedules ---------------------------------------------------------------

  // Every character that Python counts as white space.
  const BLANKS: set<char> := {
    '\t', '\n', '\U{0B}', '\U{0C}', '\r', '\U{1C}', '\U{1D}', '\U{1E}', '\U{1F}', ' ', '\U{85}', '\U{A0}',
    '\U{1680}', '\U{2000}', '\U{2001}', '\U{2002}', '\U{2003}', '\U{2004}', '\U{2005}', '\U{2006}', '\U{2007}',
    '\U{2008}', '\U{2009}', '\U{200A}', '\U{2028}', '\U{2029}', '\U{202F}', '\U{205F}', '\U{3000}'
  }

  predicate Listed(c: char) {
    c in BLANKS
  }

  ghost predicate Blank(s: string) {
    forall i :: 0 <= i < |s| ==> Listed(s[i])
  }

  ghost predicate Bare(s: string) {
    s != "" && !Listed(s[0]) && !Listed(s[|s| - 1])
  }

  lemma BlanksListed(c: char)
    ensures IsBlank(c) <==> Listed(c)
  {
  }

  lemma {:induction false} Strips(left: string, core: string, right: string)
    requires Blank(left) && Bare(core) && Blank(right)
    ensures Strip(left + core + right) == core
    decreases |left| + |right|
  {
    hide Listed, IsBlank;
    var s := left + core + right;
    BlanksListed(s[0]);
    BlanksListed(s[|s| - 1]);
    if left != "" {
      assert s[1..] == left[1..] + core + right;
      Strips(left[1..], core, right);
    } else if right != "" {
      assert s[0] == core[0];
      assert s[..|s| - 1] == left + core + right[..|right| - 1];
      Strips(left, core, right[..|right| - 1]);
    } else {
      assert s == core;
    }
  }

  lemma {:induction false} Stripped(s: string) returns (left: string, right: string)
    ensures s == left + Strip(s) + right && Blank(left) && Blank(right)
  {
    hide Listed, IsBlank;
    left, right := "", "";
    if s != "" {
      var core := Strip(s);
      BlanksListed(s[0]);
      BlanksListed(s[|s| - 1]);
      if IsBlank(s[0]) {
        left, right := Stripped(s[1..]);
        Associative([s[0]], left, core);
        Associative([s[0]], left + core, right);
        left := [s[0]] + left;
      } else if IsBlank(s[|s| - 1]) {
        left, right := Stripped(s[..|s| - 1]);
        Associative(left + core, right, [s[|s| - 1]]);
        right := right + [s[|s| - 1]];
      }
    }
  }

  /** The shapes of schedule that are judged, and the microseconds between two runs of each. */
  ghost predicate Runs(core: string, bound: int) {
    || (core == "* * * * *" && bound == 60_000_000)
    || (exists step, n: nat :: Text.Numeral(step, n) && core == "*/" + step + " * * * *" && bound == n * 60_000_000)
    || (exists minute :: Text.AllDigits(minute) && core == minute + " * * * *" && bound == 3_600_000_000)
    || (exists minute, hour ::
         Text.AllDigits(minute) && Text.AllDigits(hour) && core == minute + " " + hour + " * * *"
           && bound == 86_400_000_000)
  }

  ghost predicate Recurs(schedule: string, bound: int) {
    exists left, core, right ::
      schedule == left + core + right && Blank(left) && Blank(right) && Runs(core, bound)
  }

  lemma {:induction false} DigitsThen(digits: string, rest: string)
    requires Text.AllDigits(digits) && (rest == "" || !('0' <= rest[0] <= '9'))
    ensures Digits(digits + rest) == |digits|
  {
    var s := digits + rest;
    if |digits| > 1 {
      assert s[1..] == digits[1..] + rest;
      DigitsThen(digits[1..], rest);
    } else {
      assert s[1..] == rest;
    }
  }

  lemma {:induction false} DigitsTaken(s: string)
    ensures Digits(s) > 0 ==> Text.AllDigits(s[..Digits(s)])
  {
    if s != "" && Text.IsDigit(s[0]) {
      DigitsTaken(s[1..]);
      assert s[..Digits(s)] == [s[0]] + s[1..][..Digits(s[1..])];
    }
  }

  lemma EveryMinuteBound(core: string)
    requires core == "* * * * *"
    ensures Bare(core) && BareIntervalBound(core) == Some(60_000_000)
  {
  }

  lemma HourlyBound(minute: string)
    requires Text.AllDigits(minute)
    ensures Bare(minute + " * * * *")
    ensures BareIntervalBound(minute + " * * * *") == Some(3_600_000_000)
  {
    hide Digits, Text.ParseDigits;
    var s := minute + " * * * *";
    DigitsThen(minute, " * * * *");
    assert s[0] == minute[0] && s[|minute|..] == " * * * *";
  }

  lemma DailyBound(minute: string, hour: string)
    requires Text.AllDigits(minute) && Text.AllDigits(hour)
    ensures Bare(minute + " " + hour + " * * *")
    ensures BareIntervalBound(minute + " " + hour + " * * *") == Some(86_400_000_000)
  {
    hide Digits, Text.ParseDigits, BareIntervalBound, Text.AllDigits;
    var s, n := minute + " " + hour + " * * *", |minute|;
    assert s == minute + (" " + hour + " * * *");
    DigitsThen(minute, " " + hour + " * * *");
    DigitsThen(hour, " * * *");
    assert s[n..] == " " + hour + " * * *" && s[n + 1..] == hour + " * * *";
    DigitsStart(minute);
    DigitsStart(hour);
    DailyShape(s, n, |hour|);
  }

  lemma DigitsStart(digits: string)
    requires Text.AllDigits(digits)
    ensures digits != "" && '0' <= digits[0] <= '9'
  {
  }

  lemma DailyShape(s: string, n: nat, k: nat)
    requires 0 < n < |s| && '0' <= s[0] <= '9' && Digits(s) == n && s[n] == ' '
    requires 0 < k && n + 1 + k <= |s| && '0' <= s[n + 1] <= '9' && Digits(s[n + 1..]) == k
    requires s[n + 1 + k..] == " * * *"
    ensures Bare(s) && BareIntervalBound(s) == Some(86_400_000_000)
  {
    hide Digits, Text.ParseDigits;
    assert s[|s| - 1] == s[n + 1 + k..][5];
  }

  lemma StepBound(step: string, n: nat)
    requires Text.Numeral(step, n)
    ensures Bare("*/" + step + " * * * *")
    ensures BareIntervalBound("*/" + step + " * * * *") == Some(n * 60_000_000)
  {
    hide Digits, Text.ParseDigits, Text.FormatDigits;
    Text.ParsesNumerals(step, n);
    var s := "*/" + step + " * * * *";
    DigitsThen(step, " * * * *");
    assert s[1] == '/' && s[2..] == step + " * * * *";
    assert s[2..2 + |step|] == step && s[2 + |step|..] == " * * * *";
  }

  lemma RunsBound(core: string, bound: int)
    requires Runs(core, bound)
    ensures Bare(core) && BareIntervalBound(core) == Some(bound)
  {
    hide Bare, BareIntervalBound, Text.AllDigits, Text.Numeral;
    if core == "* * * * *" && bound == 60_000_000 {
      EveryMinuteBound(core);
    } else if step, n: nat :| Text.Numeral(step, n) && core == "*/" + step + " * * * *" && bound == n * 60_000_000 {
      StepBound(step, n);
    } else if minute :| Text.AllDigits(minute) && core == minute + " * * * *" && bound == 3_600_000_000 {
      HourlyBound(minute);
    } else {
      var minute, hour :|
        Text.AllDigits(minute) && Text.AllDigits(hour) && core == minute + " " + hour + " * * *"
          && bound == 86_400_000_000;
      DailyBound(minute, hour);
    }
  }

  /** A schedule has a bound exactly when it has one of the four shapes between blanks, and then that of its shape. */
  lemma ScheduleBound(schedule: string, bound: int)
    ensures CronIntervalBound(schedule) == Some(bound) <==> Recurs(schedule, bound)
  {
    hide BareIntervalBound, Runs;
    if Recurs(schedule, bound) {
      var left, core, right :|
        schedule == left + core + right && Blank(left) && Blank(right) && Runs(core, bound);
      RunsBound(core, bound);
      Strips(left, core, right);
    }
    if CronIntervalBound(schedule) == Some(bound) {
      var left, right := Stripped(schedule);
      BoundRuns(Strip(schedule), bound);
    }
  }

  lemma BoundRuns(s: string, bound: int)
    requires BareIntervalBound(s) == Some(bound)
    ensures Runs(s, bound)
  {
    hide Text.Numeral, Text.AllDigits, Text.ParseDigits, Digits;
    var n := Digits(s);
    if s == "* * * * *" {
    } else if "*/" <= s && Digits(s[2..]) > 0 && s[2 + Digits(s[2..])..] == " * * * *" {
      var step := s[2..2 + Digits(s[2..])];
      Text.ParsesNumerals(step, bound / MINUTE);
      assert s == "*/" + step + " * * * *";
    } else {
      DigitsTaken(s);
      assert s == s[..n] + s[n..];
      if s[n..] == " * * * *" {
      } else {
        var k := Digits(s[n + 1..]);
        DigitsTaken(s[n + 1..]);
        assert s == s[..n] + " " + s[n + 1..][..k] + " * * *";
      }
    }
  }

  // ---- Quantities --------------------------------------------------------------

  ghost predicate Letters(s: string) {
    forall i :: 0 <= i < |s| ==> 'a' <= s[i] <= 'z' || 'A' <= s[i] <= 'Z'
  }

  /** A text of digits, then letters, with or without one line feed at the end. */
  ghost predicate Measures(value: Value, amount: nat, unit: string) {
    exists digits, end ::
      value == Value.Text(digits + unit + end) && Text.Numeral(digits, amount) && Letters(unit) && end in {"", "\n"}
  }

  lemma MeasuredIsParsed(digits: string, amount: nat, unit: string, end: string)
    requires Text.Numeral(digits, amount) && Letters(unit) && end in {"", "\n"}
    ensures ParseQuantity(Value.Text(digits + unit + end)) == Some(Quantity(amount, unit))
  {
    hide Text.ParseDigits, Text.Numeral, Digits;
    var text := digits + unit + end;
    Text.ParsesNumerals(digits, amount);
    assert digits + unit + "" == digits + unit;
    assert end == "\n" ==> text[..|text| - 1] == digits + unit;
    DigitsThen(digits, unit);
    assert (digits + unit)[..|digits|] == digits && (digits + unit)[|digits|..] == unit;
  }

  lemma ParsedIsMeasured(value: Value)
    requires ParseQuantity(value).Some?
    ensures Measures(value, ParseQuantity(value).value.amount, ParseQuantity(value).value.unit)
  {
    hide Text.ParseDigits, Text.Numeral, Digits;
    var cut := value.text != "" && value.text[|value.text| - 1] == '\n';
    var s, end := if cut then value.text[..|value.text| - 1] else value.text, if cut then "\n" else "";
    var n := Digits(s);
    DigitsTaken(s);
    assert s == s[..n] + s[n..] && value.text == s[..n] + s[n..] + end;
    Text.ParsesNumerals(s[..n], ParseQuantity(value).value.amount);
  }

  /** What is read as a quantity, and as which. */
  lemma QuantityRead(value: Value, amount: nat, unit: string)
    ensures ParseQuantity(value) == Some(Quantity(amount, unit)) <==> Measures(value, amount, unit)
  {
    if ParseQuantity(value) == Some(Quantity(amount, unit)) { ParsedIsMeasured(value); }
    if Measures(value, amount, unit) {
      var digits, end :|
        value == Value.Text(digits + unit + end) && Text.Numeral(digits, amount) && Letters(unit) && end in {"", "\n"};
      MeasuredIsParsed(digits, amount, unit, end);
    }
  }

  // ---- Codes -------------------------------------------------------------------

  /** What passes from a cluster's text into a reason, by its ASCII code: letters, digits, underscore and hyphen. */
  lemma CodesListed(c: char)
    ensures
      var n := c as int;
      IsCodeChar(c) <==> 65 <= n <= 90 || 97 <= n <= 122 || 48 <= n <= 57 || n in {95, 45}
  {
    assert c == '_' <==> c as int == 95;
    assert c == '-' <==> c as int == 45;
  }
}
