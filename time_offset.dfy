/** The UTC-offset arithmetic of `parse_input_time`: a string `±HH:MM`
    becomes a signed number of seconds. The datetime construction around it
    belongs to the host library and is not modelled. */
module TimeOffset {

  /** Python raises IndexError for an empty offset and ValueError when the
      rest does not split into two integer fields. */
  datatype OffsetError = EmptyOffset | MalformedOffset

  datatype Result<T> = Ok(value: T) | Err(error: OffsetError)

  /** `s.split(':')` as Python computes it: always at least one field, the
      separators removed. */
  function Split(s: string): (parts: seq<string>)
    ensures |parts| >= 1
    ensures forall i :: 0 <= i < |parts| ==> ':' !in parts[i]
    decreases |s|
  {
    if |s| == 0 then [""]
    else if s[0] == ':' then [""] + Split(s[1..])
    else
      var rest := Split(s[1..]);
      [[s[0]] + rest[0]] + rest[1..]
  }

  /** `':'.join(parts)`, the inverse of Split. */
  function Join(parts: seq<string>): string
    requires |parts| >= 1
  {
    if |parts| == 1 then parts[0] else parts[0] + ":" + Join(parts[1..])
  }

  lemma {:induction false} JoinSplit(s: string)
    ensures Join(Split(s)) == s
    ensures forall i :: 0 <= i < |Split(s)| ==> ':' !in Split(s)[i]
    decreases |s|
  {
    if |s| == 0 {
    } else if s[0] == ':' {
      JoinSplit(s[1..]);
      assert Split(s)[1..] == Split(s[1..]);
    } else {
      JoinSplit(s[1..]);
      var rest := Split(s[1..]);
      if |rest| == 1 {
        assert Join(Split(s)) == [s[0]] + rest[0];
      } else {
        assert Split(s)[1..] == rest[1..];
        assert Join(rest) == rest[0] + ":" + Join(rest[1..]);
      }
      assert s == [s[0]] + s[1..];
    }
  }

  /** Splitting a colon-free field followed by ':' peels that field off. */
  lemma {:induction false} SplitAfterField(a: string, b: string)
    requires ':' !in a
    ensures Split(a + ":" + b) == [a] + Split(b)
    decreases |a|
  {
    if |a| == 0 {
      assert a + ":" + b == [':'] + b;
      assert (a + ":" + b)[1..] == b;
    } else {
      SplitAfterField(a[1..], b);
      assert (a + ":" + b)[1..] == a[1..] + ":" + b;
      assert [a[0]] + a[1..] == a;
    }
  }

  /** A colon-free string is a single field. */
  lemma {:induction false} SplitSingleField(a: string)
    requires ':' !in a
    ensures Split(a) == [a]
    decreases |a|
  {
    if |a| > 0 {
      SplitSingleField(a[1..]);
      assert [a[0]] + a[1..] == a;
    }
  }

  predicate IsDigit(c: char) { '0' <= c <= '9' }

  /** The fields `int()` accepts in this model: non-empty ASCII digit strings. */
  predicate IsDigits(s: string)
  {
    |s| > 0 && forall i :: 0 <= i < |s| ==> IsDigit(s[i])
  }

  function DigitValue(c: char): (d: nat)
    requires IsDigit(c)
    ensures d < 10
  {
    c as int - '0' as int
  }

  /** The value of a decimal digit string, most significant digit first. */
  function DigitsValue(s: string): (n: nat)
    requires forall i :: 0 <= i < |s| ==> IsDigit(s[i])
  {
    if |s| == 0 then 0
    else DigitsValue(s[..|s| - 1]) * 10 + DigitValue(s[|s| - 1])
  }

  /** Decimal rendering of a natural number, without leading zeros. */
  function Decimal(n: nat): (s: string)
    ensures IsDigits(s)
  {
    if n < 10 then [('0' as int + n) as char]
    else Decimal(n / 10) + [('0' as int + n % 10) as char]
  }

  lemma {:induction false} DecimalRoundTrip(n: nat)
    ensures IsDigits(Decimal(n)) && DigitsValue(Decimal(n)) == n
  {
    if n >= 10 {
      DecimalRoundTrip(n / 10);
      var s := Decimal(n);
      assert s[..|s| - 1] == Decimal(n / 10);
    }
  }

  /** Offset in seconds from the offset string, as lines 24-26 compute it:
      `+` gives a positive sign and ANY other first character a negative
      one; the first character is dropped either way. */
  function ParseOffset(s: string): (r: Result<int>)
    ensures r.Ok? ==> |s| > 0 && |Split(s[1..])| == 2
    ensures r.Ok? && s[0] == '+' ==> r.value >= 0
    ensures r.Ok? && s[0] != '+' ==> r.value <= 0
    ensures r.Err? && r.error == EmptyOffset <==> |s| == 0
  {
    if |s| == 0 then Err(EmptyOffset)
    else
      var sign := if s[0] == '+' then 1 else -1;
      var fields := Split(s[1..]);
      if |fields| != 2 || !IsDigits(fields[0]) || !IsDigits(fields[1]) then Err(MalformedOffset)
      else Ok(sign * (DigitsValue(fields[0]) * 3600 + DigitsValue(fields[1]) * 60))
  }

  /** Every offset that parses is a first character, a digit field, ':'
      and a second digit field. */
  lemma ParseOffsetShape(s: string)
    requires ParseOffset(s).Ok?
    ensures var fields := Split(s[1..]);
      |fields| == 2 && IsDigits(fields[0]) && IsDigits(fields[1])
      && s == [s[0]] + fields[0] + ":" + fields[1]
  {
    JoinSplit(s[1..]);
    assert s == [s[0]] + s[1..];
  }

  /** The value of any offset made of a first character and two digit
      fields, leading zeros included: +1 for '+', -1 for every other first
      character. With ParseOffsetShape this gives the result of every parse
      that succeeds. */
  lemma ParseOffsetValue(c: char, h: string, m: string)
    requires IsDigits(h) && IsDigits(m)
    ensures var seconds := DigitsValue(h) * 3600 + DigitsValue(m) * 60;
      ParseOffset([c] + h + ":" + m) == Ok(if c == '+' then seconds else -seconds)
  {
    var s := [c] + h + ":" + m;
    var rest := h + ":" + m;
    assert s[0] == c && s[1..] == rest;
    DigitsNoColon(h);
    DigitsNoColon(m);
    SplitAfterField(h, m);
    SplitSingleField(m);
    ParseTwoFields(s, h, m);
  }

  /** ParseOffset unfolded for a rest already known to split into two
      digit fields. */
  lemma ParseTwoFields(s: string, h: string, m: string)
    requires |s| > 0 && Split(s[1..]) == [h, m] && IsDigits(h) && IsDigits(m)
    ensures var seconds := DigitsValue(h) * 3600 + DigitsValue(m) * 60;
      ParseOffset(s) == Ok(if s[0] == '+' then seconds else -seconds)
  {
  }

  /** A two-digit field is read in base ten, a leading zero included. */
  lemma TwoDigitsValue(a: char, b: char)
    requires IsDigit(a) && IsDigit(b)
    ensures DigitsValue([a, b]) == DigitValue(a) * 10 + DigitValue(b)
  {
    var single: string := [a];
    assert single[..0] == [];
    assert DigitsValue(single) == DigitValue(a);
    assert [a, b][..1] == single;
  }

  /** The documented example offset, zero-padded hours included. */
  lemma PaddedOffsetEast()
    ensures ParseOffset("+05:30") == Ok(19800)
  {
    var h, m := "05", "30";
    TwoDigitsValue('0', '5');
    TwoDigitsValue('3', '0');
    ParseOffsetValue('+', h, m);
    assert "+05:30" == ['+'] + h + ":" + m;
  }

  /** A zero-padded offset west of UTC, with zero minutes. */
  lemma PaddedOffsetWest()
    ensures ParseOffset("-03:00") == Ok(-10800)
  {
    var h, m := "03", "00";
    TwoDigitsValue('0', '3');
    TwoDigitsValue('0', '0');
    ParseOffsetValue('-', h, m);
    assert "-03:00" == ['-'] + h + ":" + m;
  }

  /** The offset string for a sign, hours and minutes. */
  function FormatOffset(positive: bool, hours: nat, minutes: nat): string
  {
    [if positive then '+' else '-'] + Decimal(hours) + ":" + Decimal(minutes)
  }

  /** Parsing a well-formed offset string yields its signed seconds. */
  lemma ParseFormatRoundTrip(positive: bool, hours: nat, minutes: nat)
    ensures ParseOffset(FormatOffset(positive, hours, minutes))
         == Ok((if positive then 1 else -1) * (hours * 3600 + minutes * 60))
  {
    DecimalRoundTrip(hours);
    DecimalRoundTrip(minutes);
    ParseOffsetValue(if positive then '+' else '-', Decimal(hours), Decimal(minutes));
  }

  lemma DigitsNoColon(s: string)
    requires IsDigits(s)
    ensures ':' !in s
  {
  }

  /** A leading digit is read as a negative sign and then discarded: the
      offset "05:30" is five and a half hours WEST of UTC. */
  lemma UnsignedOffsetIsNegative()
    ensures ParseOffset("05:30") == Ok(-(5 * 3600 + 30 * 60))
  {
    assert "05:30"[1..] == "5" + ":" + "30";
    SplitAfterField("5", "30");
    SplitSingleField("30");
    assert "30"[..1] == "3";
    assert "30"[..1][..0] == "";
  }
}
