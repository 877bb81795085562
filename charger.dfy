/**
 * The charger command: the window padded inward by two minutes at each end
 * and written as `$ST <start hour> <start minute> <end hour> <end minute>`,
 * every field in plain decimal. A parser for that form is given beside it so
 * that what the command says can be read back.
 */
module Charger {
  import opened Rates
  import opened WindowFinder

  /** How far the start moves later and the end moves earlier. */
  const PadMinutes: int := 2

  datatype Option<T> = None | Some(value: T)

  /** The four fields of a `$ST` command. */
  datatype StArgs = StArgs(startHour: nat, startMinute: nat, endHour: nat, endMinute: nat)

  /** The window shrunk by `PadMinutes` at each end, so that it starts and ends inside the chosen hours. */
  function PadWindow(w: Window): Window
  {
    Window(w.start + PadMinutes, w.end - PadMinutes)
  }

  function DigitChar(d: int): char
    requires 0 <= d < 10
  {
    ('0' as int + d) as char
  }

  predicate IsDigit(c: char)
  {
    '0' <= c <= '9'
  }

  predicate AllDigits(s: string)
  {
    forall i :: 0 <= i < |s| ==> IsDigit(s[i])
  }

  /** `n` in decimal, as Python formats an int: at least one digit and no leading zero. */
  function Dec(n: nat): (s: string)
    ensures |s| >= 1
    ensures AllDigits(s)
    ensures s[0] == '0' ==> n == 0
    decreases n
  {
    if n < 10 then [DigitChar(n)] else Dec(n / 10) + [DigitChar(n % 10)]
  }

  /** The number a string of digits denotes. */
  function DecValue(s: string): nat
    requires AllDigits(s)
    decreases |s|
  {
    if s == [] then 0 else DecValue(s[..|s| - 1]) * 10 + (s[|s| - 1] as int - '0' as int)
  }

  /** A decimal field: one or more digits. */
  function ParseDec(s: string): Option<nat>
  {
    if |s| > 0 && AllDigits(s) then Some(DecValue(s)) else None
  }

  /** Reading back a number written in decimal gives the number. */
  lemma {:induction false} DecRoundTrip(n: nat)
    ensures ParseDec(Dec(n)) == Some(n)
    decreases n
  {
    var s := Dec(n);
    assert s[|s| - 1] as int - '0' as int == n % 10;
    if n >= 10 {
      DecRoundTrip(n / 10);
      assert s[..|s| - 1] == Dec(n / 10);
    } else {
      assert s[..|s| - 1] == [];
      assert DecValue(s) == DecValue([]) * 10 + n;
    }
  }

  /** The pieces of `s` between its spaces, as `str.split(" ")` gives them. */
  function Split(s: string): (r: seq<string>)
    ensures |r| >= 1
    decreases |s|
  {
    if s == [] then [[]]
    else
      var t := Split(s[1..]);
      if s[0] == ' ' then [[]] + t else [[s[0]] + t[0]] + t[1..]
  }

  lemma {:induction false} SplitNoSpace(x: string)
    requires ' ' !in x
    ensures Split(x) == [x]
  {
    if x != [] {
      SplitNoSpace(x[1..]);
      assert [x[0]] + x[1..] == x;
    }
  }

  lemma {:induction false} SplitAtSpace(x: string, y: string)
    requires ' ' !in x
    ensures Split(x + [' '] + y) == [x] + Split(y)
  {
    if x == [] {
      assert x + [' '] + y == [' '] + y;
      assert ([' '] + y)[1..] == y;
    } else {
      SplitAtSpace(x[1..], y);
      var s := x + [' '] + y;
      assert s[1..] == x[1..] + [' '] + y;
      assert [x[0]] + x[1..] == x;
    }
  }

  lemma DecHasNoSpace(n: nat)
    ensures ' ' !in Dec(n)
  {
  }

  /** The `$ST` command for the given fields. */
  function StCommand(a: StArgs): string
  {
    "$ST " + Dec(a.startHour) + " " + Dec(a.startMinute) + " " + Dec(a.endHour) + " " + Dec(a.endMinute)
  }

  /** The fields of a `$ST` command, or None when `cmd` is not one. */
  function ParseSt(cmd: string): Option<StArgs>
  {
    if |cmd| < 4 || cmd[..4] != "$ST " then None
    else
      var f := Split(cmd[4..]);
      if |f| != 4 then None
      else
        var h1, m1, h2, m2 := ParseDec(f[0]), ParseDec(f[1]), ParseDec(f[2]), ParseDec(f[3]);
        if h1.Some? && m1.Some? && h2.Some? && m2.Some? then
          Some(StArgs(h1.value, m1.value, h2.value, m2.value))
        else None
  }

  /** A `$ST` command is its prefix followed by the four fields, each after the first preceded by a space. */
  lemma StCommandShape(a: StArgs)
    ensures var d1, d2, d3, d4 := Dec(a.startHour), Dec(a.startMinute), Dec(a.endHour), Dec(a.endMinute);
      StCommand(a) == "$ST " + (d1 + [' '] + (d2 + [' '] + (d3 + [' '] + d4)))
  {
  }

  /** The fields of a `$ST` command, split at its spaces. */
  lemma StCommandFields(a: StArgs)
    ensures var cmd := StCommand(a);
      && |cmd| >= 4 && cmd[..4] == "$ST "
      && Split(cmd[4..]) == [Dec(a.startHour), Dec(a.startMinute), Dec(a.endHour), Dec(a.endMinute)]
  {
    var d1, d2, d3, d4 := Dec(a.startHour), Dec(a.startMinute), Dec(a.endHour), Dec(a.endMinute);
    DecHasNoSpace(a.startHour);
    DecHasNoSpace(a.startMinute);
    DecHasNoSpace(a.endHour);
    DecHasNoSpace(a.endMinute);
    var r2 := d3 + [' '] + d4;
    var r1 := d2 + [' '] + r2;
    var r0 := d1 + [' '] + r1;
    StCommandShape(a);
    assert StCommand(a)[4..] == r0;
    SplitNoSpace(d4);
    SplitAtSpace(d3, d4);
    SplitAtSpace(d2, r2);
    SplitAtSpace(d1, r1);
  }

  /** A `$ST` command reads back as exactly the fields it was built from. */
  lemma ParseStCommand(a: StArgs)
    ensures ParseSt(StCommand(a)) == Some(a)
  {
    StCommandFields(a);
    DecRoundTrip(a.startHour);
    DecRoundTrip(a.startMinute);
    DecRoundTrip(a.endHour);
    DecRoundTrip(a.endMinute);
  }

  /** The command sent to the charger for window `w` (update_charger). */
  function ChargerCommand(w: Window): string
  {
    var p := PadWindow(w);
    StCommand(StArgs(Hour(p.start), Minute(p.start), Hour(p.end), Minute(p.end)))
  }

  /**
   * The command names, as an hour below 24 and a minute below 60, the time of
   * day two minutes after the window starts and two minutes before it ends.
   */
  lemma ChargerCommandMeaning(w: Window)
    ensures var c := ParseSt(ChargerCommand(w));
      && c.Some?
      && c.value.startHour < 24 && c.value.startMinute < 60
      && c.value.endHour < 24 && c.value.endMinute < 60
      && c.value.startHour * MinutesPerHour + c.value.startMinute == TimeOfDay(w.start + PadMinutes)
      && c.value.endHour * MinutesPerHour + c.value.endMinute == TimeOfDay(w.end - PadMinutes)
  {
    var p := PadWindow(w);
    ParseStCommand(StArgs(Hour(p.start), Minute(p.start), Hour(p.end), Minute(p.end)));
    DateAndTimeOfDay(p.start);
    DateAndTimeOfDay(p.end);
  }

  /**
   * A window from 18:00 to 09:30 the next morning, an end the awake floor can
   * produce, is sent as `$ST 18 2 9 28`.
   */
  lemma ChargerCommandExample()
    ensures ChargerCommand(Window(18 * MinutesPerHour, MinutesPerDay + AwakeUntil)) == "$ST 18 2 9 28"
  {
    var p := PadWindow(Window(18 * MinutesPerHour, MinutesPerDay + AwakeUntil));
    assert p.start == 1082 && p.end == 2008;
    assert Hour(1082) == 18 && Minute(1082) == 2;
    assert TimeOfDay(2008) == 568;
    assert Hour(2008) == 9 && Minute(2008) == 28;
    assert Dec(18) == Dec(1) + ['8'] == "18";
    assert Dec(28) == Dec(2) + ['8'] == "28";
    assert StCommand(StArgs(18, 2, 9, 28)) == "$ST 18 2 9 28";
  }

  /**
   * For an hourly rate list, the padded window of any widened block is still
   * at least `ChargeHours` hours less the padding long, so it never inverts.
   */
  lemma PaddedWindowOrdered(rates: seq<RatePoint>, lo: nat, hi: nat)
    requires Hourly(rates)
    requires lo + ChargeHours <= hi < |rates|
    ensures var p := PadWindow(Window(rates[lo].time - MinutesPerHour, AwakeFloor(rates[hi].time - MinutesPerHour)));
      p.end - p.start >= ChargeHours * MinutesPerHour - 2 * PadMinutes > 0
  {
    HourlyDistance(rates, lo, hi);
  }

  /**
   * For any list with strictly increasing timestamps, the padded window of a
   * widened block can be empty (start equal to end) but is never inverted.
   */
  lemma PaddedWindowNotInverted(rates: seq<RatePoint>, lo: nat, hi: nat)
    requires Increasing(rates)
    requires lo + ChargeHours <= hi < |rates|
    ensures var p := PadWindow(Window(rates[lo].time - MinutesPerHour, AwakeFloor(rates[hi].time - MinutesPerHour)));
      p.end >= p.start
  {
    IncreasingDistance(rates, lo, hi);
  }
}
