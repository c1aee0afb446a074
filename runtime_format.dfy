/**
 * `formatRuntime(seconds)` of the dashboard's main page: the engine run time as
 * `HH:MM:SS`. The model takes whole, non-negative seconds; other inputs are left out.
 */
module RuntimeFormat {
  import opened Wrappers
  import opened Text
  import opened Panel

  /** Hours, minutes of the hour and seconds of the minute, as the page computes them. */
  function RuntimeFields(seconds: nat): (r: (nat, nat, nat))
    ensures r.0 * 3600 + r.1 * 60 + r.2 == seconds
    ensures r.1 < 60 && r.2 < 60
  {
    ClockDivMod(seconds);
    (seconds / 3600, seconds % 3600 / 60, seconds % 60)
  }

  /** `formatRuntime(seconds)`: each field padded to at least two digits, joined by `:`. */
  function FormatRuntime(seconds: nat): string {
    Hms(RuntimeFields(seconds).0, RuntimeFields(seconds).1, RuntimeFields(seconds).2)
  }

  /** The fields are the clock of the data panel. */
  lemma RuntimeFieldsClock(seconds: nat)
    ensures RuntimeFields(seconds) == Clock(seconds)
  {
    ClockDivMod(seconds);
  }

  /** `formatRuntime` and the data panel's `formatTime` give the same text for every input. */
  lemma RuntimeIsFormatTime(seconds: nat)
    ensures FormatRuntime(seconds) == FormatTime(seconds)
  {
    RuntimeFieldsClock(seconds);
  }

  /**
   * The text is three `:`-separated fields, each at least two characters long (zero
   * padded), which read back as the hours, the minutes and the seconds.
   */
  lemma RuntimeShape(seconds: nat)
    ensures |Split(FormatRuntime(seconds), ':')| == 3
    ensures |Split(FormatRuntime(seconds), ':')[0]| >= 2 && |Split(FormatRuntime(seconds), ':')[1]| >= 2
    ensures |Split(FormatRuntime(seconds), ':')[2]| >= 2
    ensures JsNumber(Split(FormatRuntime(seconds), ':')[0]) == Some(RuntimeFields(seconds).0)
    ensures JsNumber(Split(FormatRuntime(seconds), ':')[1]) == Some(RuntimeFields(seconds).1)
    ensures JsNumber(Split(FormatRuntime(seconds), ':')[2]) == Some(RuntimeFields(seconds).2)
  {
    HmsShape(RuntimeFields(seconds).0, RuntimeFields(seconds).1, RuntimeFields(seconds).2);
  }

  /** The shape of `HH:MM:SS` for any hours, minutes and seconds. */
  lemma HmsShape(h: nat, m: nat, s: nat)
    ensures |Split(Hms(h, m, s), ':')| == 3
    ensures |Split(Hms(h, m, s), ':')[0]| >= 2 && |Split(Hms(h, m, s), ':')[1]| >= 2
    ensures |Split(Hms(h, m, s), ':')[2]| >= 2
    ensures JsNumber(Split(Hms(h, m, s), ':')[0]) == Some(h)
    ensures JsNumber(Split(Hms(h, m, s), ':')[1]) == Some(m)
    ensures JsNumber(Split(Hms(h, m, s), ':')[2]) == Some(s)
  {
    HmsSplit(h, m, s);
    PaddedField(h);
    PaddedField(m);
    PaddedField(s);
    assert |Pad2(h)| >= 2 && |Pad2(m)| >= 2 && |Pad2(s)| >= 2;
  }

  /** Split on `:`, the text of h, m and s is their three padded fields. */
  lemma HmsSplit(h: nat, m: nat, s: nat)
    ensures Split(Hms(h, m, s), ':') == [Pad2(h), Pad2(m), Pad2(s)]
  {
    PaddedField(h);
    PaddedField(m);
    PaddedField(s);
    assert Hms(h, m, s) == Pad2(h) + [':'] + Pad2(m) + [':'] + Pad2(s);
    Split3(Pad2(h), Pad2(m), Pad2(s), ':');
  }

  /** The text reads back, through the data panel's `parseTime`, as the number of seconds. */
  lemma RuntimeParses(seconds: nat)
    ensures ParseTime(FormatRuntime(seconds)) == Some(seconds)
  {
    RuntimeIsFormatTime(seconds);
    FormatParse(seconds);
  }
}
