/**
 * The dashboard's configuration page: four threshold inputs with their step buttons,
 * the configuration last received from the server, and the status line.
 *
 * An input's text is kept as the number `parseFloat` reads from it (None when it
 * reads as NaN); `parseInt` of that text is the number truncated toward zero.
 * JavaScript numbers are exact reals. The server becomes parameters: the
 * configuration it answered on load (None when the request failed) and its answer
 * to a save.
 */
module Config {
  import opened Wrappers

  /** The four thresholds, named by their input's id. */
  datatype Field = Speed | Distance | Time | Fatigue

  const Fields: set<Field> := {Speed, Distance, Time, Fatigue}

  // ---------------------------------------------------------------- constraints

  /** `constraints[id].min`; the time input is in hours. */
  function Min(f: Field): real {
    match f
    case Speed => 30.0
    case Distance => 30.0
    case Time => 0.5
    case Fatigue => 0.0
  }

  /** `constraints[id].max`. */
  function Max(f: Field): real {
    match f
    case Speed => 160.0
    case Distance => 1000.0
    case Time => 12.0
    case Fatigue => 2.0
  }

  /** `constraints[id].step`. */
  function Step(f: Field): real {
    match f
    case Speed => 5.0
    case Distance => 10.0
    case Time => 0.5
    case Fatigue => 1.0
  }

  /** `(v - min) / step`, written out per field so that it stays linear. */
  function StepCount(f: Field, v: real): real {
    match f
    case Speed => (v - 30.0) / 5.0
    case Distance => (v - 30.0) / 10.0
    case Time => (v - 0.5) / 0.5
    case Fatigue => v
  }

  /** `min + k * step`, written out per field. */
  function GridValue(f: Field, k: int): real {
    match f
    case Speed => 30.0 + k as real * 5.0
    case Distance => 30.0 + k as real * 10.0
    case Time => 0.5 + k as real * 0.5
    case Fatigue => k as real
  }

  /** The two are the constraint formulas, and inverse to each other. */
  lemma GridFormulas(f: Field, v: real, k: int)
    ensures StepCount(f, v) == (v - Min(f)) / Step(f)
    ensures GridValue(f, k) == Min(f) + k as real * Step(f)
    ensures StepCount(f, GridValue(f, k)) == k as real
    ensures (v - GridValue(f, k)) / Step(f) == StepCount(f, v) - k as real
  {
  }

  /** `v` is `min + k * step` for a whole number `k`. */
  predicate OnGrid(f: Field, v: real) {
    StepCount(f, v).Floor as real == StepCount(f, v)
  }

  /** A whole number. */
  predicate Integral(x: real) {
    x.Floor as real == x
  }

  /** Every range ends on its grid. */
  lemma ConstraintsOnGrid(f: Field)
    ensures 0.0 <= Min(f) < Max(f) && 0.0 < Step(f)
    ensures OnGrid(f, Min(f)) && OnGrid(f, Max(f))
  {
  }

  // ---------------------------------------------------------------- numbers

  /** `Math.round`: the nearest integer, a half rounded up. */
  function Round(x: real): int {
    (x + 0.5).Floor
  }

  /** Math.round(x) is the integer nearest x, a half rounded up. */
  lemma RoundNearest(x: real)
    ensures Round(x) as real - 0.5 <= x < Round(x) as real + 0.5
  {
  }

  /** `parseInt` of a number's text: the number truncated toward zero. */
  function Trunc(x: real): (r: int)
    ensures 0.0 <= x ==> r as real <= x < r as real + 1.0
    ensures x < 0.0 ==> r as real - 1.0 < x <= r as real
  {
    if x >= 0.0 then x.Floor else -((-x).Floor)
  }

  /** What the page reads from an input: `parseFloat` for the hours, `parseInt` for the others. */
  function Read(f: Field, e: Option<real>): Option<real> {
    match e
    case None => None
    case Some(x) => if f == Time then Some(x) else Some(Trunc(x) as real)
  }

  /** `Math.min(Math.max(v, min), max)`. */
  function Clamp(f: Field, v: real): (r: real)
    ensures Min(f) <= r <= Max(f)
    ensures Min(f) <= v <= Max(f) ==> r == v
    ensures v <= Min(f) ==> r == Min(f)
    ensures Max(f) <= v ==> r == Max(f)
  {
    var low := if v > Min(f) then v else Min(f);
    if low < Max(f) then low else Max(f)
  }

  /** `Math.round(v * 10) / 10`. */
  function Tenths(v: real): real {
    Round(v * 10.0) as real / 10.0
  }

  // ---------------------------------------------------------------- adjustValue

  /** The number `adjustValue` writes back into an input that held `e`. */
  function AdjustedValue(f: Field, e: Option<real>, step: real): real {
    var start := if Read(f, e).None? then Min(f) else Read(f, e).value;
    var moved := start + step;
    Clamp(f, if f == Time then Tenths(moved) else moved)
  }

  /** The steps of `adjustValue` for an input that held `e`. */
  method StepValue(f: Field, e: Option<real>, step: real) returns (value: real)
    ensures value == AdjustedValue(f, e, step)
  {
    var read := Read(f, e);
    value := if read.None? then Min(f) else read.value;
    value := value + step;
    if f == Time {
      value := Tenths(value);
    }
    value := Clamp(f, value);
  }

  /**
   * A step button starts from what the input reads (the minimum when it reads as
   * NaN), adds its step, and stops at the limits without wrapping around.
   */
  lemma AdjustStep(f: Field, e: Option<real>, step: real)
    ensures var start := if Read(f, e).None? then Min(f) else Read(f, e).value;
      && Min(f) <= AdjustedValue(f, e, step) <= Max(f)
      && (f != Time && Min(f) <= start + step <= Max(f) ==> AdjustedValue(f, e, step) == start + step)
      && (f == Time && Min(f) <= Tenths(start + step) <= Max(f) ==> AdjustedValue(f, e, step) == Tenths(start + step))
      && (f == Time && Min(f) <= start + step <= Max(f) ==>
            AdjustedValue(f, e, step) - 0.05 <= start + step < AdjustedValue(f, e, step) + 0.05)
      && (start + step <= Min(f) ==> AdjustedValue(f, e, step) == Min(f))
      && (Max(f) <= start + step ==> AdjustedValue(f, e, step) == Max(f))
      && (e.None? ==> AdjustedValue(f, e, step) == AdjustedValue(f, Some(Min(f)), step))
  {
    var start := if Read(f, e).None? then Min(f) else Read(f, e).value;
    if f == Time {
      TenthsBelow(start + step, Min(f));
      TenthsAbove(start + step, Max(f));
      TenthsNearest(start + step);
      TenthsInRange(start + step);
    } else {
      assert Trunc(Min(f)) as real == Min(f);
    }
  }

  /** `Math.round(v * 10) / 10` is within a twentieth of v. */
  lemma TenthsNearest(v: real)
    ensures Tenths(v) - 0.05 <= v < Tenths(v) + 0.05
  {
    RoundNearest(v * 10.0);
  }

  /** A value in [0.5, 12] rounds to tenths inside [0.5, 12]. */
  lemma TenthsInRange(v: real)
    ensures 0.5 <= v <= 12.0 ==> 0.5 <= Tenths(v) <= 12.0
  {
    TenthsBelow(v, 0.5);
    TenthsAbove(v, 12.0);
    if 0.5 <= v <= 12.0 {
      RoundNearest(v * 10.0);
    }
  }

  /** Rounding to tenths keeps a value at or below a limit given in tenths at or below it. */
  lemma TenthsBelow(v: real, limit: real)
    requires limit == 0.5
    ensures v <= limit ==> Tenths(v) <= limit
  {
  }

  lemma TenthsAbove(v: real, limit: real)
    requires limit == 12.0
    ensures limit <= v ==> limit <= Tenths(v)
  {
  }

  // ---------------------------------------------------------------- validateInput

  /** The number `validateInput` writes back into an input that held `e`. */
  function ValidValue(f: Field, e: Option<real>): real {
    match Read(f, e)
    case None => Min(f)
    case Some(v) => Snap(f, v)
  }

  /** A number read from the input: rounded to the nearest step, clamped, hours rounded to tenths. */
  function Snap(f: Field, v: real): real {
    var steps := Round(StepCount(f, v));
    var clamped := Clamp(f, GridValue(f, steps));
    if f == Time then Tenths(clamped) else clamped
  }

  /** The steps of `validateInput` for an input that reads as the number v. */
  method SnapToStep(f: Field, v: real) returns (value: real)
    ensures value == Snap(f, v)
  {
    var steps := Round(StepCount(f, v));
    value := GridValue(f, steps);
    value := Clamp(f, value);
    if f == Time {
      value := Tenths(value);
    }
  }

  /**
   * A validated input holds a point of its grid inside its range: an input that is
   * not a number becomes min, and a number at or past a bound becomes that bound.
   */
  lemma ValidOnGrid(f: Field, e: Option<real>)
    ensures Min(f) <= ValidValue(f, e) <= Max(f)
    ensures OnGrid(f, ValidValue(f, e))
    ensures Read(f, e).None? ==> ValidValue(f, e) == Min(f)
    ensures Read(f, e).Some? && Read(f, e).value <= Min(f) ==> ValidValue(f, e) == Min(f)
    ensures Read(f, e).Some? && Read(f, e).value >= Max(f) ==> ValidValue(f, e) == Max(f)
  {
    match Read(f, e)
    case None =>
      ConstraintsOnGrid(f);
    case Some(v) =>
      var k := Round(StepCount(f, v));
      ConstraintsOnGrid(f);
      GridFormulas(f, v, k);
      RoundNearest(StepCount(f, v));
      SnappedOnGrid(f, k);
  }

  /** Snapping to step k and clamping lands on the grid, where rounding to tenths changes nothing. */
  lemma SnappedOnGrid(f: Field, steps: int)
    ensures OnGrid(f, Clamp(f, GridValue(f, steps)))
    ensures f == Time ==> Tenths(Clamp(f, GridValue(f, steps))) == Clamp(f, GridValue(f, steps))
  {
    GridPoint(f, steps);
    ClampOnGrid(f, GridValue(f, steps));
    if f == Time {
      HalfHourTenths(Clamp(f, GridValue(f, steps)));
    }
  }

  lemma ClampOnGrid(f: Field, v: real)
    requires OnGrid(f, v)
    ensures OnGrid(f, Clamp(f, v))
  {
    ConstraintsOnGrid(f);
  }

  /** `min + k * step` is on the grid. */
  lemma GridPoint(f: Field, k: int)
    ensures OnGrid(f, GridValue(f, k))
  {
    GridFormulas(f, 0.0, k);
  }

  /** Half hours are whole tenths, so `Math.round(v * 10) / 10` keeps them. */
  lemma HalfHourTenths(v: real)
    requires OnGrid(Time, v)
    ensures Tenths(v) == v
  {
    var q := StepCount(Time, v);
    assert q.Floor as real == q;
    var n := 5 + 5 * q.Floor;
    assert v * 10.0 == n as real;
    RoundWhole(n);
  }

  lemma RoundWhole(n: int)
    ensures Round(n as real) == n
  {
  }

  /** An input inside its range snaps to the nearest point of its grid. */
  lemma ValidSnapsNearest(f: Field, e: Option<real>)
    requires Read(f, e).Some? && Min(f) <= Read(f, e).value <= Max(f)
    ensures ValidValue(f, e) - Step(f) / 2.0 <= Read(f, e).value < ValidValue(f, e) + Step(f) / 2.0
  {
    var v := Read(f, e).value;
    var steps := Round(StepCount(f, v));
    RoundNearest(StepCount(f, v));
    SnapNearby(f, v, steps);
    SnappedOnGrid(f, steps);
  }

  /** The grid point k rounded from v lies within half a step of v, inside the range. */
  lemma SnapNearby(f: Field, v: real, steps: int)
    requires Min(f) <= v <= Max(f)
    requires steps as real - 0.5 <= StepCount(f, v) < steps as real + 0.5
    ensures Min(f) <= GridValue(f, steps) <= Max(f)
    ensures GridValue(f, steps) - Step(f) / 2.0 <= v < GridValue(f, steps) + Step(f) / 2.0
  {
    match f
    case Speed =>
    case Distance =>
    case Time =>
    case Fatigue =>
  }

  /** A point of the grid inside the range, whole for the integer fields, is left as it is. */
  lemma ValidFixedPoint(f: Field, v: real)
    requires Min(f) <= v <= Max(f) && OnGrid(f, v)
    ensures ValidValue(f, Some(v)) == v
  {
    var k := StepCount(f, v).Floor;
    GridIndex(f, v);
    if f != Time {
      WholeGrid(f, k);
    }
    assert Read(f, Some(v)) == Some(v);
    RoundWhole(k);
    SnappedOnGrid(f, k);
  }

  /** A point of the grid is `min + k * step` for its step count k. */
  lemma GridIndex(f: Field, v: real)
    requires Min(f) <= v && OnGrid(f, v)
    ensures 0 <= StepCount(f, v).Floor
    ensures v == GridValue(f, StepCount(f, v).Floor)
  {
  }

  /** On the speed, distance and fatigue grids every point is a whole number. */
  lemma WholeGrid(f: Field, k: int)
    requires f != Time
    requires 0 <= k
    ensures Trunc(GridValue(f, k)) as real == GridValue(f, k)
  {
    var n: int := match f case Speed => 30 + 5 * k case Distance => 30 + 10 * k case _ => k;
    assert GridValue(f, k) == n as real;
  }

  /** `validateInput` run twice writes what it wrote the first time. */
  lemma ValidIdempotent(f: Field, e: Option<real>)
    ensures ValidValue(f, Some(ValidValue(f, e))) == ValidValue(f, e)
  {
    ValidOnGrid(f, e);
    ValidFixedPoint(f, ValidValue(f, e));
  }

  // ---------------------------------------------------------------- hours and seconds

  /** `hoursToSeconds`. */
  function HoursToSeconds(hours: real): int {
    Round(hours * 3600.0)
  }

  /** `secondsToHours`. */
  function SecondsToHours(seconds: real): real {
    seconds / 3600.0
  }

  /** The k-th half hour of the time input is 1800·k seconds, and converts back. */
  lemma HalfHourSeconds(k: int)
    requires 1 <= k <= 24
    ensures HoursToSeconds(k as real * 0.5) == 1800 * k
    ensures 1800 <= HoursToSeconds(k as real * 0.5) <= 43200
    ensures SecondsToHours(HoursToSeconds(k as real * 0.5) as real) == k as real * 0.5
  {
    assert k as real * 0.5 * 3600.0 == (1800 * k) as real;
  }

  /** Every valid time input is a multiple of 1800 seconds between 1800 and 43200. */
  lemma ValidTimeSeconds(e: Option<real>)
    ensures HoursToSeconds(ValidValue(Time, e)) % 1800 == 0
    ensures 1800 <= HoursToSeconds(ValidValue(Time, e)) <= 43200
    ensures SecondsToHours(HoursToSeconds(ValidValue(Time, e)) as real) == ValidValue(Time, e)
  {
    var h := ValidValue(Time, e);
    ValidOnGrid(Time, e);
    var k := StepCount(Time, h).Floor;
    assert h == (k + 1) as real * 0.5;
    HalfHourSeconds(k + 1);
  }

  /** A whole number of seconds survives the trip to hours and back. */
  lemma SecondsRoundTrip(seconds: int)
    ensures HoursToSeconds(SecondsToHours(seconds as real)) == seconds
  {
    assert SecondsToHours(seconds as real) * 3600.0 == seconds as real;
  }

  // ---------------------------------------------------------------- page state

  /** The thresholds as the server sends them: km/h, km, seconds and a fatigue level. */
  datatype ServerConfig = ServerConfig(speed: real, distance: real, time: real, fatigue: real)

  /** `defaultConfig`. */
  const DefaultConfig := ServerConfig(120.0, 200.0, 7200.0, 2.0)

  function Threshold(c: ServerConfig, f: Field): real {
    match f
    case Speed => c.speed
    case Distance => c.distance
    case Time => c.time
    case Fatigue => c.fatigue
  }

  /** The four inputs; the time input holds hours. */
  datatype Form = Form(speed: Option<real>, distance: Option<real>, time: Option<real>, fatigue: Option<real>)

  function Entry(form: Form, f: Field): Option<real> {
    match f
    case Speed => form.speed
    case Distance => form.distance
    case Time => form.time
    case Fatigue => form.fatigue
  }

  function WithEntry(form: Form, f: Field, e: Option<real>): (r: Form)
    ensures Entry(r, f) == e
    ensures forall g :: g != f ==> Entry(r, g) == Entry(form, g)
  {
    match f
    case Speed => form.(speed := e)
    case Distance => form.(distance := e)
    case Time => form.(time := e)
    case Fatigue => form.(fatigue := e)
  }

  /**
   * The page: the inputs, the `disabled` flag of each input's minus and plus button
   * once the page has set it, `currentConfig`, and the status line's text and error
   * class.
   */
  datatype Page = Page(
    form: Form,
    minusDisabled: map<Field, bool>,
    plusDisabled: map<Field, bool>,
    current: ServerConfig,
    status: string,
    statusError: bool)

  /** The page as the script finds it, before `loadConfig` answers. */
  function InitialPage(form: Form): Page {
    Page(form, map[], map[], DefaultConfig, "", false)
  }

  /** `adjustValue(input, step)`. */
  function Adjusted(p: Page, f: Field, step: real): Page {
    var v := AdjustedValue(f, Entry(p.form, f), step);
    p.(form := WithEntry(p.form, f, Some(v)),
       minusDisabled := p.minusDisabled[f := v <= Min(f)],
       plusDisabled := p.plusDisabled[f := v >= Max(f)])
  }

  /** After a step button: the input is in range, minus is disabled iff it is at the minimum and plus iff at the maximum. */
  lemma AdjustedButtons(p: Page, f: Field, step: real)
    ensures var q := Adjusted(p, f, step);
      && Entry(q.form, f).Some?
      && Min(f) <= Entry(q.form, f).value <= Max(f)
      && f in q.minusDisabled && (q.minusDisabled[f] <==> Entry(q.form, f).value == Min(f))
      && f in q.plusDisabled && (q.plusDisabled[f] <==> Entry(q.form, f).value == Max(f))
      && (forall g :: g != f ==> Entry(q.form, g) == Entry(p.form, g))
      && q.current == p.current && q.status == p.status
  {
    AdjustStep(f, Entry(p.form, f), step);
  }

  /** `validateInput(input)`. */
  function Validated(p: Page, f: Field): Page {
    p.(form := WithEntry(p.form, f, Some(ValidValue(f, Entry(p.form, f)))))
  }

  /** The value `getChangedValues` takes from an input: hours become seconds. */
  function NewValue(form: Form, f: Field): Option<real> {
    if f == Time then
      match form.time
      case None => None
      case Some(h) => Some(HoursToSeconds(h) as real)
    else Read(f, Entry(form, f))
  }

  /** Input f reads as a number other than the current threshold. */
  predicate Changed(form: Form, current: ServerConfig, f: Field) {
    NewValue(form, f).Some? && NewValue(form, f).value != Threshold(current, f)
  }

  /** The inputs that read as a number other than the current threshold, with that number. */
  function ChangedValues(form: Form, current: ServerConfig): map<Field, real> {
    map f | f in Fields && Changed(form, current, f) :: NewValue(form, f).value
  }

  /** A map that holds exactly the changed inputs, with their numbers, is `ChangedValues`. */
  lemma ChangedKeys(form: Form, current: ServerConfig, m: map<Field, real>)
    requires forall f :: f in m <==> Changed(form, current, f)
    requires forall f :: f in m ==> Changed(form, current, f) && m[f] == NewValue(form, f).value
    ensures m == ChangedValues(form, current)
  {
    forall f
      ensures f in m <==> f in ChangedValues(form, current)
    {
      match f
      case Speed =>
      case Distance =>
      case Time =>
      case Fatigue =>
    }
  }

  /** `loadConfig()` with the server's answer, None when the request or its JSON failed. */
  function Loaded(p: Page, reply: Option<ServerConfig>): Page {
    match reply
    case None => p.(status := "Failed to load configuration", statusError := true)
    case Some(c) =>
      p.(current := c,
         form := Form(Some(c.speed), Some(c.distance), Some(SecondsToHours(c.time)), Some(c.fatigue)))
  }

  /** Right after a load of whole-number thresholds, saving finds nothing to send. */
  lemma LoadedUnchanged(p: Page, c: ServerConfig)
    requires Integral(c.speed) && Integral(c.distance) && Integral(c.time) && Integral(c.fatigue)
    ensures ChangedValues(Loaded(p, Some(c)).form, c) == map[]
  {
    var form := Loaded(p, Some(c)).form;
    SecondsRoundTrip(c.time.Floor);
    forall f | f in Fields
      ensures NewValue(form, f) == Some(Threshold(c, f))
    {
      IntegralTrunc(Threshold(c, f));
    }
  }

  lemma IntegralTrunc(x: real)
    requires Integral(x)
    ensures Trunc(x) as real == x
  {
    var n := x.Floor;
    if x < 0.0 {
      assert -x == (-n) as real;
      assert (-x).Floor == -n;
    }
  }

  /** `resetConfig()`: the inputs show the default thresholds; nothing is sent. */
  function Reset(p: Page): Page {
    p.(form := Form(Some(DefaultConfig.speed), Some(DefaultConfig.distance),
                    Some(SecondsToHours(DefaultConfig.time)), Some(DefaultConfig.fatigue)))
  }

  /**
   * The reset inputs show 120, 200, 2 hours and 2, and read back as the default
   * thresholds: saving then sends exactly the thresholds that differ from the defaults.
   */
  lemma ResetDefaults(p: Page)
    ensures Reset(p).form == Form(Some(120.0), Some(200.0), Some(2.0), Some(2.0))
    ensures forall f :: NewValue(Reset(p).form, f) == Some(Threshold(DefaultConfig, f))
    ensures ChangedValues(Reset(p).form, DefaultConfig) == map[]
    ensures Reset(p).current == p.current
  {
    SecondsRoundTrip(7200);
  }

  /** The server's answer to a save request. */
  datatype SaveReply =
    | Unreachable                 // the request or its JSON failed
    | Accepted(config: ServerConfig)
    | Refused(error: string)      // `result.error`, "" when absent

  /** `saveConfig()`: the new page, and the body it sends (None when it sends nothing). */
  function Saved(p: Page, reply: SaveReply): (Page, Option<map<Field, real>>) {
    var changes := ChangedValues(p.form, p.current);
    if |changes| == 0 then
      (p.(status := "No changes to save", statusError := false), None)
    else
      match reply
      case Unreachable =>
        (p.(status := "Failed to save configuration", statusError := true), Some(changes))
      case Accepted(c) =>
        (p.(current := c, status := "Configuration saved successfully", statusError := false), Some(changes))
      case Refused(error) =>
        (p.(status := if |error| == 0 then "Failed to save configuration" else error, statusError := true),
         Some(changes))
  }

  /**
   * A save sends a request iff some input differs from the current thresholds, and
   * then sends exactly the changed ones; it never touches the inputs, and only an
   * accepted save replaces the current thresholds.
   */
  lemma SaveGuard(p: Page, reply: SaveReply)
    ensures Saved(p, reply).1.None? <==> ChangedValues(p.form, p.current) == map[]
    ensures Saved(p, reply).1.Some? ==> Saved(p, reply).1.value == ChangedValues(p.form, p.current)
    ensures Saved(p, reply).0.form == p.form
    ensures Saved(p, reply).0.current == if Saved(p, reply).1.Some? && reply.Accepted? then reply.config else p.current
  {
    var changes := ChangedValues(p.form, p.current);
    if |changes| == 0 {
      assert changes == map[];
    }
  }

  // ---------------------------------------------------------------- the page object

  class ConfigPage {
    var form: Form
    var minusDisabled: map<Field, bool>
    var plusDisabled: map<Field, bool>
    var current: ServerConfig
    var status: string
    var statusError: bool

    function Snapshot(): Page
      reads this
    {
      Page(form, minusDisabled, plusDisabled, current, status, statusError)
    }

    /** The page with the inputs as the HTML sets them and `currentConfig` at its default. */
    constructor(initial: Form)
      ensures Snapshot() == InitialPage(initial)
    {
      form := initial;
      minusDisabled := map[];
      plusDisabled := map[];
      current := DefaultConfig;
      status := "";
      statusError := false;
    }

    method AdjustValue(f: Field, step: real)
      modifies this
      ensures Snapshot() == Adjusted(old(Snapshot()), f, step)
    {
      var value := StepValue(f, Entry(form, f), step);
      form := WithEntry(form, f, Some(value));
      minusDisabled := minusDisabled[f := value <= Min(f)];
      plusDisabled := plusDisabled[f := value >= Max(f)];
    }

    method ValidateInput(f: Field)
      modifies this
      ensures Snapshot() == Validated(old(Snapshot()), f)
    {
      var read := Read(f, Entry(form, f));
      var value := Min(f);
      if read.Some? {
        value := SnapToStep(f, read.value);
      }
      form := WithEntry(form, f, Some(value));
    }

    method LoadConfig(reply: Option<ServerConfig>)
      modifies this
      ensures Snapshot() == Loaded(old(Snapshot()), reply)
    {
      if reply.Some? {
        var config := reply.value;
        current := config;
        form := Form(Some(config.speed), Some(config.distance), Some(SecondsToHours(config.time)), Some(config.fatigue));
      } else {
        status := "Failed to load configuration";
        statusError := true;
      }
    }

    /** The changed thresholds, collected one input at a time. */
    method GetChangedValues() returns (changes: map<Field, real>)
      ensures changes == ChangedValues(form, current)
    {
      changes := map[];
      var newSpeed := Read(Speed, form.speed);
      if newSpeed.Some? && newSpeed.value != current.speed {
        changes := changes[Speed := newSpeed.value];
      }
      var newDistance := Read(Distance, form.distance);
      if newDistance.Some? && newDistance.value != current.distance {
        changes := changes[Distance := newDistance.value];
      }
      var newTime := if form.time.Some? then Some(HoursToSeconds(form.time.value) as real) else None;
      if newTime.Some? && newTime.value != current.time {
        changes := changes[Time := newTime.value];
      }
      var newFatigue := Read(Fatigue, form.fatigue);
      if newFatigue.Some? && newFatigue.value != current.fatigue {
        changes := changes[Fatigue := newFatigue.value];
      }
      ChangedKeys(form, current, changes);
    }

    method SaveConfig(reply: SaveReply) returns (sent: Option<map<Field, real>>)
      modifies this
      ensures (Snapshot(), sent) == Saved(old(Snapshot()), reply)
    {
      var changes := GetChangedValues();
      if |changes| == 0 {
        status := "No changes to save";
        statusError := false;
        return None;
      }
      sent := Some(changes);
      match reply
      case Unreachable =>
        status := "Failed to save configuration";
        statusError := true;
      case Accepted(config) =>
        current := config;
        status := "Configuration saved successfully";
        statusError := false;
      case Refused(error) =>
        status := if |error| == 0 then "Failed to save configuration" else error;
        statusError := true;
    }

    method ResetConfig()
      modifies this
      ensures Snapshot() == Reset(old(Snapshot()))
    {
      form := Form(Some(DefaultConfig.speed), Some(DefaultConfig.distance),
                   Some(SecondsToHours(DefaultConfig.time)), Some(DefaultConfig.fatigue));
    }
  }
}
