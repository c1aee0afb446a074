/**
 * The dashboard's data panel: the readings it holds, the thresholds it compares them
 * with, the face mood it picks, and the "persistent fatigue" latch that only a
 * successful reset request clears. The network (`fetch`) becomes parameters: the
 * configuration the server sent (or None when the request failed) and whether the
 * reset request succeeded. The DOM becomes fields: the `exceeded` class of each value
 * element, the texts of the time and fatigue elements and whether the rest button shows.
 *
 * Numbers are exact: a JavaScript number is a `real`, and a reading that the panel
 * stores as text and parses back with `parseFloat` is kept as the number itself.
 */
module Panel {
  import opened Wrappers
  import opened Text
  import opened Face

  // ---------------------------------------------------------------- time of day texts

  /** `String(k).padStart(2, '0')` for k >= 0. */
  function Pad2(k: nat): string {
    PadLeft(Show(k), 2, '0')
  }

  /** Hours, minutes (of the hour) and seconds (of the minute) of a number of seconds. */
  function Clock(seconds: nat): (r: (nat, nat, nat))
    ensures r.0 * 3600 + r.1 * 60 + r.2 == seconds
    ensures r.1 < 60 && r.2 < 60
  {
    var hrs := QuotRem(seconds, 3600).0;
    var mins := QuotRem(QuotRem(seconds, 3600).1, 60).0;
    var secs := QuotRem(seconds, 60).1;
    ClockSum(seconds);
    (hrs, mins, secs)
  }

  lemma ClockSum(seconds: nat)
    ensures QuotRem(seconds, 3600).0 * 3600 + QuotRem(QuotRem(seconds, 3600).1, 60).0 * 60
      + QuotRem(seconds, 60).1 == seconds
    ensures QuotRem(QuotRem(seconds, 3600).1, 60).0 < 60
  {
    var h, r := QuotRem(seconds, 3600).0, QuotRem(seconds, 3600).1;
    var m, s := QuotRem(r, 60).0, QuotRem(r, 60).1;
    Unique(seconds, 60, h * 60 + m, s, QuotRem(seconds, 60).0, QuotRem(seconds, 60).1);
  }

  /** Clock is `Math.floor(s / 3600)`, `Math.floor((s % 3600) / 60)` and `s % 60`. */
  lemma ClockDivMod(seconds: nat)
    ensures Clock(seconds) == (seconds / 3600, seconds % 3600 / 60, seconds % 60)
  {
    QuotRemDivMod(seconds, 3600);
    QuotRemDivMod(seconds % 3600, 60);
    QuotRemDivMod(seconds, 60);
  }

  /** `formatTime(seconds)`: `HH:MM:SS`, each field zero-padded to at least two digits. */
  function FormatTime(seconds: nat): string {
    Hms(Clock(seconds).0, Clock(seconds).1, Clock(seconds).2)
  }

  /** The `HH:MM:SS` text of hours, minutes and seconds. */
  function Hms(h: nat, m: nat, s: nat): string {
    Pad2(h) + ":" + Pad2(m) + ":" + Pad2(s)
  }

  /**
   * The characters JavaScript's `Number` trims from both ends of a text: the
   * WhiteSpace and LineTerminator productions of ECMA-262 (tab, vertical tab, form
   * feed, space, U+00A0, U+FEFF, the Zs space separators, LF, CR, U+2028, U+2029).
   */
  predicate IsJsSpace(c: char) {
    c == '\t' || c == '\U{0B}' || c == '\U{0C}' || c == ' ' || c == '\U{A0}' || c == '\U{FEFF}'
    || c == '\U{1680}' || ('\U{2000}' <= c <= '\U{200A}') || c == '\U{202F}' || c == '\U{205F}'
    || c == '\U{3000}' || c == '\n' || c == '\r' || c == '\U{2028}' || c == '\U{2029}'
  }

  function JsTrimStart(s: string): (r: string)
    ensures r == [] || !IsJsSpace(r[0])
  {
    if |s| > 0 && IsJsSpace(s[0]) then JsTrimStart(s[1..]) else s
  }

  function JsTrimEnd(s: string): (r: string)
    ensures r == [] || !IsJsSpace(r[|r| - 1])
  {
    if |s| > 0 && IsJsSpace(s[|s| - 1]) then JsTrimEnd(s[..|s| - 1]) else s
  }

  /** The text `Number` reads: `text` without its leading and trailing JavaScript white space. */
  function JsTrim(s: string): string {
    JsTrimEnd(JsTrimStart(s))
  }

  /**
   * `Number(text)` for the texts a time field holds: surrounding JavaScript white
   * space is ignored, an empty text is 0, otherwise one optional sign and at least one
   * decimal digit. Every other text is None (NaN) here, including decimals, hex,
   * exponents and `Infinity`, which JavaScript reads as numbers.
   */
  function JsNumber(text: string): Option<int> {
    var t := JsTrim(text);
    var body := Unsigned(t);
    if |t| == 0 then Some(0)
    else if |body| > 0 && AllDigits(body, 10) then
      Some(if IsNegative(t) then -(DigitsValue(body, 10) as int) else DigitsValue(body, 10))
    else None
  }

  /** A text of decimal digits reads as the number it denotes. */
  lemma JsNumberDigits(d: string)
    requires |d| >= 1 && AllDigits(d, 10)
    ensures JsNumber(d) == Some(DigitsValue(d, 10))
  {
    assert DigitValue(d[0]) >= 0 && DigitValue(d[|d| - 1]) >= 0;
    assert JsTrim(d) == d;
    NotSign(d[0]);
  }

  /** White space in front of a text does not change the number `Number` reads from it. */
  lemma JsLeadingSpace(c: char, s: string)
    requires IsJsSpace(c)
    ensures JsNumber([c] + s) == JsNumber(s)
  {
    assert ([c] + s)[1..] == s;
  }

  /**
   * `parseTime(text)`: the text split on `:`, the first three fields read with
   * `Number`; a missing field or one that is not a number makes the result NaN (None).
   */
  function ParseTime(text: string): Option<int> {
    var parts := Split(text, ':');
    if |parts| < 3 then None
    else match (JsNumber(parts[0]), JsNumber(parts[1]), JsNumber(parts[2]))
      case (Some(hrs), Some(mins), Some(secs)) => Some(hrs * 3600 + mins * 60 + secs)
      case _ => None
  }

  lemma PaddedField(k: nat)
    ensures ':' !in Pad2(k) && JsNumber(Pad2(k)) == Some(k)
  {
    ParsePadded(k, 2);
    var d := Digits(k, 10);
    assert Show(k) == d;
    LeadingZeros(|Pad2(k)| - |d|, d, 10);
    JsNumberDigits(Pad2(k));
  }

  lemma ParseFields(a: string, b: string, c: string, x: int, y: int, z: int)
    requires ':' !in a && ':' !in b && ':' !in c
    requires JsNumber(a) == Some(x) && JsNumber(b) == Some(y) && JsNumber(c) == Some(z)
    ensures ParseTime(a + ":" + b + ":" + c) == Some(x * 3600 + y * 60 + z)
  {
    Split3(a, b, c, ':');
  }

  /** `parseTime(formatTime(s)) == s` for every whole number of seconds s >= 0. */
  lemma FormatParse(seconds: nat)
    ensures ParseTime(FormatTime(seconds)) == Some(seconds)
  {
    ClockTotal(seconds);
    HmsParse(Clock(seconds).0, Clock(seconds).1, Clock(seconds).2);
  }

  lemma ClockTotal(seconds: nat)
    ensures Clock(seconds).0 * 3600 + Clock(seconds).1 * 60 + Clock(seconds).2 == seconds
  {
  }

  /** Any hours, minutes and seconds written as `HH:MM:SS` read back as h*3600 + m*60 + s. */
  lemma HmsParse(h: nat, m: nat, s: nat)
    ensures ParseTime(Hms(h, m, s)) == Some(h * 3600 + m * 60 + s)
  {
    PaddedField(h);
    PaddedField(m);
    PaddedField(s);
    ParseFields(Pad2(h), Pad2(m), Pad2(s), h, m, s);
  }

  // ---------------------------------------------------------------- fatigue levels

  const Levels: map<string, int> := map["Unknown" := -1, "Not Tired" := 0, "Tired" := 1, "Heavily Tired" := 2]

  /**
   * `getFatigueLevel(status)`: `levels[status] || -1`. `Tired` is 1 and `Heavily Tired`
   * is 2; every other status is -1, `Not Tired` included, because its 0 is falsy.
   */
  function GetFatigueLevel(status: string): (r: int)
    ensures r == 1 <==> status == "Tired"
    ensures r == 2 <==> status == "Heavily Tired"
    ensures r == 1 || r == 2 || r == -1
  {
    if status in Levels && Levels[status] != 0 then Levels[status] else -1
  }

  lemma NotTiredIsMinusOne()
    ensures GetFatigueLevel("Not Tired") == -1 && GetFatigueLevel("Unknown") == -1
  {
  }

  /** The fatigue reading: a status text, or a number sent as it is. */
  datatype Fatigue = Label(text: string) | Level(level: int)

  /** What `checkExceeded` compares: a text goes through getFatigueLevel, a number is used as it is. */
  function FatigueLevel(f: Fatigue): int {
    match f
    case Label(s) => GetFatigueLevel(s)
    case Level(n) => n
  }

  /** JavaScript truthiness of a fatigue reading. */
  predicate FatigueTruthy(f: Fatigue) {
    match f
    case Label(s) => s != ""
    case Level(n) => n != 0
  }

  /** The text the fatigue element shows for a reading: `Tired` shows as `Cansado`. */
  function FatigueDisplay(f: Fatigue): string {
    if f == Label("Tired") then "Cansado"
    else match f
      case Label(s) => s
      case Level(n) => Show(n)
  }

  // ---------------------------------------------------------------- the panel as a value

  /** `this.data`; `persistent` is false while the server never sent the flag. */
  datatype Data = Data(speed: real, distance: real, time: string, fatigue: Fatigue,
                       persistent: bool, counter: Option<int>)

  datatype Thresholds = Thresholds(speed: real, distance: real, time: string, fatigue: real)

  /** The panel's fields, the DOM state it controls, and the face's look. */
  datatype PanelState = PanelState(data: Data, thresholds: Thresholds, latched: bool, restVisible: bool,
                         timeText: string, fatigueText: string,
                         speedOver: bool, distanceOver: bool, timeOver: bool, fatigueOver: bool,
                         face: Look)

  function InitialData(): Data {
    Data(0.0, 0.0, "00:00:00", Label("Unknown"), false, None)
  }

  function DefaultThresholds(): Thresholds {
    Thresholds(120.0, 500.0, "04:00:00", 1.0)
  }

  /** The panel right after its constructor, before the configuration arrives. */
  function InitialPanel(face: Look): PanelState {
    PanelState(InitialData(), DefaultThresholds(), false, false, "00:00:00", "Unknown",
          false, false, false, false, face)
  }

  /**
   * While latched the face is tired, the rest button shows and the fatigue element
   * reads `Cansado`; while not latched the rest button is hidden.
   */
  predicate LatchShown(p: PanelState) {
    (p.latched ==> p.face.state == Tired && p.restVisible && p.fatigueText == "Cansado")
    && (!p.latched ==> !p.restVisible)
  }

  /** `activatePersistentFatigue()`. */
  function Activated(p: PanelState): (r: PanelState)
    ensures r.latched
    ensures p.latched ==> r == p
    ensures !p.latched ==> r.face.state == Tired && r.restVisible && r.fatigueText == "Cansado"
    ensures r.data == p.data && r.thresholds == p.thresholds
  {
    if p.latched then p
    else p.(latched := true, face := AfterSetTired(p.face, true), restVisible := true, fatigueText := "Cansado")
  }

  /** A second activation changes nothing. */
  lemma ActivateIdempotent(p: PanelState)
    ensures Activated(Activated(p)) == Activated(p)
  {
  }

  /** `clearPersistentFatigue()` given whether the reset request succeeded. */
  function Cleared(p: PanelState, ok: bool): (r: PanelState)
    ensures !ok ==> r == p
    ensures ok ==> !r.latched && !r.restVisible && r.face.state == Normal && r.fatigueText == "Not Tired"
    ensures r.data == p.data && r.thresholds == p.thresholds
  {
    if ok then p.(latched := false, restVisible := false, face := AfterSetNormal(p.face), fatigueText := "Not Tired")
    else p
  }

  /** `currentTimeSeconds > thresholdTimeSeconds`; false when either is NaN. */
  predicate TimeOver(cur: Option<int>, thr: Option<int>) {
    cur.Some? && thr.Some? && cur.value > thr.value
  }

  /** `timePercentage = (currentTimeSeconds / thresholdTimeSeconds) * 100`, for a non-zero threshold. */
  function Percentage(cur: int, thr: int): real
    requires thr != 0
  {
    (cur as real / thr as real) * 100.0
  }

  /**
   * `50 <= timePercentage < 100`, written without the division: for a positive
   * threshold, at least half of it has elapsed and not all of it; for a negative one
   * the orders flip. A zero threshold makes the percentage infinite or NaN, and both
   * fail the test; so does a NaN time.
   */
  predicate TiredWindow(cur: Option<int>, thr: Option<int>) {
    cur.Some? && thr.Some? &&
    if thr.value > 0 then thr.value <= 2 * cur.value && cur.value < thr.value
    else if thr.value < 0 then 2 * cur.value <= thr.value && thr.value < cur.value
    else false
  }

  /** TiredWindow is exactly the page's test on the percentage. */
  lemma TiredWindowPercentage(cur: int, thr: int)
    ensures TiredWindow(Some(cur), Some(thr)) <==> thr != 0 && 50.0 <= Percentage(cur, thr) < 100.0
  {
    if thr != 0 {
      var c, t := cur as real, thr as real;
      assert 50.0 <= Percentage(cur, thr) < 100.0 <==> 0.5 <= c / t && c / t < 1.0;
      assert (2 * cur) as real == 2.0 * c;
      if thr > 0 {
        PositiveWindow(c, t);
      } else {
        NegativeWindow(c, t);
      }
    }
  }

  lemma PositiveWindow(c: real, t: real)
    requires t > 0.0
    ensures (0.5 <= c / t && c / t < 1.0) <==> (t <= 2.0 * c && c < t)
  {
    var q := c / t;
    DivMul(c, t);
    Monotone(0.5, q, t);
    Monotone(q, 1.0, t);
    Bounds(q * t, t, c);
  }

  lemma NegativeWindow(c: real, t: real)
    requires t < 0.0
    ensures (0.5 <= c / t && c / t < 1.0) <==> (2.0 * c <= t && t < c)
  {
    var q := c / t;
    DivMul(c, t);
    Monotone(0.5, q, -t);
    Monotone(q, 1.0, -t);
    assert q * -t == -(q * t);
    NegativeBounds(q * t, q * -t, t, c);
  }

  lemma DivMul(c: real, t: real)
    requires t != 0.0
    ensures (c / t) * t == c
  {
  }

  /** Multiplying both sides by a positive number keeps both orders. */
  lemma Monotone(a: real, b: real, t: real)
    requires t > 0.0
    ensures a <= b <==> a * t <= b * t
    ensures a < b <==> a * t < b * t
  {
    assert b * t - a * t == (b - a) * t;
  }

  /** The same with the orders flipped, for n == -m. */
  lemma NegativeBounds(m: real, n: real, t: real, c: real)
    requires m == c && n == -m
    ensures 0.5 * -t <= n <==> 2.0 * c <= t
    ensures n < 1.0 * -t <==> t < c
  {
  }

  /** The two bounds of the window once the product m is known to be c. */
  lemma Bounds(m: real, t: real, c: real)
    requires m == c
    ensures 0.5 * t <= m <==> t <= 2.0 * c
    ensures m < 1.0 * t <==> c < t
  {
  }

  /** The `exceeded` flags: each a strict comparison of reading and threshold. */
  function Compared(p: PanelState): PanelState
  {
    p.(speedOver := p.data.speed > p.thresholds.speed,
       distanceOver := p.data.distance > p.thresholds.distance,
       timeOver := TimeOver(ParseTime(p.data.time), ParseTime(p.thresholds.time)),
       fatigueOver := FatigueLevel(p.data.fatigue) as real > p.thresholds.fatigue)
  }

  /** Each flag is set exactly when its reading is strictly over the threshold; nothing else moves. */
  lemma ComparedFlags(p: PanelState)
    ensures var r := Compared(p);
      && (r.speedOver <==> p.data.speed > p.thresholds.speed)
      && (r.distanceOver <==> p.data.distance > p.thresholds.distance)
      && (r.timeOver <==> TimeOver(ParseTime(p.data.time), ParseTime(p.thresholds.time)))
      && (r.fatigueOver <==> FatigueLevel(p.data.fatigue) as real > p.thresholds.fatigue)
      && r.(speedOver := p.speedOver, distanceOver := p.distanceOver, timeOver := p.timeOver,
            fatigueOver := p.fatigueOver) == p
  {
  }

  /** Whether a reading from the server switches the latch on: level 2, or the server's flag. */
  predicate LatchRequested(d: Data) {
    FatigueLevel(d.fatigue) == 2 || d.persistent
  }

  /** Whether any reading strictly exceeds its threshold. */
  predicate AnyOver(p: PanelState) {
    p.data.speed > p.thresholds.speed || p.data.distance > p.thresholds.distance
    || TimeOver(ParseTime(p.data.time), ParseTime(p.thresholds.time))
    || FatigueLevel(p.data.fatigue) as real > p.thresholds.fatigue
  }

  /**
   * The face `checkExceeded` picks while not latched: worried when any reading is over
   * its threshold, else tired inside the time window, else normal.
   */
  function MoodFace(p: PanelState): Look {
    if AnyOver(p) then AfterSetWorried(p.face, true)
    else if TiredWindow(ParseTime(p.data.time), ParseTime(p.thresholds.time)) then AfterSetTired(p.face, true)
    else AfterSetNormal(p.face)
  }

  /** `checkExceeded()`. */
  function Checked(p: PanelState): PanelState {
    var q := Compared(p);
    if LatchRequested(p.data) && !p.latched then Activated(q)
    else if !p.latched then q.(face := MoodFace(q))
    else q
  }

  /**
   * Checking the thresholds never changes the readings, the thresholds or the time text;
   * it switches the latch on exactly when a reading asks for it, and once latched it
   * leaves the face, the rest button and the fatigue text alone.
   */
  lemma CheckedKeeps(p: PanelState)
    ensures var r := Checked(p);
      && r.data == p.data && r.thresholds == p.thresholds && r.timeText == p.timeText
      && (r.latched <==> p.latched || LatchRequested(p.data))
      && (p.latched ==> r.face == p.face && r.restVisible == p.restVisible && r.fatigueText == p.fatigueText)
  {
  }

  /**
   * Not latched and no latch requested: the face is worried if any threshold is
   * strictly exceeded, else tired inside the time window, else normal.
   */
  lemma FaceChoice(p: PanelState)
    requires !p.latched && !LatchRequested(p.data)
    ensures Checked(p).face.state ==
      if AnyOver(p) then Worried
      else if TiredWindow(ParseTime(p.data.time), ParseTime(p.thresholds.time)) then Tired
      else Normal
  {
  }

  /** Once latched, checking the thresholds leaves the face, the button and the fatigue text alone. */
  lemma LatchedFaceFrozen(p: PanelState)
    requires p.latched
    ensures Checked(p).face == p.face && Checked(p).latched
  {
  }

  // ---------------------------------------------------------------- updateData and loadConfig

  /** The fields of an update; None where the field is `undefined`. */
  datatype Update = Update(speed: Option<real>, distance: Option<real>, time: Option<string>,
                           fatigue: Option<Fatigue>, persistent: Option<bool>, counter: Option<int>)

  /**
   * The first half of `updateData`: speed is stored whenever it is defined, even 0;
   * distance, time and fatigue only when truthy (so a distance of 0 is dropped); the
   * server's latch flag and counter whenever defined. The time text follows the stored
   * time; the fatigue text follows the reading only while not latched.
   */
  function StoredData(d: Data, u: Update): Data {
    Data(if u.speed.Some? then u.speed.value else d.speed,
         if u.distance.Some? && u.distance.value != 0.0 then u.distance.value else d.distance,
         if TimeSet(u) then u.time.value else d.time,
         if FatigueSet(u) then u.fatigue.value else d.fatigue,
         if u.persistent.Some? then u.persistent.value else d.persistent,
         if u.counter.Some? then u.counter else d.counter)
  }

  /** The update carries a time that is truthy, that is, not empty. */
  predicate TimeSet(u: Update) {
    u.time.Some? && u.time.value != ""
  }

  /** The update carries a truthy fatigue reading. */
  predicate FatigueSet(u: Update) {
    u.fatigue.Some? && FatigueTruthy(u.fatigue.value)
  }

  function Stored(p: PanelState, u: Update): PanelState {
    p.(data := StoredData(p.data, u),
       timeText := if TimeSet(u) then u.time.value else p.timeText,
       fatigueText := if FatigueSet(u) && !p.latched then FatigueDisplay(u.fatigue.value) else p.fatigueText)
  }

  /**
   * What `updateData` stores: a speed of 0 is stored but a distance of 0 is not, an empty
   * time text is ignored, and the fatigue text does not move while latched. The latch,
   * the face, the thresholds and the rest button are untouched.
   */
  lemma StoredFields(p: PanelState, u: Update)
    ensures var r := Stored(p, u);
      && r.data.speed == (if u.speed.Some? then u.speed.value else p.data.speed)
      && r.data.distance == (if u.distance.Some? && u.distance.value != 0.0 then u.distance.value else p.data.distance)
      && r.data.time == (if u.time.Some? && u.time.value != "" then u.time.value else p.data.time)
      && r.data.fatigue == (if u.fatigue.Some? && FatigueTruthy(u.fatigue.value) then u.fatigue.value else p.data.fatigue)
      && r.data.persistent == (if u.persistent.Some? then u.persistent.value else p.data.persistent)
      && r.latched == p.latched && r.face == p.face && r.thresholds == p.thresholds && r.restVisible == p.restVisible
      && (p.latched ==> r.fatigueText == p.fatigueText)
  {
  }

  /** `updateData(newData)`: store, then check the thresholds. */
  function Updated(p: PanelState, u: Update): PanelState {
    Checked(Stored(p, u))
  }

  /** The fields of the server's configuration that the panel reads; the time is in seconds. */
  datatype ApiConfig = ApiConfig(speed: real, distance: real, time: nat, fatigue: real)

  /**
   * `loadConfig()` given the configuration received, or None when the request failed:
   * the four thresholds are replaced, then the readings are checked against them.
   */
  function Configured(p: PanelState, config: Option<ApiConfig>): (r: PanelState)
    ensures config.None? ==> r == p
    ensures config.Some? ==> r.thresholds.speed == config.value.speed && r.thresholds.distance == config.value.distance
    ensures config.Some? ==> r.thresholds.fatigue == config.value.fatigue
    ensures config.Some? ==> ParseTime(r.thresholds.time) == Some(config.value.time)
    ensures config.Some? ==> r == Checked(p.(thresholds := r.thresholds))
  {
    match config
    case None => p
    case Some(c) =>
      var q := p.(thresholds := Thresholds(c.speed, c.distance, FormatTime(c.time), c.fatigue));
      FormatParse(c.time);
      CheckedKeeps(q);
      Checked(q)
  }

  /**
   * Every operation of the panel keeps LatchShown; only a successful reset clears the
   * latch, and nothing but an activation sets it.
   */
  lemma LatchShownPreserved(p: PanelState, u: Update, config: Option<ApiConfig>, ok: bool)
    requires LatchShown(p)
    ensures LatchShown(Activated(p)) && LatchShown(Cleared(p, ok))
    ensures LatchShown(Checked(p)) && LatchShown(Updated(p, u)) && LatchShown(Configured(p, config))
    ensures p.latched ==> Checked(p).latched && Updated(p, u).latched && Configured(p, config).latched
  {
    CheckShown(p);
    UpdateShown(p, u);
    ConfigShown(p, config);
  }

  lemma CheckShown(p: PanelState)
    requires LatchShown(p)
    ensures LatchShown(Checked(p)) && (p.latched ==> Checked(p).latched)
  {
  }

  lemma UpdateShown(p: PanelState, u: Update)
    requires LatchShown(p)
    ensures LatchShown(Updated(p, u)) && (p.latched ==> Updated(p, u).latched)
  {
    var s := Stored(p, u);
    assert LatchShown(s);
    CheckShown(s);
  }

  lemma ConfigShown(p: PanelState, config: Option<ApiConfig>)
    requires LatchShown(p)
    ensures LatchShown(Configured(p, config)) && (p.latched ==> Configured(p, config).latched)
  {
    if config.Some? {
      var c := config.value;
      CheckShown(p.(thresholds := Thresholds(c.speed, c.distance, FormatTime(c.time), c.fatigue)));
    }
  }

  // ---------------------------------------------------------------- the panel object

  class DataPanel {
    const face: FaceDisplay
    var data: Data
    var thresholds: Thresholds
    var latched: bool
    var restVisible: bool
    var timeText: string
    var fatigueText: string
    var speedOver: bool
    var distanceOver: bool
    var timeOver: bool
    var fatigueOver: bool

    function Snapshot(): PanelState
      reads this, face
    {
      PanelState(data, thresholds, latched, restVisible, timeText, fatigueText,
            speedOver, distanceOver, timeOver, fatigueOver, face.Snapshot())
    }

    /** The constructor up to the asynchronous `loadConfig`, which is LoadConfig below. */
    constructor(faceDisplay: FaceDisplay)
      ensures face == faceDisplay && Snapshot() == InitialPanel(faceDisplay.Snapshot())
    {
      face := faceDisplay;
      data := InitialData();
      thresholds := DefaultThresholds();
      latched := false;
      restVisible := false;
      timeText := "00:00:00";
      fatigueText := "Unknown";
      speedOver, distanceOver, timeOver, fatigueOver := false, false, false, false;
    }

    method ActivatePersistentFatigue()
      modifies this, face
      ensures Snapshot() == Activated(old(Snapshot()))
    {
      if latched {
        return;
      }
      latched := true;
      face.SetTired(true);
      restVisible := true;
      fatigueText := "Cansado";
    }

    /** `ok` is whether the reset request came back with `response.ok`. */
    method ClearPersistentFatigue(ok: bool)
      modifies this, face
      ensures Snapshot() == Cleared(old(Snapshot()), ok)
    {
      if ok {
        latched := false;
        restVisible := false;
        face.SetNormal();
        fatigueText := "Not Tired";
      }
    }

    /**
     * The first half of `checkExceeded`: toggle the `exceeded` class of each value. The
     * parsed times and the fatigue level are passed on to the second half.
     */
    method ToggleExceeded() returns (currentTime: Option<int>, thresholdTime: Option<int>, fatigueLevel: int)
      modifies this
      ensures Snapshot() == Compared(old(Snapshot()))
      ensures currentTime == ParseTime(data.time) && thresholdTime == ParseTime(thresholds.time)
      ensures fatigueLevel == FatigueLevel(data.fatigue)
    {
      var currentSpeed := data.speed;
      speedOver := currentSpeed > thresholds.speed;
      var currentDistance := data.distance;
      distanceOver := currentDistance > thresholds.distance;
      currentTime := ParseTime(data.time);
      thresholdTime := ParseTime(thresholds.time);
      timeOver := TimeOver(currentTime, thresholdTime);
      fatigueLevel := FatigueLevel(data.fatigue);
      fatigueOver := fatigueLevel as real > thresholds.fatigue;
    }

    /** The face update of `checkExceeded` when no latch is involved. */
    method UpdateMood(currentTime: Option<int>, thresholdTime: Option<int>, fatigueLevel: int)
      requires currentTime == ParseTime(data.time) && thresholdTime == ParseTime(thresholds.time)
      requires fatigueLevel == FatigueLevel(data.fatigue)
      modifies face
      ensures face.Snapshot() == MoodFace(old(Snapshot()))
    {
      var isExceeded := data.speed > thresholds.speed || data.distance > thresholds.distance
        || TimeOver(currentTime, thresholdTime) || fatigueLevel as real > thresholds.fatigue;
      var isTired := TiredWindow(currentTime, thresholdTime);
      if isExceeded {
        face.SetWorried(true);
      } else if isTired {
        face.SetTired(true);
      } else {
        face.SetNormal();
      }
    }

    method CheckExceeded()
      modifies this, face
      ensures Snapshot() == Checked(old(Snapshot()))
    {
      var currentTime, thresholdTime, fatigueLevel := ToggleExceeded();
      if (fatigueLevel == 2 || data.persistent) && !latched {
        ActivatePersistentFatigue();
        return;
      }
      if !latched {
        UpdateMood(currentTime, thresholdTime, fatigueLevel);
      }
    }

    /** The first half of `updateData`: each field is stored as Stored describes. */
    method Store(u: Update)
      modifies this
      ensures Snapshot() == Stored(old(Snapshot()), u)
    {
      // Each field of `data` is overwritten only when the update carries it: speed and
      // the flags when defined, the rest when truthy (StoredData, StoredFields).
      data := StoredData(data, u);
      if TimeSet(u) {
        timeText := u.time.value;
      }
      if FatigueSet(u) && !latched {
        fatigueText := FatigueDisplay(u.fatigue.value);
      }
    }

    method UpdateData(u: Update)
      modifies this, face
      ensures Snapshot() == Updated(old(Snapshot()), u)
    {
      Store(u);
      CheckExceeded();
    }

    method LoadConfig(config: Option<ApiConfig>)
      modifies this, face
      ensures Snapshot() == Configured(old(Snapshot()), config)
    {
      if config.Some? {
        var c := config.value;
        thresholds := Thresholds(c.speed, c.distance, FormatTime(c.time), c.fatigue);
        assert Snapshot() == old(Snapshot()).(thresholds := thresholds);
        CheckExceeded();
      }
    }
  }
}
