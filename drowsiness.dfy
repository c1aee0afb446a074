/**
 * The yawn alert of the drowsiness page: the mouth state the page keeps from the
 * detection reports, the 5-second gap between alerts, and the 5-second automatic
 * close of the mouth state. The clock (`time.time()`) becomes a parameter `now` in
 * seconds; the detection server's reply becomes the parsed report, None when the
 * report is not valid JSON.
 */
module Drowsiness {
  import opened Wrappers

  /** The `yawn` entry of a report; a missing `count` reads as 0, a missing `report` as false. */
  datatype YawnData = YawnData(count: Option<int>, report: Option<bool>)

  /** A parsed `json_report`: its `yawn` entry, if any. */
  datatype Report = Report(yawn: Option<YawnData>)

  /** The page's state: the mouth, the alert gate, and what the screen shows. */
  datatype PageState = PageState(
    mouthOpen: bool,
    mouthOpenTime: real,
    lastYawnTime: real,
    yawnDetected: bool,
    mouthText: string,
    mouthColor: string,
    background: string)

  const AlertGap: real := 5.0
  const OpenTimeout: real := 5.0
  const NormalBackground := "#807da6"

  /** The mouth status line for a mouth state. */
  function MouthText(open: bool): string {
    "Estado de la boca: " + (if open then "Abierta" else "Cerrada")
  }

  /**
   * The page as `__init__` and `main` leave it: mouth closed, no yawn yet. Neither sets
   * the page's own background; it starts here as `#807da6`, the colour of the page's
   * container and the one an alert's background is restored to.
   */
  const Initial := PageState(false, 0.0, 0.0, false, MouthText(false), "white", NormalBackground)

  /** `yawn_count > 0 or yawn_report`, with the `.get` defaults. */
  predicate YawnSeen(y: YawnData) {
    (y.count.Some? && y.count.value > 0) || (y.report.Some? && y.report.value)
  }

  /** An alert fires: the mouth is open and at least 5 s passed since the last one. */
  predicate Fires(mouthOpen: bool, lastYawnTime: real, now: real) {
    mouthOpen && now - lastYawnTime >= AlertGap
  }

  /** The yawn gate in the video loop, for one reply received at time `now`. */
  function Reported(s: PageState, report: Option<Report>, now: real): PageState {
    if report.None? || report.value.yawn.None? then s
    else
      var open := YawnSeen(report.value.yawn.value);
      var t := if open != s.mouthOpen then s.(mouthOpen := open, mouthText := MouthText(open),
                                                mouthColor := if open then "red" else "white")
               else s.(mouthOpen := open);
      if Fires(open, t.lastYawnTime, now) then
        t.(yawnDetected := true, lastYawnTime := now, background := "red")
      else t
  }

  /** A reply with a yawn entry sets the mouth from it; any other reply changes nothing. */
  lemma ReportedMouth(s: PageState, report: Option<Report>, now: real)
    ensures report.None? || report.value.yawn.None? ==> Reported(s, report, now) == s
    ensures report.Some? && report.value.yawn.Some? ==>
      Reported(s, report, now).mouthOpen == YawnSeen(report.value.yawn.value)
    ensures Reported(s, report, now).mouthText != s.mouthText ==> Reported(s, report, now).mouthOpen != s.mouthOpen
    ensures Reported(s, report, now).mouthOpenTime == s.mouthOpenTime
  {
  }

  /**
   * An alert fires only on an open mouth at least 5 s after the previous one, and
   * then records `now`; otherwise the time of the last alert is kept.
   */
  lemma ReportedAlert(s: PageState, report: Option<Report>, now: real)
    ensures var r := Reported(s, report, now);
      && (r.lastYawnTime != s.lastYawnTime ==> r.mouthOpen && now - s.lastYawnTime >= AlertGap && r.lastYawnTime == now)
      && (report.Some? && report.value.yawn.Some? && Fires(YawnSeen(report.value.yawn.value), s.lastYawnTime, now) ==>
            r.lastYawnTime == now && r.yawnDetected && r.background == "red")
  {
  }

  /** `update_mouth_state(is_open)` at time `now`. */
  function MouthUpdated(s: PageState, isOpen: bool, now: real): PageState {
    var t :=
      if isOpen && !s.mouthOpen then
        s.(mouthOpen := true, mouthOpenTime := now, mouthText := MouthText(true), mouthColor := "red")
      else if !isOpen && s.mouthOpen then
        s.(mouthOpen := false, mouthText := MouthText(false), mouthColor := "green")
      else s;
    if t.mouthOpen && now - t.mouthOpenTime >= OpenTimeout then
      t.(mouthOpen := false, mouthText := MouthText(false), mouthColor := "green")
    else t
  }

  /**
   * Opening records the time only when the mouth was closed; closing always leaves
   * it closed; on return an open mouth was opened less than 5 s ago.
   */
  lemma MouthUpdatedEffect(s: PageState, isOpen: bool, now: real)
    ensures var r := MouthUpdated(s, isOpen, now);
      && (isOpen && !s.mouthOpen ==> r.mouthOpenTime == now)
      && (s.mouthOpen ==> r.mouthOpenTime == s.mouthOpenTime)
      && (!isOpen ==> !r.mouthOpen)
      && (r.mouthOpen ==> now - r.mouthOpenTime < OpenTimeout)
      && (isOpen && !s.mouthOpen ==> r.mouthOpen)
      && r.lastYawnTime == s.lastYawnTime
  {
  }

  /** `reset_mouth_state()`, the 5-second timer's callback. */
  function MouthReset(s: PageState): PageState {
    s.(mouthText := MouthText(false), mouthColor := "white", mouthOpen := false)
  }

  /** The alert timer's `restore_normal()`. */
  function BackgroundRestored(s: PageState): PageState {
    s.(background := NormalBackground)
  }

  /** The status line names the mouth's state. */
  predicate TextShowsMouth(s: PageState) {
    s.mouthText == MouthText(s.mouthOpen)
  }

  lemma MouthTextDiffers()
    ensures MouthText(true) != MouthText(false)
  {
    assert MouthText(true)[19] == 'A';
  }

  /** While the status line names the mouth's state, reading it tells whether the mouth is open. */
  lemma MouthTextTells(s: PageState)
    requires TextShowsMouth(s)
    ensures s.mouthText == MouthText(true) <==> s.mouthOpen
    ensures s.mouthText == MouthText(false) <==> !s.mouthOpen
  {
    MouthTextDiffers();
  }

  /** Every operation keeps the status line in step with the mouth state. */
  lemma TextShowsMouthPreserved(s: PageState, report: Option<Report>, isOpen: bool, now: real)
    requires TextShowsMouth(s)
    ensures TextShowsMouth(Initial)
    ensures TextShowsMouth(Reported(s, report, now))
    ensures TextShowsMouth(MouthUpdated(s, isOpen, now))
    ensures TextShowsMouth(MouthReset(s))
    ensures TextShowsMouth(BackgroundRestored(s))
  {
  }

  // ---------------------------------------------------------------- runs

  /** What can happen to the page: a reply, a mouth update, and the two timer callbacks. */
  datatype Event =
    | Reply(report: Option<Report>, at: real)
    | MouthSeen(isOpen: bool, at: real)
    | MouthTimer
    | AlertTimer

  function Step(s: PageState, e: Event): PageState {
    match e
    case Reply(report, at) => Reported(s, report, at)
    case MouthSeen(isOpen, at) => MouthUpdated(s, isOpen, at)
    case MouthTimer => MouthReset(s)
    case AlertTimer => BackgroundRestored(s)
  }

  function Run(s: PageState, events: seq<Event>): PageState
    decreases |events|
  {
    if |events| == 0 then s else Run(Step(s, events[0]), events[1..])
  }

  /** The alert time one event adds: the new `last_yawn_time` when it moved. */
  function NewAlert(s: PageState, e: Event): seq<real> {
    if Step(s, e).lastYawnTime != s.lastYawnTime then [Step(s, e).lastYawnTime] else []
  }

  /** The times at which an alert fired along a run. */
  function AlertTimes(s: PageState, events: seq<Event>): seq<real>
    decreases |events|
  {
    if |events| == 0 then []
    else NewAlert(s, events[0]) + AlertTimes(Step(s, events[0]), events[1..])
  }

  /** Successive alert times are at least `gap` apart, the first at least `gap` after `from`. */
  predicate Spaced(from: real, times: seq<real>, gap: real) {
    (|times| > 0 ==> times[0] - from >= gap)
    && forall i :: 0 < i < |times| ==> times[i] - times[i - 1] >= gap
  }

  /** Only an alert moves the time of the last alert, and then by at least 5 s. */
  lemma StepAlert(s: PageState, e: Event)
    ensures Step(s, e).lastYawnTime != s.lastYawnTime ==> Step(s, e).lastYawnTime - s.lastYawnTime >= AlertGap
  {
    match e
    case Reply(report, at) => ReportedAlert(s, report, at);
    case MouthSeen(isOpen, at) => MouthUpdatedEffect(s, isOpen, at);
    case MouthTimer =>
    case AlertTimer =>
  }

  lemma SpacedPrepend(from: real, x: real, times: seq<real>, gap: real)
    requires x - from >= gap
    requires Spaced(x, times, gap)
    ensures Spaced(from, [x] + times, gap)
  {
    var all := [x] + times;
    forall i | 0 < i < |all|
      ensures all[i] - all[i - 1] >= gap
    {
      if i > 1 {
        assert all[i] == times[i - 1] && all[i - 1] == times[i - 2];
      }
    }
  }

  /** Along any run, alerts are at least 5 s apart, and the last one is `last_yawn_time`. */
  lemma {:induction false} AlertsSpaced(s: PageState, events: seq<Event>)
    ensures Spaced(s.lastYawnTime, AlertTimes(s, events), AlertGap)
    ensures |AlertTimes(s, events)| > 0 ==> AlertTimes(s, events)[|AlertTimes(s, events)| - 1] == Run(s, events).lastYawnTime
    ensures |AlertTimes(s, events)| == 0 ==> Run(s, events).lastYawnTime == s.lastYawnTime
    decreases |events|
  {
    if |events| > 0 {
      var t := Step(s, events[0]);
      var rest := AlertTimes(t, events[1..]);
      assert AlertTimes(s, events) == NewAlert(s, events[0]) + rest;
      assert Run(s, events) == Run(t, events[1..]);
      StepAlert(s, events[0]);
      AlertsSpaced(t, events[1..]);
      if t.lastYawnTime != s.lastYawnTime {
        SpacedPrepend(s.lastYawnTime, t.lastYawnTime, rest, AlertGap);
      }
    }
  }

  /** The page object: its fields are the state above. */
  class DrowsinessPage {
    var mouthOpen: bool
    var mouthOpenTime: real
    var lastYawnTime: real
    var yawnDetected: bool
    var mouthText: string
    var mouthColor: string
    var background: string

    function Snapshot(): PageState
      reads this
    {
      PageState(mouthOpen, mouthOpenTime, lastYawnTime, yawnDetected, mouthText, mouthColor, background)
    }

    constructor()
      ensures Snapshot() == Initial
    {
      mouthOpen := false;
      mouthOpenTime := 0.0;
      lastYawnTime := 0.0;
      yawnDetected := false;
      mouthText := MouthText(false);
      mouthColor := "white";
      background := NormalBackground;
    }

    /** One reply of the video loop; None is a `json_report` that does not parse. */
    method ProcessReport(report: Option<Report>, now: real)
      modifies this
      ensures Snapshot() == Reported(old(Snapshot()), report, now)
    {
      if report.None? || report.value.yawn.None? {
        return;
      }
      var yawnData := report.value.yawn.value;
      var previousMouthState := mouthOpen;
      mouthOpen := YawnSeen(yawnData);
      if previousMouthState != mouthOpen {
        mouthText := MouthText(mouthOpen);
        mouthColor := if mouthOpen then "red" else "white";
      }
      if mouthOpen && now - lastYawnTime >= AlertGap {
        yawnDetected := true;
        lastYawnTime := now;
        background := "red";
      }
    }

    method UpdateMouthState(isOpen: bool, now: real)
      modifies this
      ensures Snapshot() == MouthUpdated(old(Snapshot()), isOpen, now)
    {
      if isOpen {
        if !mouthOpen {
          mouthOpen := true;
          mouthOpenTime := now;
          mouthText := MouthText(true);
          mouthColor := "red";
        }
      } else {
        if mouthOpen {
          mouthOpen := false;
          mouthText := MouthText(false);
          mouthColor := "green";
        }
      }
      if mouthOpen {
        var elapsedTime := now - mouthOpenTime;
        if elapsedTime >= OpenTimeout {
          mouthOpen := false;
          mouthText := MouthText(false);
          mouthColor := "green";
        }
      }
    }

    method ResetMouthState()
      modifies this
      ensures Snapshot() == MouthReset(old(Snapshot()))
    {
      mouthText := MouthText(false);
      mouthColor := "white";
      mouthOpen := false;
    }

    method RestoreBackground()
      modifies this
      ensures Snapshot() == BackgroundRestored(old(Snapshot()))
    {
      background := NormalBackground;
    }
  }
}
