/**
 * The ESP32 OBD-II client: how it turns the adapter's text replies into numbers
 * (SAE J1979 service $01 PIDs $0C, $0D, $1F, plus the custom `ATALL` reply) and the
 * order in which it sends its start-up commands. The Bluetooth socket is not modelled:
 * a reply is an `Option<string>` handed in by the caller (None when nothing came back).
 */
module Esp32 {
  import opened Wrappers
  import opened Text
  import opened Obd

  /** `response and response.startswith(prefix)`. */
  predicate Answers(response: Option<string>, prefix: string) {
    response.Some? && StartsWith(response.value, prefix)
  }

  /** Tokens 3 and 4 of a reply (A and B), read as hex; None if either is not hex. */
  function DataBytes(data: seq<string>): Option<(int, int)>
    requires |data| >= 4
  {
    match (ParseInt(data[2], 16), ParseInt(data[3], 16))
    case (Some(a), Some(b)) => Some((a, b))
    case _ => None
  }

  /** Whether A and B are both one byte (`00` to `FF`). */
  predicate Bytes(ab: (int, int)) {
    0 <= ab.0 < 256 && 0 <= ab.1 < 256
  }

  /** `request_engine_rpm` after the reply came back: PID $0C, RPM = (256·A + B) / 4. */
  function ParseRpm(response: Option<string>): (r: Option<int>)
    ensures r.None? <==>
      !Answers(response, "41 0C") || |Words(response.value)| < 4 || DataBytes(Words(response.value)).None?
    ensures r.Some? ==>
      var ab := DataBytes(Words(response.value)).value;
      4 * r.value <= 256 * ab.0 + ab.1 < 4 * r.value + 4
  {
    if Answers(response, "41 0C") && |Words(response.value)| >= 4 then
      match DataBytes(Words(response.value))
      case Some(ab) => Some((ab.0 * 256 + ab.1) / 4)
      case None => None
    else None
  }

  /** `request_vehicle_speed` after the reply came back: PID $0D, speed = A km/h. */
  function ParseSpeed(response: Option<string>): (r: Option<int>)
    ensures r.None? <==>
      !Answers(response, "41 0D") || |Words(response.value)| < 3 || ParseInt(Words(response.value)[2], 16).None?
    ensures r.Some? ==> Some(r.value) == ParseInt(Words(response.value)[2], 16)
  {
    if Answers(response, "41 0D") then
      var data := Words(response.value);
      if |data| >= 3 then ParseInt(data[2], 16) else None
    else None
  }

  /** `request_engine_run_time` after the reply came back: PID $1F, seconds = 256·A + B. */
  function ParseRunTime(response: Option<string>): (r: Option<int>)
    ensures r.None? <==>
      !Answers(response, "41 1F") || |Words(response.value)| < 4 || DataBytes(Words(response.value)).None?
    ensures r.Some? ==>
      var ab := DataBytes(Words(response.value)).value;
      r.value - ab.1 == 256 * ab.0
  {
    if Answers(response, "41 1F") && |Words(response.value)| >= 4 then
      match DataBytes(Words(response.value))
      case Some(ab) => Some(ab.0 * 256 + ab.1)
      case None => None
    else None
  }

  /** A `41 0D` reply whose third word is h yields h read as hex. */
  lemma SpeedOfWords(response: string, h: string)
    requires StartsWith(response, "41 0D") && |Words(response)| >= 3 && Words(response)[2] == h
    ensures ParseSpeed(Some(response)) == ParseInt(h, 16)
  {
  }

  /** A `41 0C` reply whose third and fourth words are hex a and b yields (256·a + b) / 4. */
  lemma RpmOfWords(response: string, a: int, b: int)
    requires StartsWith(response, "41 0C") && |Words(response)| >= 4
    requires ParseInt(Words(response)[2], 16) == Some(a) && ParseInt(Words(response)[3], 16) == Some(b)
    ensures ParseRpm(Some(response)) == Some((a * 256 + b) / 4)
  {
    assert DataBytes(Words(response)) == Some((a, b));
  }

  /** A `41 1F` reply whose third and fourth words are hex a and b yields 256·a + b. */
  lemma RunTimeOfWords(response: string, a: int, b: int)
    requires StartsWith(response, "41 1F") && |Words(response)| >= 4
    requires ParseInt(Words(response)[2], 16) == Some(a) && ParseInt(Words(response)[3], 16) == Some(b)
    ensures ParseRunTime(Some(response)) == Some(a * 256 + b)
  {
    assert DataBytes(Words(response)) == Some((a, b));
  }

  /** With one-byte A and B the RPM lies in [0, 16383]. */
  lemma RpmRange(response: Option<string>)
    requires ParseRpm(response).Some? && Bytes(DataBytes(Words(response.value)).value)
    ensures 0 <= ParseRpm(response).value <= 16383
  {
  }

  /** With one-byte A and B the run time lies in [0, 65535]. */
  lemma RunTimeRange(response: Option<string>)
    requires ParseRunTime(response).Some? && Bytes(DataBytes(Words(response.value)).value)
    ensures 0 <= ParseRunTime(response).value <= 65535
  {
  }

  /**
   * One `tag:value` field of an `ATALL` reply. An empty field is a `None` value
   * (`Some(None)`); a field with no `:` or a value that is not an integer raises,
   * which makes the whole request fail (`None`).
   */
  function AllField(part: string): (r: Option<Option<int>>)
    ensures part == "" ==> r == Some(None)
    ensures part != "" ==> (r.Some? <==> |Split(part, ':')| >= 2 && ParseInt(Split(part, ':')[1], 10).Some?)
    ensures part != "" && r.Some? ==> r.value == ParseInt(Split(part, ':')[1], 10)
  {
    if part == "" then Some(None)
    else
      var kv := Split(part, ':');
      if |kv| < 2 then None
      else match ParseInt(kv[1], 10)
        case Some(n) => Some(Some(n))
        case None => None
  }

  /**
   * `request_all_settings` after the reply came back: the reply is split on `,`, the
   * first three fields give rpm, speed and runtime by position (labels are not
   * looked at, later fields are ignored).
   */
  function ParseAll(response: Option<string>): (r: Option<Record>)
    ensures response.None? || response.value == "" ==> r.None?
    ensures r.Some? ==> |Split(response.value, ',')| >= 3
    ensures r.Some? ==>
      var values := Split(response.value, ',');
      Some(r.value.rpm) == AllField(values[0]) && Some(r.value.speed) == AllField(values[1])
      && Some(r.value.runtime) == AllField(values[2])
  {
    if response.None? || response.value == "" then None
    else
      var values := Split(response.value, ',');
      if |values| < 3 then None
      else
        match (AllField(values[0]), AllField(values[1]), AllField(values[2]))
        case (Some(rpm), Some(speed), Some(runtime)) => Some(Record(rpm, speed, runtime))
        case _ => None
  }

  lemma {:induction false} SplitAppend(a: string, b: string, sep: char)
    ensures Split(a + [sep] + b, sep) == Split(a, sep) + Split(b, sep)
    decreases |a|
  {
    var s := a + [sep] + b;
    if |a| == 0 {
      assert s[1..] == b;
    } else {
      var ra, rb := Split(a[1..], sep), Split(b, sep);
      assert Split(s[1..], sep) == ra + rb by {
        assert s[1..] == a[1..] + [sep] + b;
        SplitAppend(a[1..], b, sep);
      }
      assert s[0] == a[0];
      if a[0] == sep {
        assert Split(s, sep) == [""] + (ra + rb);
        assert Split(a, sep) == [""] + ra;
        ConsAppend("", ra, rb);
      } else {
        var h := [a[0]] + ra[0];
        assert Split(s, sep) == [h] + (ra + rb)[1..];
        assert Split(a, sep) == [h] + ra[1..];
        TailAppend(h, ra, rb);
      }
    }
  }

  lemma ConsAppend<T>(h: T, x: seq<T>, y: seq<T>)
    ensures [h] + (x + y) == ([h] + x) + y
  {
  }

  lemma TailAppend<T>(h: T, x: seq<T>, y: seq<T>)
    requires |x| >= 1
    ensures [h] + (x + y)[1..] == ([h] + x[1..]) + y
  {
    assert (x + y)[1..] == x[1..] + y;
  }

  /** Fields after the third do not change what `ATALL` yields. */
  lemma ParseAllIgnoresTail(s: string, tail: string)
    requires |Split(s, ',')| >= 3
    ensures ParseAll(Some(s + [','] + tail)) == ParseAll(Some(s))
  {
    SplitAppend(s, tail, ',');
    var v, w := Split(s, ','), Split(s + [','] + tail, ',');
    assert w[0] == v[0] && w[1] == v[1] && w[2] == v[2];
  }

  /** A `label:n` field yields n whatever the label says. */
  lemma FieldOfShow(tag: string, n: int)
    requires ':' !in tag
    ensures AllField(tag + ":" + Show(n)) == Some(Some(n))
  {
    var part := tag + ":" + Show(n);
    assert part == tag + [':'] + Show(n);
    SplitJoin([tag, Show(n)], ':');
    Join2(tag, Show(n), ':');
    ParseShow(n);
  }

  /** A `label:n` field holds a comma only if its label does. */
  lemma FieldNoComma(tag: string, n: int)
    requires ',' !in tag
    ensures ',' !in tag + ":" + Show(n)
  {
  }

  /** Three comma-free fields joined by `,` yield the record of their values. */
  lemma ParseAllParts(a: string, b: string, c: string, x: Option<int>, y: Option<int>, z: Option<int>)
    requires ',' !in a && ',' !in b && ',' !in c
    requires AllField(a) == Some(x) && AllField(b) == Some(y) && AllField(c) == Some(z)
    ensures ParseAll(Some(Join([a, b, c], ','))) == Some(Record(x, y, z))
  {
    SplitJoin([a, b, c], ',');
    Join3(a, b, c, ',');
  }

  /** The reply `l1:r,l2:s,l3:t` yields the record (r, s, t) for any labels l1, l2, l3. */
  lemma ParseAllOf(l1: string, l2: string, l3: string, rpm: int, speed: int, runtime: int)
    requires ':' !in l1 && ':' !in l2 && ':' !in l3
    requires ',' !in l1 && ',' !in l2 && ',' !in l3
    ensures ParseAll(Some(Join([l1 + ":" + Show(rpm), l2 + ":" + Show(speed), l3 + ":" + Show(runtime)], ',')))
      == Some(Of(rpm, speed, runtime))
  {
    FieldOfShow(l1, rpm);
    FieldOfShow(l2, speed);
    FieldOfShow(l3, runtime);
    FieldNoComma(l1, rpm);
    FieldNoComma(l2, speed);
    FieldNoComma(l3, runtime);
    ParseAllParts(l1 + ":" + Show(rpm), l2 + ":" + Show(speed), l3 + ":" + Show(runtime), Some(rpm), Some(speed), Some(runtime));
  }

  // ---------------------------------------------------------------- init_communication

  /** The start-up commands: reset the adapter, then turn echo off. */
  const InitCommands: seq<string> := ["ATZ", "ATE0"]

  /** Python truthiness of a reply: None and "" are false. */
  predicate Truthy(reply: Option<string>) {
    reply.Some? && reply.value != ""
  }

  /** The reply to the `i`-th command sent; None once the adapter stops answering. */
  function ReplyAt(replies: seq<Option<string>>, i: nat): Option<string> {
    if i < |replies| then replies[i] else None
  }

  /**
   * `init_communication`: sends the commands in order and stops with false at the
   * first one that got no reply. `replies[i]` is what the adapter answers to the
   * i-th command sent; `sent` is the commands actually sent, in order.
   */
  method InitCommunication(replies: seq<Option<string>>) returns (ok: bool, sent: seq<string>)
    ensures 1 <= |sent| <= |InitCommands| && sent == InitCommands[..|sent|]
    ensures forall i :: 0 <= i < |sent| - 1 ==> Truthy(ReplyAt(replies, i))
    ensures ok <==> |sent| == |InitCommands| && Truthy(ReplyAt(replies, |sent| - 1))
    ensures !ok ==> !Truthy(ReplyAt(replies, |sent| - 1))
  {
    sent := [];
    var i := 0;
    while i < |InitCommands|
      invariant 0 <= i <= |InitCommands| && sent == InitCommands[..i]
      invariant forall j :: 0 <= j < i ==> Truthy(ReplyAt(replies, j))
    {
      sent := sent + [InitCommands[i]];
      if !Truthy(ReplyAt(replies, i)) {
        return false, sent;
      }
      i := i + 1;
    }
    return true, sent;
  }
}
