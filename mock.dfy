/**
 * The mock vehicle: connection flags, three simulated readings moved by a clamped
 * random walk once a second, and replies in the same text format a real adapter
 * sends. The random draws are the parameters of a tick; the scheduling is not modelled.
 */
module Mock {
  import opened Wrappers
  import opened Text
  import opened Obd
  import Esp32

  /** The simulator's fields, as a value. */
  datatype MockState = MockState(connected: bool, initialized: bool, rpm: int, speed: int, runtime: int)

  const RpmMin: int := 800
  const RpmMax: int := 6000
  const SpeedMax: int := 120

  /** The state a new simulator starts in. */
  function Initial(): MockState {
    MockState(false, false, 1000, 0, 0)
  }

  /** The bounds the simulated readings keep. */
  predicate Inv(s: MockState) {
    RpmMin <= s.rpm <= RpmMax && 0 <= s.speed <= SpeedMax && s.runtime >= 0
  }

  /** Connected and initialised: the state in which ticks and commands do anything. */
  predicate Active(s: MockState) {
    s.connected && s.initialized
  }

  /** The range of the random draws: `randint(-200, 200)` and `randint(-5, 5)`. */
  predicate Draws(dRpm: int, dSpeed: int) {
    -200 <= dRpm <= 200 && -5 <= dSpeed <= 5
  }

  /** `max(lo, min(hi, x))`. */
  function Clamp(x: int, lo: int, hi: int): (r: int)
    requires lo <= hi
    ensures lo <= r <= hi
    ensures lo <= x <= hi ==> r == x
    ensures x < lo ==> r == lo
    ensures x > hi ==> r == hi
  {
    if x < lo then lo else if x > hi then hi else x
  }

  /** One pass of the update loop with the given random draws. */
  function Tick(s: MockState, dRpm: int, dSpeed: int): MockState {
    if Active(s) then
      s.(rpm := Clamp(s.rpm + dRpm, RpmMin, RpmMax),
         speed := Clamp(s.speed + dSpeed, 0, SpeedMax),
         runtime := s.runtime + 1)
    else s
  }

  lemma InitialInv()
    ensures Inv(Initial()) && !Initial().connected && !Initial().initialized
  {
  }

  /** A tick keeps the readings in bounds, whatever the draws. */
  lemma TickInv(s: MockState, dRpm: int, dSpeed: int)
    requires Inv(s)
    ensures Inv(Tick(s, dRpm, dSpeed))
  {
  }

  /** An inactive tick changes nothing; an active one moves each reading by at most its draw and adds one second. */
  lemma TickEffect(s: MockState, dRpm: int, dSpeed: int)
    requires Inv(s) && Draws(dRpm, dSpeed)
    ensures Tick(s, dRpm, dSpeed).connected == s.connected
    ensures Tick(s, dRpm, dSpeed).initialized == s.initialized
    ensures !Active(s) ==> Tick(s, dRpm, dSpeed) == s
    ensures Active(s) ==> Tick(s, dRpm, dSpeed).runtime == s.runtime + 1
    ensures Active(s) ==> -200 <= Tick(s, dRpm, dSpeed).rpm - s.rpm <= 200
    ensures Active(s) ==> -5 <= Tick(s, dRpm, dSpeed).speed - s.speed <= 5
  {
  }

  /** The state after running the update loop once per pair of draws, in order. */
  function Run(s: MockState, draws: seq<(int, int)>): MockState
    decreases |draws|
  {
    if draws == [] then s else Run(Tick(s, draws[0].0, draws[0].1), draws[1..])
  }

  /** Across any number of ticks: 800 <= rpm <= 6000 and 0 <= speed <= 120. */
  lemma {:induction false} RunInv(s: MockState, draws: seq<(int, int)>)
    requires Inv(s)
    ensures Inv(Run(s, draws))
    decreases |draws|
  {
    if draws != [] {
      TickInv(s, draws[0].0, draws[0].1);
      RunInv(Tick(s, draws[0].0, draws[0].1), draws[1..]);
    }
  }

  /**
   * Ticks never touch the flags; the run time never decreases, grows by exactly
   * one per tick while active and stays put while not.
   */
  lemma {:induction false} RunRuntime(s: MockState, draws: seq<(int, int)>)
    ensures Run(s, draws).connected == s.connected && Run(s, draws).initialized == s.initialized
    ensures Run(s, draws).runtime == s.runtime + (if Active(s) then |draws| else 0)
    ensures Run(s, draws).runtime >= s.runtime
    decreases |draws|
  {
    if draws != [] {
      RunRuntime(Tick(s, draws[0].0, draws[0].1), draws[1..]);
    }
  }

  // ---------------------------------------------------------------- send_command

  /** The commands the mock answers. */
  predicate Known(command: string) {
    command == "010C" || command == "010D" || command == "011F" || command == "ATALL"
  }

  /** `RPM:r,SPEED:s,RUNTIME:t`. */
  function AllReply(rpm: int, speed: int, runtime: int): string {
    "RPM:" + Show(rpm) + ",SPEED:" + Show(speed) + ",RUNTIME:" + Show(runtime)
  }

  /** `send_command(command)`: None unless active and the command is known. */
  function Reply(s: MockState, command: string): (r: Option<string>)
    requires Inv(s)
    ensures r.Some? <==> Active(s) && Known(command)
  {
    if !Active(s) then None
    else if command == "010C" then Some("41 0C " + HexPadded(s.rpm / 4, 4))
    else if command == "010D" then Some("41 0D " + HexPadded(s.speed, 2))
    else if command == "011F" then Some("41 1F " + HexPadded(s.runtime, 4))
    else if command == "ATALL" then Some(AllReply(s.rpm, s.speed, s.runtime))
    else None
  }

  /** A reply `41 <pid> <h>` is the three words `41`, pid and h. */
  lemma ThreeTokens(pid: string, h: string)
    requires |pid| == 2 && NoSpace(pid) && |h| >= 1 && NoSpace(h)
    ensures Words("41 " + pid + " " + h) == ["41", pid, h]
    ensures StartsWith("41 " + pid + " " + h, "41 " + pid)
  {
    assert "41 " == "41" + " ";
    Words3("41", pid, h);
    StartsWithConcat("41 " + pid, " ");
    StartsWithExtend("41 " + pid + " ", "41 " + pid, h);
  }

  lemma HexToken(n: nat, width: nat)
    ensures |HexPadded(n, width)| >= 1 && NoSpace(HexPadded(n, width))
    ensures ParseInt(HexPadded(n, width), 16) == Some(n)
  {
    DigitsClean(HexPadded(n, width), 16);
    ParseHexPadded(n, width);
  }

  /** `41 0D <h>` yields h read as hex. */
  lemma OneTokenSpeed(h: string)
    requires |h| >= 1 && NoSpace(h)
    ensures Esp32.ParseSpeed(Some("41 0D " + h)) == ParseInt(h, 16)
  {
    assert "41 0D " == "41 " + "0D" + " ";
    ThreeTokens("0D", h);
    assert "41 " + "0D" == "41 0D";
    Esp32.SpeedOfWords("41 0D " + h, h);
  }

  /** `41 0C <h>` has three words where the client wants four. */
  lemma OneTokenRpm(h: string)
    requires |h| >= 1 && NoSpace(h)
    ensures Esp32.ParseRpm(Some("41 0C " + h)) == None
  {
    assert "41 0C " == "41 " + "0C" + " ";
    ThreeTokens("0C", h);
  }

  /** `41 1F <h>` has three words where the client wants four. */
  lemma OneTokenRunTime(h: string)
    requires |h| >= 1 && NoSpace(h)
    ensures Esp32.ParseRunTime(Some("41 1F " + h)) == None
  {
    assert "41 1F " == "41 " + "1F" + " ";
    ThreeTokens("1F", h);
  }

  /** The speed reply parses back to the speed. */
  lemma SpeedRoundTrip(s: MockState)
    requires Inv(s) && Active(s)
    ensures Esp32.ParseSpeed(Reply(s, "010D")) == Some(s.speed)
  {
    HexToken(s.speed, 2);
    OneTokenSpeed(HexPadded(s.speed, 2));
  }

  /** The RPM reply carries one data token where the client wants two: the client rejects it. */
  lemma RpmRejected(s: MockState)
    requires Inv(s) && Active(s)
    ensures Esp32.ParseRpm(Reply(s, "010C")) == None
  {
    HexToken(s.rpm / 4, 4);
    OneTokenRpm(HexPadded(s.rpm / 4, 4));
  }

  /** The run-time reply carries one data token where the client wants two: the client rejects it. */
  lemma RunTimeRejected(s: MockState)
    requires Inv(s) && Active(s)
    ensures Esp32.ParseRunTime(Reply(s, "011F")) == None
  {
    HexToken(s.runtime, 4);
    OneTokenRunTime(HexPadded(s.runtime, 4));
  }

  lemma AllReplyJoin(rpm: int, speed: int, runtime: int)
    ensures AllReply(rpm, speed, runtime)
      == Join(["RPM:" + Show(rpm), "SPEED:" + Show(speed), "RUNTIME:" + Show(runtime)], ',')
  {
    var x, y, z := Show(rpm), Show(speed), Show(runtime);
    assert ",SPEED:" == [','] + "SPEED:";
    assert ",RUNTIME:" == [','] + "RUNTIME:";
    Regroup3("RPM:", x, "SPEED:", y, "RUNTIME:", z, ',');
    Join3("RPM:" + x, "SPEED:" + y, "RUNTIME:" + z, ',');
  }

  /** The `ATALL` reply parses back to (rpm, speed, runtime). */
  lemma AllRoundTrip(s: MockState)
    requires Inv(s) && Active(s)
    ensures Esp32.ParseAll(Reply(s, "ATALL")) == Some(Of(s.rpm, s.speed, s.runtime))
  {
    AllReplyJoin(s.rpm, s.speed, s.runtime);
    assert "RPM" + ":" == "RPM:" && "SPEED" + ":" == "SPEED:" && "RUNTIME" + ":" == "RUNTIME:";
    Esp32.ParseAllOf("RPM", "SPEED", "RUNTIME", s.rpm, s.speed, s.runtime);
  }

  // ---------------------------------------------------------------- corrected encoders

  /** A SAE J1979 two-byte reply `41 <pid> A B` carrying `raw` = 256·A + B, each byte as two hex digits. */
  function TwoByteReply(pid: string, raw: nat): string {
    var ab := QuotRem(raw, 256);
    FourWordReply(pid, HexPadded(ab.0, 2), HexPadded(ab.1, 2))
  }

  /** The reply `41 <pid> <a> <b>`. */
  function FourWordReply(pid: string, a: string, b: string): string {
    "41 " + pid + " " + a + " " + b
  }

  /** `send_command` with the $0C and $1F replies encoded as J1979 defines them. */
  function CorrectedReply(s: MockState, command: string): (r: Option<string>)
    requires Inv(s)
    ensures r.Some? <==> Active(s) && Known(command)
  {
    if !Active(s) then None
    else if command == "010C" then Some(TwoByteReply("0C", s.rpm * 4))
    else if command == "011F" then Some(TwoByteReply("1F", s.runtime))
    else Reply(s, command)
  }

  /** A reply `41 <pid> <a> <b>` is the four words `41`, pid, a and b. */
  lemma FourTokens(pid: string, a: string, b: string)
    requires |pid| == 2 && NoSpace(pid) && |a| >= 1 && NoSpace(a) && |b| >= 1 && NoSpace(b)
    ensures Words(FourWordReply(pid, a, b)) == ["41", pid, a, b]
    ensures StartsWith(FourWordReply(pid, a, b), "41 " + pid)
  {
    assert "41 " == "41" + " ";
    Words4("41", pid, a, b);
    var p := "41 " + pid;
    StartsWithConcat(p, " ");
    StartsWithExtend(p + " ", p, a);
    StartsWithExtend(p + " " + a, p, " ");
    StartsWithExtend(p + " " + a + " ", p, b);
  }

  lemma TwoTokenRpm(a: string, b: string, x: int, y: int)
    requires |a| >= 1 && NoSpace(a) && |b| >= 1 && NoSpace(b)
    requires ParseInt(a, 16) == Some(x) && ParseInt(b, 16) == Some(y)
    ensures Esp32.ParseRpm(Some(FourWordReply("0C", a, b))) == Some((x * 256 + y) / 4)
  {
    FourTokens("0C", a, b);
    assert "41 " + "0C" == "41 0C";
    Esp32.RpmOfWords(FourWordReply("0C", a, b), x, y);
  }

  lemma TwoTokenRunTime(a: string, b: string, x: int, y: int)
    requires |a| >= 1 && NoSpace(a) && |b| >= 1 && NoSpace(b)
    requires ParseInt(a, 16) == Some(x) && ParseInt(b, 16) == Some(y)
    ensures Esp32.ParseRunTime(Some(FourWordReply("1F", a, b))) == Some(x * 256 + y)
  {
    FourTokens("1F", a, b);
    assert "41 " + "1F" == "41 1F";
    Esp32.RunTimeOfWords(FourWordReply("1F", a, b), x, y);
  }

  /** The two-byte RPM reply carrying raw yields raw / 4. */
  lemma TwoByteRpm(raw: nat)
    ensures Esp32.ParseRpm(Some(TwoByteReply("0C", raw))) == Some(raw / 4)
  {
    var ab := QuotRem(raw, 256);
    HexToken(ab.0, 2);
    HexToken(ab.1, 2);
    TwoTokenRpm(HexPadded(ab.0, 2), HexPadded(ab.1, 2), ab.0, ab.1);
  }

  /** The two-byte run-time reply carrying raw yields raw. */
  lemma CorrectedRunTime(raw: nat)
    ensures Esp32.ParseRunTime(Some(TwoByteReply("1F", raw))) == Some(raw)
  {
    var ab := QuotRem(raw, 256);
    HexToken(ab.0, 2);
    HexToken(ab.1, 2);
    TwoTokenRunTime(HexPadded(ab.0, 2), HexPadded(ab.1, 2), ab.0, ab.1);
  }

  lemma Quarter(n: int)
    ensures n * 4 / 4 == n
  {
  }

  /** The two-byte RPM reply carrying 4·rpm yields rpm. */
  lemma CorrectedRpm(rpm: nat)
    ensures Esp32.ParseRpm(Some(TwoByteReply("0C", rpm * 4))) == Some(rpm)
  {
    TwoByteRpm(rpm * 4);
    Quarter(rpm);
  }

  /** The corrected encoder answers $0C with RPM·4 in two bytes, which the client reads back as the RPM. */
  lemma CorrectedRpmReply(s: MockState)
    requires Inv(s) && Active(s)
    ensures CorrectedReply(s, "010C") == Some(TwoByteReply("0C", s.rpm * 4)) && 0 <= s.rpm * 4 < 65536
    ensures Esp32.ParseRpm(CorrectedReply(s, "010C")) == Some(s.rpm)
  {
    CorrectedRpm(s.rpm);
  }

  /** The corrected encoder answers $1F with the run time in two bytes, which the client reads back. */
  lemma CorrectedRunTimeReply(s: MockState)
    requires Inv(s) && Active(s)
    ensures Esp32.ParseRunTime(CorrectedReply(s, "011F")) == Some(s.runtime)
  {
    CorrectedRunTime(s.runtime);
  }

  /** Every other command gets the same reply from the corrected encoder as from the original. */
  lemma CorrectedElsewhere(s: MockState, command: string)
    requires Inv(s) && command != "010C" && command != "011F"
    ensures CorrectedReply(s, command) == Reply(s, command)
  {
  }

  // ---------------------------------------------------------------- the simulator object

  class MockSimulator {
    var connected: bool
    var initialized: bool
    var rpm: int
    var speed: int
    var runtime: int

    function State(): MockState
      reads this
    {
      MockState(connected, initialized, rpm, speed, runtime)
    }

    constructor ()
      ensures State() == Initial() && Inv(State())
    {
      connected := false;
      initialized := false;
      rpm := 1000;
      speed := 0;
      runtime := 0;
    }

    /** One pass of `_update_mock_values`, with the random draws given. */
    method UpdateMockValues(dRpm: int, dSpeed: int)
      requires Inv(State())
      modifies this
      ensures State() == Tick(old(State()), dRpm, dSpeed) && Inv(State())
    {
      if connected && initialized {
        rpm := Clamp(rpm + dRpm, RpmMin, RpmMax);
        speed := Clamp(speed + dSpeed, 0, SpeedMax);
        runtime := runtime + 1;
      }
    }

    method Connect() returns (ok: bool)
      modifies this
      ensures ok && State() == old(State()).(connected := true)
    {
      connected := true;
      ok := true;
    }

    /** Fails, and leaves the flags as they were, unless connected. */
    method InitCommunication() returns (ok: bool)
      modifies this
      ensures ok == old(connected)
      ensures State() == if ok then old(State()).(initialized := true) else old(State())
    {
      if !connected {
        return false;
      }
      initialized := true;
      ok := true;
    }

    /** Clears both flags, if connected; otherwise does nothing. */
    method Close()
      modifies this
      ensures State() == if old(connected) then old(State()).(connected := false, initialized := false) else old(State())
    {
      if connected {
        connected := false;
        initialized := false;
      }
    }

    method SendCommand(command: string) returns (reply: Option<string>)
      requires Inv(State())
      ensures reply == Reply(State(), command)
    {
      if !connected || !initialized {
        return None;
      }
      if command == "010C" {
        reply := Some("41 0C " + HexPadded(rpm / 4, 4));
      } else if command == "010D" {
        reply := Some("41 0D " + HexPadded(speed, 2));
      } else if command == "011F" {
        reply := Some("41 1F " + HexPadded(runtime, 4));
      } else if command == "ATALL" {
        reply := Some(AllReply(rpm, speed, runtime));
      } else {
        reply := None;
      }
    }

    method RequestEngineRpm() returns (r: Option<int>)
      ensures r == if Active(State()) then Some(rpm) else None
    {
      if !connected || !initialized {
        return None;
      }
      return Some(rpm);
    }

    method RequestVehicleSpeed() returns (r: Option<int>)
      ensures r == if Active(State()) then Some(speed) else None
    {
      if !connected || !initialized {
        return None;
      }
      return Some(speed);
    }

    method RequestEngineRunTime() returns (r: Option<int>)
      ensures r == if Active(State()) then Some(runtime) else None
    {
      if !connected || !initialized {
        return None;
      }
      return Some(runtime);
    }

    method RequestAllSettings() returns (r: Option<Record>)
      ensures r == if Active(State()) then Some(Of(rpm, speed, runtime)) else None
    {
      if !connected || !initialized {
        return None;
      }
      return Some(Record(Some(rpm), Some(speed), Some(runtime)));
    }
  }
}
