/**
 * The conveyor-power controller of the 7688 Duo board.
 *
 * Hardware: GPIO 0 reads the button, GPIO 16 drives the power relay's trigger
 * line, GPIO 17 reads the relay's state.  The trigger line rests LOW; one
 * HIGH-then-LOW pulse flips the relay.  The status line reads HIGH exactly when
 * the relay holds the power on, and it does not change while the controller
 * looks at it.
 *
 * The pure functions below give the effect of each operation on a `Snapshot`
 * of the controller; the class `Wifiboard` performs the operations step by
 * step and is proved to have exactly those effects.
 */
module Board {
  import opened Wrappers
  import opened Words
  import opened Awa
  import Decimal

  /** A digital pin level: PIN_LOW is 0, PIN_HIGH is 1. */
  datatype Level = Low | High

  const ClientPort := 6003
  const ClientIpcPort := 6004
  const EndPointName := "7688board"
  /** The definition of object 3200, "Digital Input", with its boolean resource 5500. */
  const DigitalInputDefinition := "--objectID=3200 --objectName='Digital Input' --resourceID=5500 --resourceName='Digital Input State' --resourceType=boolean --resourceInstances=single --resourceRequired=optional --resourceOperations=r"
  const InstancePath := "/3200/0"
  const StatePath := "/3200/0/5500"

  /** Everything the controller has done, as seen from outside. */
  datatype Snapshot = Snapshot(
    powerPin: Level,        // the level last written to GPIO 16
    relay: bool,            // the relay holds the power on; GPIO 17 reads it
    timer: Option<int>,     // seconds of power per press, if configured
    writes: seq<Level>,     // every write to GPIO 16, oldest first
    reports: seq<bool>,     // every value set at /3200/0/5500, oldest first
    ticks: seq<int>,        // every countdown value printed, oldest first
    commands: seq<string>,  // every client command issued, oldest first
    client: Client)

  /** What GPIO 17 reads. */
  function Status(s: Snapshot): Level {
    if s.relay then High else Low
  }

  /** A freshly constructed board: the trigger line written LOW, nothing reported yet. */
  function Initial(identity: string, secret: string, timer: Option<int>, relay: bool): Snapshot {
    Snapshot(Low, relay, timer, [Low], [], [], [], NewClient(ClientPort, ClientIpcPort, identity, secret))
  }

  /** The commands of `start_awa`, in the order it issues them. */
  function StartAwaCommands(c: Client): seq<string> {
    [StartClientCommand(c, Some(EndPointName)), DefineCommand(c, DigitalInputDefinition),
     CreateCommand(c, InstancePath), CreateCommand(c, StatePath)]
  }

  function AwaStarted(s: Snapshot): Snapshot {
    s.(commands := s.commands + StartAwaCommands(s.client))
  }

  /** One HIGH-then-LOW pulse on the trigger line, which flips the relay. */
  function Pulsed(s: Snapshot): Snapshot {
    s.(powerPin := Low, relay := !s.relay, writes := s.writes + [High, Low])
  }

  /** `set_resource("/3200/0/5500", value)`. */
  function Reported(s: Snapshot, value: bool): Snapshot {
    s.(reports := s.reports + [value], commands := s.commands + [SetCommand(s.client, StatePath, value)])
  }

  /** The countdown values `timer_run` prints for a timer of `t` seconds. */
  function Countdown(t: int): seq<int>
    decreases if t < 0 then 0 else t
  {
    if t <= 0 then [] else [t] + Countdown(t - 1)
  }

  /** `timer_run`: count down, then pulse and report the power off without reading the status. */
  function CountedDown(s: Snapshot): Snapshot
    requires s.timer.Some?
  {
    Reported(Pulsed(s.(ticks := s.ticks + Countdown(s.timer.value))), false)
  }

  /** `power_switch`: pulse, then report what the status line reads; with a timer, an ON runs the countdown. */
  function Switched(s: Snapshot): Snapshot {
    var p := Pulsed(s);
    if Status(p) == High then
      var r := Reported(p, true);
      if r.timer.Some? then CountedDown(r) else r
    else
      Reported(p, false)
  }

  /** One pass of the poll loop in `run`: a HIGH button switches, whatever it read before. */
  function Polled(s: Snapshot, button: Level): Snapshot {
    if button == High then Switched(s) else s
  }

  /** The poll loop over a finite run of button samples, oldest first. */
  function PolledAll(s: Snapshot, buttons: seq<Level>): Snapshot
    decreases |buttons|
  {
    if buttons == [] then s else Polled(PolledAll(s, buttons[..|buttons| - 1]), buttons[|buttons| - 1])
  }

  /** How many samples read HIGH. */
  function CountHigh(buttons: seq<Level>): nat
    decreases |buttons|
  {
    if buttons == [] then 0
    else CountHigh(buttons[..|buttons| - 1]) + (if buttons[|buttons| - 1] == High then 1 else 0)
  }

  /** The board's configuration after the command line has been read. */
  datatype Config = Config(identity: string, secret: string, timer: Option<int>)

  const UsageError := "missing identity/secret, run 'python3 <identity> <secret>'"

  /**
   * The command line `argv` (program name first).  `toInt` stands for Python's
   * `int()`: `None` where it raises.  A missing fourth entry, like an
   * unreadable one, leaves the timer off.
   */
  function ParseArgs(argv: seq<string>, toInt: string -> Option<int>): (r: Result<Config, string>)
    ensures r.Failure? <==> |argv| < 3
    ensures r.Failure? ==> r.error == UsageError
    ensures r.Success? ==> r.value.identity == argv[1] && r.value.secret == argv[2]
    ensures r.Success? && r.value.timer.Some? <==> |argv| > 3 && toInt(argv[3]).Some?
    ensures r.Success? && r.value.timer.Some? ==> r.value.timer == toInt(argv[3])
  {
    if |argv| < 3 then Failure(UsageError)
    else
      var timer := if |argv| > 3 then toInt(argv[3]) else None;
      Success(Config(argv[1], argv[2], timer))
  }

  // ---------------------------------------------------------------------------
  // Properties of the controller

  lemma {:induction false} CountdownLength(t: int)
    ensures |Countdown(t)| == if t < 0 then 0 else t
    decreases if t < 0 then 0 else t
  {
    if t > 0 {
      CountdownLength(t - 1);
    }
  }

  /** The k-th tick of a countdown from `t` is `t - k`: t, t-1, ..., 1. */
  lemma {:induction false} CountdownAt(t: int, k: int)
    requires 0 <= k < |Countdown(t)|
    ensures Countdown(t)[k] == t - k && Countdown(t)[k] >= 1
    decreases if t < 0 then 0 else t
  {
    if k > 0 {
      CountdownLength(t);
      CountdownAt(t - 1, k - 1);
    }
  }

  /** A timer of zero or less prints nothing before the power goes off. */
  lemma CountdownEmpty(t: int)
    requires t <= 0
    ensures Countdown(t) == []
  {
  }

  /** Consecutive ticks go down by exactly one, and the last one is 1. */
  lemma CountdownSteps(t: int)
    requires t > 0
    ensures |Countdown(t)| == t && Countdown(t)[0] == t && Countdown(t)[t - 1] == 1
    ensures forall k :: 0 <= k < t - 1 ==> Countdown(t)[k + 1] == Countdown(t)[k] - 1
  {
    CountdownLength(t);
    CountdownAt(t, 0);
    CountdownAt(t, t - 1);
    forall k | 0 <= k < t - 1 ensures Countdown(t)[k + 1] == Countdown(t)[k] - 1 {
      CountdownAt(t, k);
      CountdownAt(t, k + 1);
    }
  }

  /**
   * `timer_run` always ends with one pulse and a report of OFF, whatever the
   * relay state, after exactly max(timer, 0) ticks.
   */
  lemma CountedDownEffect(s: Snapshot)
    requires s.timer.Some?
    ensures var r := CountedDown(s);
      && r.relay == !s.relay && r.powerPin == Low
      && r.writes == s.writes + [High, Low]
      && r.reports == s.reports + [false]
      && r.commands == s.commands + [SetCommand(s.client, StatePath, false)]
      && r.ticks == s.ticks + Countdown(s.timer.value)
      && |r.ticks| == |s.ticks| + (if s.timer.value < 0 then 0 else s.timer.value)
  {
    CountdownLength(s.timer.value);
  }

  /** Without a timer, a switch is one pulse and one report of what the status line then reads. */
  lemma SwitchWithoutTimer(s: Snapshot)
    requires s.timer.None?
    ensures var r := Switched(s);
      && r.powerPin == Low && r.relay == !s.relay && r.timer == s.timer && r.client == s.client
      && r.writes == s.writes + [High, Low]
      && r.reports == s.reports + [Status(r) == High]
      && r.commands == s.commands + [SetCommand(s.client, StatePath, Status(r) == High)]
      && r.ticks == s.ticks
  {
  }

  /** Switching the power off is one pulse and a report of OFF, timer or not. */
  lemma SwitchOff(s: Snapshot)
    requires s.relay
    ensures var r := Switched(s);
      && r.powerPin == Low && !r.relay
      && r.writes == s.writes + [High, Low]
      && r.reports == s.reports + [false]
      && r.ticks == s.ticks
  {
  }

  /**
   * With a timer, switching the power on reports ON, counts down, pulses
   * again and reports OFF: two pulses, and the relay ends where it started.
   */
  lemma SwitchOnWithTimer(s: Snapshot)
    requires s.timer.Some? && !s.relay
    ensures var r := Switched(s);
      && r.powerPin == Low && r.relay == s.relay
      && r.writes == s.writes + [High, Low, High, Low]
      && r.reports == s.reports + [true, false]
      && r.commands == s.commands + [SetCommand(s.client, StatePath, true), SetCommand(s.client, StatePath, false)]
      && r.ticks == s.ticks + Countdown(s.timer.value)
  {
    var p := Pulsed(s);
    var q := Reported(p, true);
    CountedDownEffect(q);
  }

  /** After every switch the last value reported is the relay state the status line shows. */
  lemma SwitchReportMirrorsStatus(s: Snapshot)
    ensures var r := Switched(s);
      |r.reports| > |s.reports| && r.reports[|r.reports| - 1] == (Status(r) == High)
      && r.powerPin == Low
  {
    if s.timer.Some? && !s.relay {
      SwitchOnWithTimer(s);
    } else if s.relay {
      SwitchOff(s);
    } else {
      SwitchWithoutTimer(s);
    }
  }

  /** A LOW sample changes nothing. */
  lemma PollLow(s: Snapshot)
    ensures Polled(s, Low) == s
  {
  }

  /** Samples that never read HIGH leave the controller untouched: nothing is pulsed or reported. */
  lemma {:induction false} PollAllLow(s: Snapshot, buttons: seq<Level>)
    requires forall i :: 0 <= i < |buttons| ==> buttons[i] == Low
    ensures PolledAll(s, buttons) == s
    decreases |buttons|
  {
    if buttons != [] {
      PollAllLow(s, buttons[..|buttons| - 1]);
    }
  }

  /** Two successive HIGH samples are two calls of `power_switch`: there is no edge detection. */
  lemma HighTwiceIsTwoSwitches(s: Snapshot, buttons: seq<Level>)
    requires |buttons| == 2 && buttons[0] == High && buttons[1] == High
    ensures PolledAll(s, buttons) == Switched(Switched(s))
  {
    var first := buttons[..1];
    assert first[..0] == [];
    assert PolledAll(s, first) == Switched(s);
  }

  /** So without a timer a button held HIGH over two passes switches the power twice. */
  lemma HeldHighSwitchesTwice(s: Snapshot, buttons: seq<Level>)
    requires s.timer.None?
    requires |buttons| == 2 && buttons[0] == High && buttons[1] == High
    ensures var r := PolledAll(s, buttons);
      && r.relay == s.relay
      && r.writes == s.writes + [High, Low, High, Low]
      && r.reports == s.reports + [!s.relay, s.relay]
  {
    var r1 := Switched(s);
    SwitchWithoutTimer(s);
    assert r1.relay == !s.relay && r1.timer.None?;
    assert r1.writes == s.writes + [High, Low] && r1.reports == s.reports + [!s.relay];
    var r2 := Switched(r1);
    SwitchWithoutTimer(r1);
    assert r2.writes == r1.writes + [High, Low] && r2.reports == r1.reports + [s.relay];
    HighTwiceIsTwoSwitches(s, buttons);
  }

  /** The pin writes of `n` pulses: HIGH, LOW, repeated `n` times. */
  function Pulses(n: nat): (ls: seq<Level>)
    ensures |ls| == 2 * n
  {
    if n == 0 then [] else Pulses(n - 1) + [High, Low]
  }

  /**
   * The reports of `n` switches, with no timer, from a relay in state `relay`:
   * the new state, the old one, the new one again, and so on.
   */
  function Alternating(relay: bool, n: nat): (bs: seq<bool>)
    ensures |bs| == n
  {
    if n == 0 then [] else Alternating(relay, n - 1) + [if n % 2 == 1 then !relay else relay]
  }

  /** The set command for each of `values`, in order. */
  function ReportCommands(c: Client, values: seq<bool>): (cs: seq<string>)
    ensures |cs| == |values|
    decreases |values|
  {
    if values == [] then []
    else ReportCommands(c, values[..|values| - 1]) + [SetCommand(c, StatePath, values[|values| - 1])]
  }

  /**
   * `r` is `s` after `n` switches with no timer: the relay flipped `n` times,
   * `n` pulses written, and one report of the new status, with its set
   * command, per switch.
   */
  predicate SwitchedTimes(s: Snapshot, r: Snapshot, n: nat) {
    && r.timer.None? && r.client == s.client && r.ticks == s.ticks
    && r.relay == (if n % 2 == 0 then s.relay else !s.relay)
    && r.powerPin == (if n == 0 then s.powerPin else Low)
    && r.writes == s.writes + Pulses(n)
    && r.reports == s.reports + Alternating(s.relay, n)
    && r.commands == s.commands + ReportCommands(s.client, Alternating(s.relay, n))
  }

  // Solver hints for `SwitchedTimesStep`, not properties of the board: each
  // states one sequence fact on abstract arguments, so that the step does not
  // regroup appends of command strings itself.

  lemma AppendAssoc<T>(a: seq<T>, b: seq<T>, c: seq<T>)
    ensures (a + b) + c == a + (b + c)
  {
  }

  /** The relay after one more switch is the next value of `Alternating`. */
  lemma AlternatingNext(relay: bool, before: bool, n: nat)
    requires before == (if n % 2 == 0 then relay else !relay)
    ensures Alternating(relay, n + 1) == Alternating(relay, n) + [!before]
    ensures !before == (if (n + 1) % 2 == 0 then relay else !relay)
  {
  }

  lemma ReportCommandsNext(c: Client, cs: seq<string>, vs: seq<bool>, v: bool)
    ensures (cs + ReportCommands(c, vs)) + [SetCommand(c, StatePath, v)] == cs + ReportCommands(c, vs + [v])
  {
    assert (vs + [v])[..|vs|] == vs;
    AppendAssoc(cs, ReportCommands(c, vs), [SetCommand(c, StatePath, v)]);
  }

  lemma PulsesNext(w: seq<Level>, n: nat)
    ensures (w + Pulses(n)) + [High, Low] == w + Pulses(n + 1)
  {
  }

  /**
   * One more switch without a timer, as `SwitchWithoutTimer` states it,
   * extends every log by one step.
   */
  lemma SwitchedTimesStep(s: Snapshot, r: Snapshot, t: Snapshot, n: nat)
    requires SwitchedTimes(s, r, n)
    requires t.timer.None? && t.client == r.client && t.ticks == r.ticks
    requires t.powerPin == Low && t.relay == !r.relay
    requires t.writes == r.writes + [High, Low]
    requires t.reports == r.reports + [t.relay]
    requires t.commands == r.commands + [SetCommand(r.client, StatePath, t.relay)]
    ensures SwitchedTimes(s, t, n + 1)
  {
    AlternatingNext(s.relay, r.relay, n);
    PulsesNext(s.writes, n);
    AppendAssoc(s.reports, Alternating(s.relay, n), [t.relay]);
    ReportCommandsNext(s.client, s.commands, Alternating(s.relay, n), t.relay);
  }

  /**
   * Without a timer, every HIGH sample is one switch and LOW samples add
   * nothing: after the run the board stands as after `CountHigh(buttons)`
   * switches.
   */
  lemma {:induction false} PollAllWithoutTimer(s: Snapshot, buttons: seq<Level>)
    requires s.timer.None?
    ensures SwitchedTimes(s, PolledAll(s, buttons), CountHigh(buttons))
    decreases |buttons|
  {
    if buttons == [] {
      assert SwitchedTimes(s, s, 0);
    } else {
      var front := buttons[..|buttons| - 1];
      PollAllWithoutTimer(s, front);
      if buttons[|buttons| - 1] == High {
        var r := PolledAll(s, front);
        SwitchWithoutTimer(r);
        SwitchedTimesStep(s, r, Switched(r), CountHigh(front));
      }
    }
  }

  /**
   * `start_awa` issues four commands: it starts the daemon as endpoint
   * "7688board", then defines object 3200 with resource 5500, then creates
   * instance /3200/0, then resource /3200/0/5500.
   */
  lemma StartAwaOrder(c: Client)
    requires ' ' !in c.port && ' ' !in c.ipcPort
    ensures var cs := StartAwaCommands(c);
      && |cs| == 4
      && Split(cs[0]) == ["awa_clientd", "--port", c.port, "--ipcPort", c.ipcPort, "--endPointName", EndPointName,
                          "--bootstrap", BootstrapUri] + Split("--pskIdentity=" + c.identity) + Split("--pskKey=" + c.secret)
      && Split(cs[1]) == ["awa-client-define", "--ipcPort=" + c.ipcPort] + Split(DigitalInputDefinition)
      && Split(cs[2]) == ["awa-client-set", "-p", c.ipcPort, "--create", InstancePath]
      && Split(cs[3]) == ["awa-client-set", "-p", c.ipcPort, "--create", StatePath]
  {
    FixedNamesAreWords();
    StartClientNamedWords(c, EndPointName);
    DefineWords(c, DigitalInputDefinition);
    CreatePathWords(c, InstancePath);
    CreatePathWords(c, StatePath);
  }

  lemma CreatePathWords(c: Client, path: string)
    requires ' ' !in c.ipcPort && ' ' !in path
    ensures Split(CreateCommand(c, path)) == ["awa-client-set", "-p", c.ipcPort, "--create", path]
  {
    CreateWords(c, path);
    SplitWord(path);
  }

  // Solver hint, not a property: the literal names hold no space, stated
  // apart so that the word lemmas above stay on abstract text.
  lemma FixedNamesAreWords()
    ensures ' ' !in EndPointName && ' ' !in InstancePath && ' ' !in StatePath
  {
  }

  /**
   * A new board has its trigger line LOW, keeps the timer it was given, and its
   * client holds ports 6003 and 6004 and the credentials unchanged.
   */
  lemma InitialState(identity: string, secret: string, timer: Option<int>, relay: bool)
    ensures var s := Initial(identity, secret, timer, relay);
      && s.powerPin == Low && s.writes == [Low] && s.timer == timer && s.relay == relay
      && s.reports == [] && s.ticks == [] && s.commands == []
      && Decimal.ParseInt(s.client.port) == Some(6003) && Decimal.ParseInt(s.client.ipcPort) == Some(6004)
      && s.client.identity == identity && s.client.secret == secret
  {
  }

  /** The client's ports are the texts "6003" and "6004". */
  lemma ClientPortsText(identity: string, secret: string)
    ensures NewClient(ClientPort, ClientIpcPort, identity, secret).port == "6003"
    ensures NewClient(ClientPort, ClientIpcPort, identity, secret).ipcPort == "6004"
  {
  }

  // ---------------------------------------------------------------------------
  // The controller

  class Wifiboard {
    var powerPin: Level
    var relay: bool
    const timer: Option<int>
    const client: Client
    var writes: seq<Level>
    var reports: seq<bool>
    var ticks: seq<int>
    var commands: seq<string>

    function Model(): Snapshot
      reads this
    {
      Snapshot(powerPin, relay, timer, writes, reports, ticks, commands, client)
    }

    /** `Wifiboard(identity, secret, timer)`, on a relay that is `relayAtStart` at power-up. */
    constructor (identity: string, secret: string, timer: Option<int>, relayAtStart: bool)
      ensures Model() == Initial(identity, secret, timer, relayAtStart)
    {
      relay := relayAtStart;
      powerPin := Low;
      writes := [Low];
      client := NewClient(ClientPort, ClientIpcPort, identity, secret);
      this.timer := timer;
      reports, ticks, commands := [], [], [];
    }

    /** `pin_power.write(level)`. */
    method WritePower(level: Level)
      modifies this
      ensures Model() == old(Model()).(powerPin := level, writes := old(writes) + [level])
    {
      powerPin := level;
      writes := writes + [level];
    }

    /** HIGH, then LOW on the trigger line; the relay flips. */
    method Pulse()
      modifies this
      ensures Model() == Pulsed(old(Model()))
    {
      WritePower(High);
      WritePower(Low);
      relay := !relay;
    }

    /** `awaclient.set_resource("/3200/0/5500", value)`. */
    method Report(value: bool)
      modifies this
      ensures Model() == Reported(old(Model()), value)
    {
      commands := commands + [SetCommand(client, StatePath, value)];
      reports := reports + [value];
    }

    method StartAwa()
      modifies this
      ensures Model() == AwaStarted(old(Model()))
    {
      commands := commands + [StartClientCommand(client, Some(EndPointName))];
      commands := commands + [DefineCommand(client, DigitalInputDefinition)];
      commands := commands + [CreateCommand(client, InstancePath)];
      commands := commands + [CreateCommand(client, StatePath)];
    }

    method TimerRun()
      requires timer.Some?
      modifies this
      ensures Model() == CountedDown(old(Model()))
    {
      var clock := timer.value;
      var i := 0;
      while i < timer.value
        invariant 0 <= i <= (if timer.value < 0 then 0 else timer.value)
        invariant clock == timer.value - i
        invariant ticks + Countdown(clock) == old(ticks) + Countdown(timer.value)
        invariant Model() == old(Model()).(ticks := ticks)
      {
        ticks := ticks + [clock];
        clock := clock - 1;
        i := i + 1;
      }
      Pulse();
      Report(false);
    }

    method PowerSwitch()
      modifies this
      ensures Model() == Switched(old(Model()))
    {
      Pulse();
      if Status(Model()) == High {
        Report(true);
        if timer.Some? {
          TimerRun();
        }
      } else {
        // the status line reads LOW: the second read agrees with the first
        Report(false);
      }
    }

    /** One pass of the `while True` loop in `run`, with the button read as `button`. */
    method PollStep(button: Level)
      modifies this
      ensures Model() == Polled(old(Model()), button)
    {
      if button == High {
        PowerSwitch();
      }
    }

    /** `run` over a finite run of button samples: start the client, then poll once per sample. */
    method Run(buttons: seq<Level>)
      modifies this
      ensures Model() == PolledAll(AwaStarted(old(Model())), buttons)
    {
      StartAwa();
      var i := 0;
      while i < |buttons|
        invariant 0 <= i <= |buttons|
        invariant Model() == PolledAll(AwaStarted(old(Model())), buttons[..i])
      {
        assert buttons[..i + 1][..i] == buttons[..i];
        PollStep(buttons[i]);
        i := i + 1;
      }
      assert buttons[..|buttons|] == buttons;
    }
  }

  /**
   * The program's entry point up to the poll loop: read the command line, and
   * only if it is complete build the board and start the client.
   */
  method Launch(argv: seq<string>, toInt: string -> Option<int>, relayAtStart: bool) returns (r: Result<Wifiboard, string>)
    ensures r.Failure? <==> |argv| < 3
    ensures r.Failure? ==> r.error == UsageError
    ensures r.Success? ==> fresh(r.value)
    ensures r.Success? ==>
      r.value.Model() == AwaStarted(Initial(argv[1], argv[2], ParseArgs(argv, toInt).value.timer, relayAtStart))
  {
    var args := ParseArgs(argv, toInt);
    if args.Failure? {
      return Failure(args.error);
    }
    var board := new Wifiboard(args.value.identity, args.value.secret, args.value.timer, relayAtStart);
    board.StartAwa();
    r := Success(board);
  }
}
