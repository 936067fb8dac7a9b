# Conveyor-power controller of the 7688 Duo board

A Dafny model of the program that runs on a 7688 Duo board next to a conveyor. A button on GPIO 0 switches the conveyor power. GPIO 16 drives the power relay's trigger line, and GPIO 17 reads the relay's state. Each change is reported to a device-management server as resource `/3200/0/5500`, "Digital Input State". Reports go through the Awa LwM2M client daemon, which the program drives with shell commands.

The model has two parts:

- `awaclient.dfy` (module `Awa`) holds the client. The constructor and the text of every command the client builds (`start_client`, `create_object`, `create_resource`, `set_resource`, `subscribe`) are pure functions. Lemmas state which words each command is made of, in which order. A word is a piece between single spaces (`Words.Split`; `Words.SplitJoin` proves `Split(Join(ws)) == ws`). These words are the arguments the command is split into only when every piece is non-empty, the text holds no whitespace other than single spaces, and it holds no quotes or backslashes.
- `board.dfy` (module `Board`) holds the controller. Pure functions over a `Snapshot` give the effect of each operation:
  - `Pulsed`: one HIGH-then-LOW pulse on GPIO 16, which flips the relay;
  - `Reported`: one `set_resource` call;
  - `CountedDown`: `timer_run`;
  - `Switched`: `power_switch`;
  - `Polled` and `PolledAll`: one pass, or a finite run, of the poll loop;
  - `AwaStarted`: `start_awa`;
  - `ParseArgs`: the command line.

  A `Snapshot` records:
  - the trigger pin level;
  - the relay;
  - the timer;
  - every value written to GPIO 16;
  - every value reported;
  - every countdown value printed;
  - every client command issued.

  The class `Board.Wifiboard` performs the operations step by step, and each method is proved to have exactly its function's effect. `TimerRun` does this with a loop invariant. The lemmas then state what the program promises about those functions.

`decimal.dfy` renders an `int` as Python's `str` does, and proves that `ParseInt` reads the text back. `wrappers.dfy` holds `Option` and `Result`.

Hardware rule the model relies on (`wifi_board/7688board.py:67-69`): the trigger line rests LOW, and one HIGH-then-LOW pulse switches the power. GPIO 17 reads HIGH exactly when the relay holds the power on, and it does not change while the program looks at it. So the three reads of the status pin in `power_switch` agree, and the model reads the relay flag instead. The relay's state at power-up is a parameter of the constructor.

`run` calls `power_switch` on every pass that reads the button HIGH (`wifi_board/7688board.py:109-112`). There is no edge detection, recovery pass, exit hook or tracked relay state. So a button held down switches once per pass, and `HeldHighSwitchesTwice` and `PollAllWithoutTimer` state that.

## Model

| member | source | states |
|---|---|---|
| `Decimal.NatToString` | wifi_board/awaclient.py:14-15 | the decimal form of a port is a non-empty run of digits with no leading zero |
| `Decimal.IntRoundTrip` | wifi_board/awaclient.py:14-15 | reading back `str(i)` gives `i` for every int, negative ones included |
| `Awa.NewClient` | wifi_board/awaclient.py:13-17 | the client stores both ports as `str` of the given numbers, text that reads back as those numbers and holds no space, and keeps identity and secret unchanged |
| `Awa.PyBool` | wifi_board/awaclient.py:46 | a bool is rendered `"True"` exactly when it is true and `"False"` exactly when it is false |
| `Awa.StartClientWords` | wifi_board/awaclient.py:16-20 | for any name and credentials, the daemon command is `awa_clientd`, `--port` with the port, `--ipcPort` with the IPC port, `--endPointName`, then the words of the name (`test` when none is given), `--bootstrap` with the fixed server URI, then the words of `--pskIdentity=`identity and of `--pskKey=`secret, in this order; the name and credentials are inserted unquoted, so one that holds a space becomes several arguments |
| `Awa.StartClientNamedWords` | wifi_board/awaclient.py:19-20 | with an endpoint name that holds no space, the name is exactly one word between `--endPointName` and `--bootstrap`, for any credentials |
| `Awa.StartClientPlainWords` | wifi_board/awaclient.py:16-20 | when the name and both credentials hold no space, the daemon command has exactly eleven words, each credential glued to its flag |
| `Awa.DefineWords` | wifi_board/awaclient.py:30 | the define command is `awa-client-define`, `--ipcPort=`port, then the words of the option text |
| `Awa.CreateWords` | wifi_board/awaclient.py:39 | the create command is `awa-client-set -p` port `--create`, then the words of the path |
| `Awa.SetWords` | wifi_board/awaclient.py:46 | the set command is `awa-client-set -p` port, then the words of `path=value` |
| `Awa.SetWordsPlainPath` | wifi_board/awaclient.py:46 | for a path without spaces the set command has exactly four words, the last `path=True` or `path=False` |
| `Awa.SetCommandEnding` | wifi_board/awaclient.py:46 | the set command ends with `path=` and the rendered value, so a true value ends in `=True` and a false one in `=False` |
| `Awa.SubscribeWords` | wifi_board/awaclient.py:54 | the subscribe command is `awa-client-subscribe -p` port, then the words of the path |
| `Board.ParseArgs` | wifi_board/7688board.py:117-124 | the command line fails, with the usage message, exactly when it has fewer than 3 entries; otherwise identity and secret are entries 1 and 2, and the timer is set exactly when a 4th entry exists and `int()` accepts it, to that value |
| `Board.Launch` | wifi_board/7688board.py:114-126 | no board is built when the command line is incomplete; otherwise a new board is built from the parsed configuration and the client is started |
| `Board.InitialState` | wifi_board/7688board.py:33-54 | a new board has written LOW to the trigger pin and nothing else, keeps the given timer, has reported nothing, and its client holds ports that read back as 6003 and 6004 and the credentials unchanged |
| `Board.ClientPortsText` | wifi_board/7688board.py:49-51 | the board's client holds the port texts `"6003"` and `"6004"` |
| `Board.CountdownLength` | wifi_board/7688board.py:91-95 | a timer of `t` seconds prints max(t, 0) countdown values |
| `Board.CountdownAt` | wifi_board/7688board.py:91-95 | the k-th countdown value is `t - k`, and every value is at least 1 |
| `Board.CountdownEmpty` | wifi_board/7688board.py:91-95 | a timer of zero or less prints nothing before the power goes off |
| `Board.CountdownSteps` | wifi_board/7688board.py:91-95 | a positive countdown starts at the timer, goes down by exactly one each tick, and ends at 1 |
| `Board.CountedDownEffect` | wifi_board/7688board.py:85-100 | `timer_run` adds the countdown values to the tick log, one pulse (relay flipped, pin left LOW) to the write log, and a report of false, whatever the status pin reads, to the report log |
| `Board.SwitchWithoutTimer` | wifi_board/7688board.py:65-83 | with no timer, `power_switch` pulses once (HIGH then LOW, relay flipped), reports exactly one value, equal to "status reads HIGH" after the pulse, and prints no countdown |
| `Board.SwitchOff` | wifi_board/7688board.py:65-83 | switching a powered relay, timer or not, is one pulse and one report of false, with no countdown |
| `Board.SwitchOnWithTimer` | wifi_board/7688board.py:65-100 | with a timer, switching an unpowered relay reports true, then false, in that order; it adds two pulses to the write log and the countdown to the tick log, and leaves the relay off as it started |
| `Board.SwitchReportMirrorsStatus` | wifi_board/7688board.py:71-83 | after every `power_switch` the trigger pin is LOW and the last value reported equals what the status pin then reads |
| `Board.PollLow` | wifi_board/7688board.py:109-112 | a pass that reads the button LOW changes nothing |
| `Board.PollAllLow` | wifi_board/7688board.py:109-112 | any number of LOW passes change nothing: no pulse, no report |
| `Board.HighTwiceIsTwoSwitches` | wifi_board/7688board.py:109-112 | two HIGH passes in a row call `power_switch` twice, whatever the earlier sample was |
| `Board.HeldHighSwitchesTwice` | wifi_board/7688board.py:109-112 | with no timer, two HIGH passes in a row switch twice: two pulses, reports of the new and then the old state, relay back where it started |
| `Board.PollAllWithoutTimer` | wifi_board/7688board.py:109-112 | with no timer, every HIGH pass is one switch and LOW passes add nothing: after the run the relay has flipped once per HIGH sample, the write log has gained one HIGH, LOW pair per HIGH sample, and the report log has gained the new relay state after each switch (alternating, starting with the flipped state), each with its set command |
| `Board.StartAwaOrder` | wifi_board/7688board.py:56-63 | `start_awa` issues four commands in order: start the daemon as endpoint `7688board` (with the words of the two credentials last, whatever they hold), define object 3200 with resource 5500, create `/3200/0`, create `/3200/0/5500` |
| `Board.CreatePathWords` | wifi_board/awaclient.py:39 | for a path without spaces the create command has exactly five words, the path last |
| `Board.Wifiboard.constructor` | wifi_board/7688board.py:33-54 | the new board is the initial snapshot: trigger pin written LOW, the given timer, the client on ports 6003 and 6004 |
| `Board.Wifiboard.WritePower` | wifi_board/7688board.py:71-73 | a write sets the trigger pin and is appended to the write log; nothing else changes |
| `Board.Wifiboard.Pulse` | wifi_board/7688board.py:71-73 | writes HIGH, then LOW, and the relay flips |
| `Board.Wifiboard.Report` | wifi_board/7688board.py:79 | appends the value to the report log and the set command for `/3200/0/5500` to the command log |
| `Board.Wifiboard.StartAwa` | wifi_board/7688board.py:56-63 | appends the four start-up commands, in order, and changes nothing else |
| `Board.Wifiboard.TimerRun` | wifi_board/7688board.py:85-100 | the loop adds the countdown values timer, timer-1, ..., 1 to the tick log; the board also adds one pulse to the write log and a report of false |
| `Board.Wifiboard.PowerSwitch` | wifi_board/7688board.py:65-83 | adds one pulse; if the status pin then reads HIGH it reports true and runs the timer when one is set, and if it reads LOW it reports false |
| `Board.Wifiboard.PollStep` | wifi_board/7688board.py:109-112 | calls `power_switch` exactly when the button reads HIGH, and otherwise changes nothing |
| `Board.Wifiboard.Run` | wifi_board/7688board.py:102-112 | starts the client, then makes one poll pass per button sample, in order |

## Left out

- The GPIO library and the pins' electrical behaviour. They are replaced by the pulse-flips-relay rule above. A failed read (the library returns -1) is not modelled, so the status pin always reads HIGH or LOW. For that reason `PowerSwitch` takes the `elif ... == PIN_LOW` branch as the plain `else`.
- All sleeps: the 0.1 s pulse width, the 0.5 s poll interval, the 1 s countdown ticks and the 10 s daemon warm-up.
- The relative order of steps across logs. The snapshot keeps pin writes, reports, countdown ticks and commands in four separate logs, each in order. Which pin write, report or tick came first among different logs is not recorded. So no contract distinguishes "count down, then switch off" (`wifi_board/7688board.py:91-98`) from the reverse, or places the report of true (`wifi_board/7688board.py:79`) before the ticks. The class methods perform the steps in the source's order, but their contracts state only the four logs.
- Process execution (`Popen`, `run`/`check_call`). A command is modelled by its text and by the fact that it was issued, in order. Exceptions raised while starting a command (a missing binary, or a non-zero exit under the `check_call` fallback at `wifi_board/awaclient.py:5-8`) are not modelled; nothing in the program catches them, so it would stop.
- Shell tokenisation of the commands. Their words are taken at single spaces. This agrees with the real splitter only when every piece is non-empty, the text holds no whitespace other than single spaces (a tab stays inside a word here), and it holds no quotes or backslashes (escape characters to the splitter). An empty path, for example, gives a trailing empty word here that the splitter drops. The object definition in `start_awa` contains quoted names, so `StartAwaOrder` states its define command only up to the words of that text.
- `Awaclient.handler` and `handler_func`: a raw UDP socket with an endless receive loop, and an empty body.
- The endless poll loop. `PollStep` is one pass and `Run` is a finite run of passes over given button samples.
- Python's `int()` grammar for the timer argument (whitespace, signs, underscores). It is a parameter `toInt`, a partial function that gives `None` where `int()` raises.
- Printed output, except the countdown values, which are kept as the tick log.
- `Board.PollAllWithoutTimer` covers only runs with no timer. With a timer, the effect of a HIGH pass is stated one switch at a time, by `SwitchOnWithTimer` and `SwitchOff`.
