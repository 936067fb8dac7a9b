/**
 * The client of the Awa LwM2M daemon: the strings of the shell commands it
 * issues.  Starting the processes is not modelled; each command is modelled
 * as the text handed to the shell splitter, and the lemmas below state which
 * words that text is made of.
 */
module Awa {
  import opened Wrappers
  import opened Decimal
  import opened Words

  /** The client's configuration: ports kept as decimal strings, credentials as given. */
  datatype Client = Client(port: string, ipcPort: string, identity: string, secret: string)

  const BootstrapUri := "coaps://deviceserver.creatordev.io:15684"

  /** The endpoint name `start_client` uses when the caller gives none. */
  const DefaultEndPointName := "test"

  /** The constructor: both ports are rendered with `str`, the credentials are stored unchanged. */
  function NewClient(port: int, ipcPort: int, identity: string, secret: string): (c: Client)
    ensures c.port == IntToString(port) && c.ipcPort == IntToString(ipcPort)
    ensures ParseInt(c.port) == Some(port) && ParseInt(c.ipcPort) == Some(ipcPort)
    ensures ' ' !in c.port && ' ' !in c.ipcPort
    ensures c.identity == identity && c.secret == secret
  {
    IntRoundTrip(port);
    IntRoundTrip(ipcPort);
    IntStringHasNoSpace(port);
    IntStringHasNoSpace(ipcPort);
    Client(IntToString(port), IntToString(ipcPort), identity, secret)
  }

  /** Python's `str` on a bool. */
  function PyBool(b: bool): (s: string)
    ensures (s == "True") == b && (s == "False") == !b
    ensures ' ' !in s
  {
    if b then "True" else "False"
  }

  /** `start_client(client_name)`; `None` stands for the omitted argument. */
  function StartClientCommand(c: Client, clientName: Option<string>): string {
    var name := if clientName.Some? then clientName.value else DefaultEndPointName;
    "awa_clientd --port " + c.port + " --ipcPort " + c.ipcPort + " --endPointName " + name
    + " --bootstrap " + BootstrapUri + " --pskIdentity=" + c.identity
    + " --pskKey=" + c.secret
  }

  /** `create_object(arg)`: defines an object from the option text `arg`. */
  function DefineCommand(c: Client, arg: string): string {
    "awa-client-define --ipcPort=" + c.ipcPort + " " + arg
  }

  /** `create_resource(path)`: creates the instance or resource at `path`. */
  function CreateCommand(c: Client, path: string): string {
    "awa-client-set -p " + c.ipcPort + " --create " + path
  }

  /** `set_resource(path, value)` for a boolean value. */
  function SetCommand(c: Client, path: string, value: bool): string {
    "awa-client-set -p " + c.ipcPort + " " + path + "=" + PyBool(value)
  }

  /** `subscribe(path)`. */
  function SubscribeCommand(c: Client, path: string): string {
    "awa-client-subscribe -p " + c.ipcPort + " " + path
  }

  /**
   * The daemon command line carries the ports, the endpoint name, the fixed
   * bootstrap server and the two credentials, in this order.  The name and the
   * credentials are inserted unquoted, so each contributes the words of its own
   * text: a secret holding a space reaches the daemon as two arguments.
   */
  lemma StartClientWords(c: Client, clientName: Option<string>)
    requires ' ' !in c.port && ' ' !in c.ipcPort
    ensures var name := if clientName.Some? then clientName.value else "test";
      Split(StartClientCommand(c, clientName)) ==
        ["awa_clientd", "--port", c.port, "--ipcPort", c.ipcPort, "--endPointName"] + Split(name)
        + ["--bootstrap", BootstrapUri] + Split("--pskIdentity=" + c.identity) + Split("--pskKey=" + c.secret)
  {
    var name := if clientName.Some? then clientName.value else "test";
    StartClientPieces();
    StartClientTailPieces();
    StartClientFixedWords();
    BootstrapUriIsOneWord();
    SplitDaemonText("awa_clientd", "--port", c.port, "--ipcPort", c.ipcPort, "--endPointName", name,
                    "--bootstrap", BootstrapUri, "--pskIdentity=", c.identity, "--pskKey=", c.secret);
  }

  /** With a one-word endpoint name, that name is one word of the daemon command. */
  lemma StartClientNamedWords(c: Client, name: string)
    requires ' ' !in c.port && ' ' !in c.ipcPort && ' ' !in name
    ensures Split(StartClientCommand(c, Some(name)))
      == ["awa_clientd", "--port", c.port, "--ipcPort", c.ipcPort, "--endPointName", name,
          "--bootstrap", BootstrapUri] + Split("--pskIdentity=" + c.identity) + Split("--pskKey=" + c.secret)
  {
    StartClientWords(c, Some(name));
    SplitWord(name);
  }

  /**
   * When the name and the credentials hold no space, the daemon command has
   * exactly eleven words, each credential glued to its flag.
   */
  lemma StartClientPlainWords(c: Client, clientName: Option<string>)
    requires ' ' !in c.port && ' ' !in c.ipcPort && ' ' !in c.identity && ' ' !in c.secret
    requires clientName.Some? ==> ' ' !in clientName.value
    ensures var name := if clientName.Some? then clientName.value else "test";
      Split(StartClientCommand(c, clientName)) ==
        ["awa_clientd", "--port", c.port, "--ipcPort", c.ipcPort, "--endPointName", name,
         "--bootstrap", BootstrapUri, "--pskIdentity=" + c.identity, "--pskKey=" + c.secret]
  {
    var name := if clientName.Some? then clientName.value else "test";
    StartClientPieces();
    StartClientTailPieces();
    StartClientFixedWords();
    BootstrapUriIsOneWord();
    SplitDaemonLine("awa_clientd", "--port", c.port, "--ipcPort", c.ipcPort, "--endPointName", name,
                    "--bootstrap", BootstrapUri, "--pskIdentity=", c.identity, "--pskKey=", c.secret);
  }

  /** The shape of the daemon command line for any name and credentials. */
  lemma SplitDaemonText(w0: string, f1: string, v1: string, f2: string, v2: string, f3: string, v3: string,
                        f4: string, v4: string, g5: string, v5: string, g6: string, v6: string)
    requires ' ' !in w0 && ' ' !in f1 && ' ' !in v1 && ' ' !in f2 && ' ' !in v2 && ' ' !in f3
    requires ' ' !in f4 && ' ' !in v4
    ensures Split(w0 + (" " + f1 + " ") + v1 + (" " + f2 + " ") + v2 + (" " + f3 + " ") + v3
                  + (" " + f4 + " ") + v4 + (" " + g5) + v5 + (" " + g6) + v6)
         == [w0, f1, v1, f2, v2, f3] + Split(v3) + [f4, v4] + Split(g5 + v5) + Split(g6 + v6)
  {
    var x1 := w0 + (" " + f1 + " ") + v1;
    var x2 := x1 + (" " + f2 + " ") + v2;
    var x3 := x2 + (" " + f3 + " ") + v3;
    var x4 := x3 + (" " + f4 + " ") + v4;
    var x5 := x4 + (" " + g5) + v5;
    SplitWord(w0);
    SplitFlagValue(w0, f1, v1);
    SplitFlagValue(x1, f2, v2);
    assert Split(x2) + [f3] == [w0, f1, v1, f2, v2, f3];
    SplitFlagRest(x2, f3, v3);
    SplitFlagValue(x3, f4, v4);
    SplitGluedRest(x4, g5, v5);
    SplitGluedRest(x5, g6, v6);
  }

  /** The shape of the daemon command line, with its fixed words left open. */
  lemma SplitDaemonLine(w0: string, f1: string, v1: string, f2: string, v2: string, f3: string, v3: string,
                        f4: string, v4: string, g5: string, v5: string, g6: string, v6: string)
    requires ' ' !in w0 && ' ' !in f1 && ' ' !in v1 && ' ' !in f2 && ' ' !in v2 && ' ' !in f3 && ' ' !in v3
    requires ' ' !in f4 && ' ' !in v4 && ' ' !in g5 && ' ' !in v5 && ' ' !in g6 && ' ' !in v6
    ensures Split(w0 + (" " + f1 + " ") + v1 + (" " + f2 + " ") + v2 + (" " + f3 + " ") + v3
                  + (" " + f4 + " ") + v4 + (" " + g5) + v5 + (" " + g6) + v6)
         == [w0, f1, v1, f2, v2, f3, v3, f4, v4, g5 + v5, g6 + v6]
  {
    var x1 := w0 + (" " + f1 + " ") + v1;
    var x2 := x1 + (" " + f2 + " ") + v2;
    var x3 := x2 + (" " + f3 + " ") + v3;
    var x4 := x3 + (" " + f4 + " ") + v4;
    var x5 := x4 + (" " + g5) + v5;
    SplitWord(w0);
    SplitFlagValue(w0, f1, v1);
    SplitFlagValue(x1, f2, v2);
    SplitFlagValue(x2, f3, v3);
    SplitFlagValue(x3, f4, v4);
    SplitGlued(x4, g5, v5);
    SplitGlued(x5, g6, v6);
  }

  // Solver hints, not properties of the client: the literal pieces of the
  // command texts, cut at their spaces, and the fixed words, which hold no
  // space.  They are stated apart so that the shape lemmas work on abstract
  // text and never unfold a literal string.

  /** The fixed text of the daemon command, cut at its spaces. */
  lemma StartClientPieces()
    ensures "awa_clientd --port " == "awa_clientd" + (" " + "--port" + " ")
      && " --ipcPort " == " " + "--ipcPort" + " "
      && " --endPointName " == " " + "--endPointName" + " "
  {
  }

  lemma StartClientTailPieces()
    ensures " --bootstrap " == " " + "--bootstrap" + " "
      && " --pskIdentity=" == " " + "--pskIdentity="
      && " --pskKey=" == " " + "--pskKey="
  {
  }

  /** The fixed words of the daemon command hold no space. */
  lemma StartClientFixedWords()
    ensures ' ' !in "awa_clientd" && ' ' !in "--port" && ' ' !in "--ipcPort" && ' ' !in "--endPointName"
    ensures ' ' !in "--bootstrap" && ' ' !in "--pskIdentity=" && ' ' !in "--pskKey="
  {
  }

  lemma BootstrapUriIsOneWord()
    ensures ' ' !in BootstrapUri
  {
  }

  /** The fixed text of the other commands, cut at its spaces. */
  lemma CommandPieces()
    ensures "awa-client-define --ipcPort=" == "awa-client-define" + (" " + "--ipcPort=")
    ensures "awa-client-set -p " == "awa-client-set" + (" " + "-p" + " ")
    ensures " --create " == " " + "--create" + " "
    ensures "awa-client-subscribe -p " == "awa-client-subscribe" + (" " + "-p" + " ")
  {
  }

  lemma CommandFixedWords()
    ensures ' ' !in "awa-client-define" && ' ' !in "--ipcPort=" && ' ' !in "awa-client-set"
    ensures ' ' !in "-p" && ' ' !in "--create" && ' ' !in "awa-client-subscribe"
  {
  }

  /** The shape of the define command line, with its fixed words left open. */
  lemma SplitGluedLine(tool: string, flag: string, port: string, rest: string)
    requires ' ' !in tool && ' ' !in flag && ' ' !in port
    ensures Split(tool + (" " + flag) + port + " " + rest) == [tool, flag + port] + Split(rest)
  {
    SplitWord(tool);
    SplitGlued(tool, flag, port);
    SplitSpace(tool + (" " + flag) + port, rest);
  }

  /** The shape of the create command line, with its fixed words left open. */
  lemma SplitFlagLine(tool: string, flag: string, port: string, option: string, rest: string)
    requires ' ' !in tool && ' ' !in flag && ' ' !in port && ' ' !in option
    ensures Split(tool + (" " + flag + " ") + port + (" " + option + " ") + rest) == [tool, flag, port, option] + Split(rest)
  {
    SplitWord(tool);
    SplitFlagValue(tool, flag, port);
    SplitFlagRest(tool + (" " + flag + " ") + port, option, rest);
  }

  /** The shape of the subscribe command line, with its fixed words left open. */
  lemma SplitPortLine(tool: string, flag: string, port: string, rest: string)
    requires ' ' !in tool && ' ' !in flag && ' ' !in port
    ensures Split(tool + (" " + flag + " ") + port + " " + rest) == [tool, flag, port] + Split(rest)
  {
    SplitWord(tool);
    SplitFlagValue(tool, flag, port);
    SplitSpace(tool + (" " + flag + " ") + port, rest);
  }

  /** The define command names the daemon's IPC port and then carries the words of `arg`. */
  lemma DefineWords(c: Client, arg: string)
    requires ' ' !in c.ipcPort
    ensures Split(DefineCommand(c, arg)) == ["awa-client-define", "--ipcPort=" + c.ipcPort] + Split(arg)
  {
    CommandPieces();
    CommandFixedWords();
    SplitGluedLine("awa-client-define", "--ipcPort=", c.ipcPort, arg);
  }

  /** The create command is the set tool, the IPC port, `--create` and then the words of `path`. */
  lemma CreateWords(c: Client, path: string)
    requires ' ' !in c.ipcPort
    ensures Split(CreateCommand(c, path)) == ["awa-client-set", "-p", c.ipcPort, "--create"] + Split(path)
  {
    CommandPieces();
    CommandFixedWords();
    SplitFlagLine("awa-client-set", "-p", c.ipcPort, "--create", path);
  }

  /** The set command is the set tool, the IPC port and then the words of `path=value`. */
  lemma SetWords(c: Client, path: string, value: bool)
    requires ' ' !in c.ipcPort
    ensures Split(SetCommand(c, path, value)) == ["awa-client-set", "-p", c.ipcPort] + Split(path + "=" + PyBool(value))
  {
    CommandPieces();
    CommandFixedWords();
    SplitAssignmentLine("awa-client-set", "-p", c.ipcPort, path, PyBool(value));
  }

  /** With a path free of spaces the command has exactly four words, the last `path=True` or `path=False`. */
  lemma SetWordsPlainPath(c: Client, path: string, value: bool)
    requires ' ' !in c.ipcPort && ' ' !in path
    ensures Split(SetCommand(c, path, value)) == ["awa-client-set", "-p", c.ipcPort, path + "=" + PyBool(value)]
  {
    SetWords(c, path, value);
    AssignmentIsOneWord(path, PyBool(value));
  }

  lemma AssignmentIsOneWord(key: string, v: string)
    requires ' ' !in key && ' ' !in v
    ensures Split(key + "=" + v) == [key + "=" + v]
  {
    SplitWord(key + "=" + v);
  }

  /** The shape of the set command line, with its fixed words left open. */
  lemma SplitAssignmentLine(tool: string, flag: string, port: string, key: string, v: string)
    requires ' ' !in tool && ' ' !in flag && ' ' !in port
    ensures Split(tool + (" " + flag + " ") + port + " " + key + "=" + v) == [tool, flag, port] + Split(key + "=" + v)
  {
    var head := tool + (" " + flag + " ") + port;
    SplitWord(tool);
    SplitFlagValue(tool, flag, port);
    assert head + " " + key + "=" + v == head + " " + (key + "=" + v);
    SplitSpace(head, key + "=" + v);
  }

  /** The set command ends in `=True` or `=False`, after the path. */
  lemma SetCommandEnding(c: Client, path: string, value: bool)
    ensures var cmd := SetCommand(c, path, value);
      var tail := path + "=" + PyBool(value);
      |tail| <= |cmd| && cmd[|cmd| - |tail|..] == tail
    ensures value ==> var cmd := SetCommand(c, path, value); cmd[|cmd| - 5..] == "=True"
    ensures !value ==> var cmd := SetCommand(c, path, value); cmd[|cmd| - 6..] == "=False"
  {
    var cmd := SetCommand(c, path, value);
    var head := "awa-client-set -p " + c.ipcPort + " ";
    assert cmd == head + (path + "=" + PyBool(value));
    assert cmd == (head + path) + ("=" + PyBool(value));
  }

  /** The subscribe command is the subscribe tool, the IPC port and then the words of `path`. */
  lemma SubscribeWords(c: Client, path: string)
    requires ' ' !in c.ipcPort
    ensures Split(SubscribeCommand(c, path)) == ["awa-client-subscribe", "-p", c.ipcPort] + Split(path)
  {
    CommandPieces();
    CommandFixedWords();
    SplitPortLine("awa-client-subscribe", "-p", c.ipcPort, path);
  }
}
