/**
 * The frontend REPL's command registry and dispatcher: a map from command names to
 * handlers, a parser that splits the input on single spaces, and `processInput`,
 * which looks the command up, runs its handler or substitutes the unknown-command
 * error, and hands exactly one output to `addOutput`.
 *
 * Handlers return promises in the source; here a handler is a total function that
 * returns the value its promise settles to.
 */
module Terminal {
  import opened Wrappers
  import Text

  /** What a handler's promise settles to: a message, a CSV table element, or `undefined`. */
  datatype Output = Message(text: string) | Grid(data: seq<seq<string>>) | Undefined

  /** A registered command (`REPLFunction`): arguments in, settled output out. */
  type Handler = seq<string> -> Output

  const UnknownCommand: string := "Error - unknown command."

  /** The parsed form of an input line: token 0 and the remaining tokens. */
  datatype Command = Command(name: string, args: seq<string>)

  /** `userInput.split(" ")`, token 0 as the command name and the rest as its arguments. */
  function Parse(userInput: string): (c: Command)
  {
    var input := Text.Split(userInput, ' ');
    Command(input[0], input[1..])
  }

  /** The output `processInput` reports for `userInput` against the registry contents `commands`. */
  function Dispatch(commands: map<string, Handler>, userInput: string): Output
  {
    var c := Parse(userInput);
    if c.name in commands then commands[c.name](c.args) else Message(UnknownCommand)
  }

  // ---------------------------------------------------------------------------
  // The parser

  /**
   * Name and arguments joined by single spaces reproduce the input exactly; there are
   * as many arguments as spaces, and no token holds a space.
   */
  lemma ParseRoundTrip(userInput: string)
    ensures var c := Parse(userInput);
      && Text.Join([c.name] + c.args, ' ') == userInput
      && |c.args| == Text.Occurrences(userInput, ' ')
      && ' ' !in c.name
      && forall i :: 0 <= i < |c.args| ==> ' ' !in c.args[i]
  {
    var input := Text.Split(userInput, ' ');
    Text.SplitJoin(userInput, ' ');
    Text.SplitShape(userInput, ' ');
    assert [input[0]] + input[1..] == input;
    forall i | 0 <= i < |input| - 1 ensures ' ' !in input[1..][i] {
      assert input[1..][i] == input[i + 1];
    }
  }

  /** The empty input has the empty name and no arguments. */
  lemma ParseEmpty()
    ensures Parse("") == Command("", [])
  {
    assert Text.Split("", ' ') == [""];
  }

  /** A space-free word followed by a space and any text: the word is the name, the text's tokens the arguments. */
  lemma {:induction false} ParseNameThenArgs(name: string, rest: string)
    requires ' ' !in name
    ensures Parse(name + " " + rest) == Command(name, Text.Split(rest, ' '))
  {
    forall i | 0 <= i < |name| ensures name[i] !in {' '} { }
    Text.SplitAnyPrefix(name, " " + rest, {' '});
    var t := " " + rest;
    assert t[0] == ' ' && t[1..] == rest;
    assert Text.SplitAny(t, {' '}) == [""] + Text.SplitAny(rest, {' '});
    assert name + " " + rest == name + t;
    assert name + "" == name;
  }

  /** A space-free input is a command name with no arguments. */
  lemma ParseWord(word: string)
    requires ' ' !in word
    ensures Parse(word) == Command(word, [])
  {
    Text.SplitWithout(word, ' ');
  }

  // ---------------------------------------------------------------------------
  // Dispatch

  /** The output is the handler's result on the parsed arguments, or exactly the unknown-command error. */
  lemma DispatchOutcome(commands: map<string, Handler>, userInput: string)
    ensures var c := Parse(userInput);
      && (c.name in commands ==> Dispatch(commands, userInput) == commands[c.name](c.args))
      && (c.name !in commands ==> Dispatch(commands, userInput) == Message(UnknownCommand))
  {
  }

  /** The empty input is an unknown command unless a handler is registered under the empty name. */
  lemma DispatchEmpty(commands: map<string, Handler>)
    requires "" !in commands
    ensures Dispatch(commands, "") == Message(UnknownCommand)
  {
    ParseEmpty();
  }

  /** A word that is not registered is an unknown command, whatever arguments follow it. */
  lemma DispatchUnregistered(commands: map<string, Handler>, name: string, rest: string)
    requires ' ' !in name && name !in commands
    ensures Dispatch(commands, name) == Message(UnknownCommand)
    ensures Dispatch(commands, name + " " + rest) == Message(UnknownCommand)
  {
    ParseWord(name);
    ParseNameThenArgs(name, rest);
  }

  /**
   * Registering `f` under `name` makes inputs naming `name` run `f` on their
   * arguments, and leaves the output of every other input as it was.
   */
  lemma DispatchAfterRegister(commands: map<string, Handler>, name: string, f: Handler, userInput: string)
    ensures Parse(userInput).name == name ==>
      Dispatch(commands[name := f], userInput) == f(Parse(userInput).args)
    ensures Parse(userInput).name != name ==>
      Dispatch(commands[name := f], userInput) == Dispatch(commands, userInput)
  {
  }

  // ---------------------------------------------------------------------------
  // The registry and the output callback

  /** Receives what `processInput` reports (`addOutput`); keeps everything it was given, in order. */
  class OutputSink {
    var outputs: seq<Output>

    constructor ()
      ensures outputs == []
    {
      outputs := [];
    }

    method AddOutput(output: Output)
      modifies this
      ensures outputs == old(outputs) + [output]
    {
      outputs := outputs + [output];
    }
  }

  /** The module-level `commands` map with `registerCommand` and `processInput`. */
  class CommandRegistry {
    var commands: map<string, Handler>

    constructor ()
      ensures commands == map[]
    {
      commands := map[];
    }

    /** `registerCommand`: stores the handler under the name, replacing any earlier one. */
    method RegisterCommand(endpoint: string, commandFunc: Handler)
      modifies this
      ensures commands == old(commands)[endpoint := commandFunc]
      ensures endpoint in commands && commands[endpoint] == commandFunc
      ensures forall n :: n != endpoint ==> (n in commands <==> n in old(commands))
      ensures forall n :: n != endpoint && n in commands ==> commands[n] == old(commands)[n]
    {
      commands := commands[endpoint := commandFunc];
    }

    /** `commands.get(name)`. */
    function Get(name: string): (h: Option<Handler>)
      reads this
      ensures h.Some? <==> name in commands
      ensures h.Some? ==> h.value == commands[name]
    {
      if name in commands then Some(commands[name]) else None
    }

    /**
     * `processInput`: parses, looks up, runs the handler or substitutes the error, and
     * reports exactly one output; the registry itself is left alone.
     */
    method ProcessInput(userInput: string, sink: OutputSink)
      modifies sink
      ensures sink.outputs == old(sink.outputs) + [Dispatch(commands, userInput)]
    {
      var input := Text.Split(userInput, ' ');
      var commandType := input[0];
      var args := input[1..];
      var result: Output;
      var command := Get(commandType);
      if command.Some? {
        result := command.value(args);
      } else {
        result := Message(UnknownCommand);
      }
      sink.AddOutput(result);
    }
  }
}
