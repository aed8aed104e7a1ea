/**
 * The older dispatcher of the repository's first REPL: the same registry and the same
 * parse, but `processInput` returns the output instead of reporting it, and its
 * unknown-command error has no final period.
 */
module LegacyTerminal {
  import Text
  import opened Terminal

  const LegacyUnknownCommand: string := "Error - unknown command"

  /** The older `processInput`: the handler's result, or the unknown-command error. */
  function ProcessInput(commands: map<string, Handler>, userInput: string): Output
  {
    var c := Parse(userInput);
    if c.name in commands then commands[c.name](c.args) else Message(LegacyUnknownCommand)
  }

  /**
   * The older dispatcher agrees with the frontend one on every registered command,
   * and differs only in the error text, which lacks the frontend's final period.
   */
  lemma AgreesWithFrontend(commands: map<string, Handler>, userInput: string)
    ensures Parse(userInput).name in commands ==>
      ProcessInput(commands, userInput) == Dispatch(commands, userInput)
    ensures Parse(userInput).name !in commands ==>
      && ProcessInput(commands, userInput) == Message(LegacyUnknownCommand)
      && Dispatch(commands, userInput) == Message(UnknownCommand)
    ensures UnknownCommand == LegacyUnknownCommand + "."
  {
  }

  /**
   * Registering `f` under a space-free `name` overwrites any earlier handler: the
   * input `name` followed by arguments runs `f` on exactly those arguments.
   */
  lemma RegisterOverwrites(commands: map<string, Handler>, name: string, f: Handler, rest: string)
    requires ' ' !in name
    ensures ProcessInput(commands[name := f], name) == f([])
    ensures ProcessInput(commands[name := f], name + " " + rest) == f(Text.Split(rest, ' '))
  {
    ParseWord(name);
    ParseNameThenArgs(name, rest);
  }
}
