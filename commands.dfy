/**
 * The command classifier of the shell: the closed set of command variants
 * and the shape-directed parse of a non-empty token sequence into one of
 * them (src/lib.rs, `enum Command` and `Command::parse`).
 */
module Commands {
  import opened Wrappers

  /** Rust's `i32`: the exit code's range. */
  newtype i32 = x: int | -0x8000_0000 <= x < 0x8000_0000

  /** One command line, classified. A `Cd` path is the token as written. */
  datatype Command =
    | Exit(code: i32)
    | Echo(args: seq<string>)
    | Type(args: seq<string>)
    | Pwd
    | Cd(path: string)
    | Other(command: string, args: seq<string>)

  /** The outcome of classification: a command, or the panic of a bad exit code. */
  datatype Parsed = Parsed(cmd: Command) | Panicked(message: string)

  /** The names that `type` reports as shell builtins; "cd" is not among them. */
  const BuiltinCommands: seq<string> := ["exit", "echo", "type", "pwd"]

  /** The message of the panic raised when the exit code is not an `i32`. */
  const ExitCodePanic: string := "exit code should be a valid i32 value"

  /** The first words that select a builtin shape. */
  predicate IsKeyword(word: string)
  {
    word == "exit" || word == "echo" || word == "type" || word == "pwd" || word == "cd"
  }

  /**
   * A command as the classifier would produce it: an `Other` only when no
   * builtin shape matches its first word and argument count.
   */
  predicate Canonical(c: Command)
  {
    match c
    case Other(name, args) =>
      name != "echo" && name != "type"
      && !(name == "exit" && |args| == 1)
      && !(name == "pwd" && |args| == 0)
      && !(name == "cd" && |args| == 1)
    case _ => true
  }

  /** The tokens that spell `c`, with `show` writing out an exit code. */
  function Unparse(c: Command, show: i32 -> string): seq<string>
  {
    match c
    case Exit(code) => ["exit", show(code)]
    case Echo(args) => ["echo"] + args
    case Type(args) => ["type"] + args
    case Pwd => ["pwd"]
    case Cd(path) => ["cd", path]
    case Other(name, args) => [name] + args
  }

  /**
   * `Command::parse`: the first matching shape, tried in the order
   * `exit <code>`, `echo ..`, `type ..`, `pwd`, `cd <path>`, anything else.
   * `parseI32` stands for `i32::from_str`; its failure is the panic.
   */
  function Parse(tokens: seq<string>, parseI32: string -> Option<i32>): (r: Parsed)
    requires |tokens| > 0
    ensures r.Panicked? <==> |tokens| == 2 && tokens[0] == "exit" && parseI32(tokens[1]).None?
    ensures r.Panicked? ==> r.message == ExitCodePanic
    ensures r.Parsed? ==> Canonical(r.cmd)
    ensures r.Parsed? && r.cmd.Exit? ==> |tokens| == 2 && tokens[0] == "exit" && parseI32(tokens[1]) == Some(r.cmd.code)
  {
    if |tokens| == 2 && tokens[0] == "exit" then
      match parseI32(tokens[1])
      case Some(code) => Parsed(Exit(code))
      case None => Panicked(ExitCodePanic)
    else if tokens[0] == "echo" then Parsed(Echo(tokens[1..]))
    else if tokens[0] == "type" then Parsed(Type(tokens[1..]))
    else if |tokens| == 1 && tokens[0] == "pwd" then Parsed(Pwd)
    else if |tokens| == 2 && tokens[0] == "cd" then Parsed(Cd(tokens[1]))
    else Parsed(Other(tokens[0], tokens[1..]))
  }

  /**
   * Classification loses nothing but the spelling of an exit code: every
   * other command it produces spells exactly the input tokens.
   */
  lemma ParseIsLossless(tokens: seq<string>, parseI32: string -> Option<i32>, show: i32 -> string)
    requires |tokens| > 0
    ensures Parse(tokens, parseI32).Parsed? && !Parse(tokens, parseI32).cmd.Exit? ==>
              Unparse(Parse(tokens, parseI32).cmd, show) == tokens
  {
  }

  /**
   * Every canonical command is what the classifier makes of its spelling,
   * provided `show` writes exit codes that `parseI32` reads back.
   */
  lemma ParseUnparse(c: Command, parseI32: string -> Option<i32>, show: i32 -> string)
    requires Canonical(c)
    requires c.Exit? ==> parseI32(show(c.code)) == Some(c.code)
    ensures Parse(Unparse(c, show), parseI32) == Parsed(c)
  {
  }

  /** A first word that is no keyword makes an `Other` of the very tokens. */
  lemma ParseOtherFallback(tokens: seq<string>, parseI32: string -> Option<i32>)
    requires |tokens| > 0 && !IsKeyword(tokens[0])
    ensures Parse(tokens, parseI32) == Parsed(Other(tokens[0], tokens[1..]))
    ensures |Parse(tokens, parseI32).cmd.args| == |tokens| - 1
  {
  }

  /** `exit` with exactly one argument is `Exit` of its parsed value, or the panic. */
  lemma ParseExit(code: string, parseI32: string -> Option<i32>)
    ensures parseI32(code).Some? ==> Parse(["exit", code], parseI32) == Parsed(Exit(parseI32(code).value))
    ensures parseI32(code).None? ==> Parse(["exit", code], parseI32) == Panicked(ExitCodePanic)
  {
  }

  /** `pwd` alone is `Pwd`; `cd` with one argument is `Cd` of that literal path. */
  lemma ParsePwdCd(path: string, parseI32: string -> Option<i32>)
    ensures Parse(["pwd"], parseI32) == Parsed(Pwd)
    ensures Parse(["cd", path], parseI32) == Parsed(Cd(path))
    ensures Parse(["cd", "~"], parseI32) == Parsed(Cd("~"))
  {
  }

  /**
   * With any other number of arguments, `exit`, `pwd` and `cd` are not
   * builtins: they fall through to `Other` named by the keyword.
   */
  lemma ParseArityFallthrough(tokens: seq<string>, parseI32: string -> Option<i32>)
    requires |tokens| > 0
    requires (tokens[0] == "exit" && |tokens| != 2)
          || (tokens[0] == "pwd" && |tokens| != 1)
          || (tokens[0] == "cd" && |tokens| != 2)
    ensures Parse(tokens, parseI32) == Parsed(Other(tokens[0], tokens[1..]))
  {
  }

  /** `echo` and `type` take every remaining token, none at all included. */
  lemma ParseEchoType(args: seq<string>, parseI32: string -> Option<i32>)
    ensures Parse(["echo"] + args, parseI32) == Parsed(Echo(args))
    ensures Parse(["type"] + args, parseI32) == Parsed(Type(args))
  {
  }
}
