/**
 * Execution of classified commands (src/lib.rs, `Command::execute` and the
 * `cmd_*` handlers). Output is the sequence of lines written so far, each
 * tagged with its stream; the process environment and the file system are
 * the oracles of a `Host`.
 */
module Execution {
  import opened Wrappers
  import opened Text
  import opened Commands

  datatype Stream = Stdout | Stderr

  /** One `println!` / `eprintln!`: the stream and the text before the newline. */
  datatype Line = Line(stream: Stream, text: string)

  /**
   * What the handlers ask of the operating system:
   * `pathVar` is the value of `env::var("PATH")` (None when it cannot be read),
   * `isFile(cwd, candidate)` is `Path::is_file` of `candidate` while the
   * working directory is `cwd` (a relative candidate is resolved against it),
   * `joinPath(dir, name)` is the displayed `Path::new(dir).join(name)`, and `setCurrentDir(cwd, path)` is the working
   * directory after `env::set_current_dir(path)` from `cwd`, None when it fails.
   */
  datatype Host = Host(
    pathVar: Option<string>,
    isFile: (string, string) -> bool,
    joinPath: (string, string) -> string,
    setCurrentDir: (string, string) -> Option<string>)

  /** How `execute` ends: `Ok(())`, process exit, or a request to spawn a program. */
  datatype Outcome = Completed | Exited(code: i32) | External(command: string, args: seq<string>)

  const PathReadError: string := "Failed to read from `PATH` environment variable"

  function BuiltinLine(name: string): Line
  {
    Line(Stdout, name + " is a shell builtin")
  }

  function CdError(path: string): Line
  {
    Line(Stderr, "cd: " + path + ": No such file or directory")
  }

  predicate IsBuiltin(name: string)
  {
    name in BuiltinCommands
  }

  /** `cmd_echo`: one stdout line, the arguments joined by single spaces. */
  function EchoOutput(args: seq<string>): (out: seq<Line>)
    ensures |out| == 1 && out[0].stream == Stdout
    ensures args == [] ==> out[0].text == ""
    ensures |args| > 0 && (forall k :: 0 <= k < |args| ==> ' ' !in args[k]) ==>
              Split(out[0].text, ' ') == args
  {
    var text := Join(args, " ");
    assert |args| > 0 && (forall k :: 0 <= k < |args| ==> ' ' !in args[k]) ==> Split(text, ' ') == args by {
      if |args| > 0 && (forall k :: 0 <= k < |args| ==> ' ' !in args[k]) {
        SplitJoin(args, ' ');
      }
    }
    [Line(Stdout, text)]
  }

  /** The candidate at index `k` is a file and no earlier candidate is. */
  predicate FirstFileAt(dirs: seq<string>, name: string, host: Host, cwd: string, k: int)
  {
    0 <= k < |dirs| && host.isFile(cwd, host.joinPath(dirs[k], name))
    && forall j :: 0 <= j < k ==> !host.isFile(cwd, host.joinPath(dirs[j], name))
  }

  /** The first of the candidates `joinPath(dir, name)`, dirs in order, that is a file. */
  function FirstFile(dirs: seq<string>, name: string, host: Host, cwd: string): (r: Option<string>)
    ensures r.None? <==> forall k :: 0 <= k < |dirs| ==> !host.isFile(cwd, host.joinPath(dirs[k], name))
    ensures forall k :: FirstFileAt(dirs, name, host, cwd, k) ==> r == Some(host.joinPath(dirs[k], name))
  {
    if |dirs| == 0 then None
    else if host.isFile(cwd, host.joinPath(dirs[0], name)) then Some(host.joinPath(dirs[0], name))
    else
      var r := FirstFile(dirs[1..], name, host, cwd);
      assert forall k :: FirstFileAt(dirs, name, host, cwd, k) ==> FirstFileAt(dirs[1..], name, host, cwd, k - 1);
      r
  }

  /** The lazy `find` over the PATH candidates. */
  method FindFile(dirs: seq<string>, name: string, host: Host, cwd: string) returns (found: Option<string>)
    ensures found == FirstFile(dirs, name, host, cwd)
  {
    var k := 0;
    while k < |dirs|
      invariant 0 <= k <= |dirs|
      invariant FirstFile(dirs[k..], name, host, cwd) == FirstFile(dirs, name, host, cwd)
    {
      var candidate := host.joinPath(dirs[k], name);
      if host.isFile(cwd, candidate) {
        return Some(candidate);
      }
      assert dirs[k..][1..] == dirs[k + 1..];
      k := k + 1;
    }
    return None;
  }

  /** What `type` reports for a name that is not a builtin, PATH being `pathValue`. */
  function Lookup(name: string, pathValue: string, host: Host, cwd: string): Line
  {
    match FirstFile(Split(pathValue, ':'), name, host, cwd)
    case Some(full) => Line(Stdout, name + " is " + full)
    case None => Line(Stderr, name + ": not found")
  }

  /** Everything `cmd_type` writes for `commands`. */
  function TypeOutput(commands: seq<string>, host: Host, cwd: string): seq<Line>
  {
    if |commands| == 0 then []
    else if IsBuiltin(commands[0]) then [BuiltinLine(commands[0])] + TypeOutput(commands[1..], host, cwd)
    else
      match host.pathVar
      case None => [Line(Stderr, PathReadError)]
      case Some(p) => [Lookup(commands[0], p, host, cwd)] + TypeOutput(commands[1..], host, cwd)
  }

  /** The report for one argument when PATH can be read. */
  function Report(name: string, pathValue: string, host: Host, cwd: string): Line
  {
    if IsBuiltin(name) then BuiltinLine(name) else Lookup(name, pathValue, host, cwd)
  }

  /**
   * The output of `type` for a prefix of builtins, or with a readable PATH,
   * is followed directly by the output for the rest.
   */
  lemma {:induction false} TypeOutputAppend(a: seq<string>, b: seq<string>, host: Host, cwd: string)
    requires host.pathVar.Some? || forall k :: 0 <= k < |a| ==> IsBuiltin(a[k])
    ensures TypeOutput(a + b, host, cwd) == TypeOutput(a, host, cwd) + TypeOutput(b, host, cwd)
  {
    if |a| > 0 {
      assert (a + b)[1..] == a[1..] + b;
      TypeOutputAppend(a[1..], b, host, cwd);
    } else {
      assert a + b == b;
    }
  }

  /** One more argument of a prefix that `type` gets through. */
  lemma TypeOutputStep(commands: seq<string>, i: nat, host: Host, cwd: string)
    requires i < |commands|
    requires host.pathVar.Some? || forall k :: 0 <= k < i ==> IsBuiltin(commands[k])
    ensures TypeOutput(commands[..i + 1], host, cwd) == TypeOutput(commands[..i], host, cwd) + TypeOutput([commands[i]], host, cwd)
  {
    assert commands[..i + 1] == commands[..i] + [commands[i]];
    TypeOutputAppend(commands[..i], [commands[i]], host, cwd);
  }

  /** The first non-builtin reached without a readable PATH ends the output. */
  lemma TypeOutputStop(commands: seq<string>, i: nat, host: Host, cwd: string)
    requires i < |commands| && host.pathVar.None? && !IsBuiltin(commands[i])
    requires forall k :: 0 <= k < i ==> IsBuiltin(commands[k])
    ensures TypeOutput(commands, host, cwd) == TypeOutput(commands[..i], host, cwd) + [Line(Stderr, PathReadError)]
  {
    assert commands == commands[..i] + commands[i..];
    TypeOutputAppend(commands[..i], commands[i..], host, cwd);
  }

  /** `cmd_type`: for each argument in order, report a builtin or search PATH. */
  method TypeCmd(commands: seq<string>, host: Host, cwd: string) returns (out: seq<Line>)
    ensures out == TypeOutput(commands, host, cwd)
  {
    out := [];
    for i := 0 to |commands|
      invariant host.pathVar.Some? || forall k :: 0 <= k < i ==> IsBuiltin(commands[k])
      invariant out == TypeOutput(commands[..i], host, cwd)
    {
      var command := commands[i];
      if command in BuiltinCommands {
        TypeOutputStep(commands, i, host, cwd);
        assert TypeOutput([command], host, cwd) == [BuiltinLine(command)];
        out := out + [BuiltinLine(command)];
        continue;
      }
      if host.pathVar.None? {
        TypeOutputStop(commands, i, host, cwd);
        out := out + [Line(Stderr, PathReadError)];
        return;
      }
      TypeOutputStep(commands, i, host, cwd);
      var pathEnv := host.pathVar.value;
      var found := FindFile(Split(pathEnv, ':'), command, host, cwd);
      assert TypeOutput([command], host, cwd) == [Lookup(command, pathEnv, host, cwd)];
      if found.Some? {
        out := out + [Line(Stdout, command + " is " + found.value)];
      } else {
        out := out + [Line(Stderr, command + ": not found")];
      }
    }
    assert commands[..|commands|] == commands;
  }

  /** With a readable PATH, `type` writes exactly one line per argument, in argument order. */
  lemma {:induction false} TypeOneLinePerArgument(commands: seq<string>, host: Host, cwd: string)
    requires host.pathVar.Some?
    ensures |TypeOutput(commands, host, cwd)| == |commands|
    ensures forall k :: 0 <= k < |commands| ==>
              TypeOutput(commands, host, cwd)[k] == Report(commands[k], host.pathVar.value, host, cwd)
  {
    if |commands| > 0 {
      TypeOneLinePerArgument(commands[1..], host, cwd);
    }
  }

  /**
   * Builtin names are reported without consulting PATH at all: the output is
   * the same for any host and any working directory.
   */
  lemma {:induction false} TypeBuiltinsIgnorePath(commands: seq<string>, host: Host, cwd: string, other: Host, otherCwd: string)
    requires forall k :: 0 <= k < |commands| ==> IsBuiltin(commands[k])
    ensures TypeOutput(commands, host, cwd) == TypeOutput(commands, other, otherCwd)
    ensures |TypeOutput(commands, host, cwd)| == |commands|
    ensures forall k :: 0 <= k < |commands| ==> TypeOutput(commands, host, cwd)[k] == BuiltinLine(commands[k])
  {
    if |commands| > 0 {
      TypeBuiltinsIgnorePath(commands[1..], host, cwd, other, otherCwd);
    }
  }

  /**
   * When PATH cannot be read, the builtins before the first other name are
   * reported, then one error line, and the remaining arguments produce nothing.
   */
  lemma {:induction false} TypeWithoutPath(commands: seq<string>, host: Host, cwd: string, stop: nat)
    requires host.pathVar.None?
    requires stop < |commands| && !IsBuiltin(commands[stop])
    requires forall k :: 0 <= k < stop ==> IsBuiltin(commands[k])
    ensures |TypeOutput(commands, host, cwd)| == stop + 1
    ensures forall k :: 0 <= k < stop ==> TypeOutput(commands, host, cwd)[k] == BuiltinLine(commands[k])
    ensures TypeOutput(commands, host, cwd)[stop] == Line(Stderr, PathReadError)
  {
    if stop > 0 {
      TypeWithoutPath(commands[1..], host, cwd, stop - 1);
    }
  }

  /**
   * The PATH search for one name reports the first directory, in PATH order,
   * whose candidate is a file, and "not found" on stderr when there is none.
   */
  lemma TypePathSearch(name: string, pathValue: string, host: Host, cwd: string)
    requires !IsBuiltin(name) && host.pathVar == Some(pathValue)
    ensures TypeOutput([name], host, cwd) == [Line(Stderr, name + ": not found")] <==>
              forall k :: 0 <= k < |Split(pathValue, ':')| ==>
                !host.isFile(cwd, host.joinPath(Split(pathValue, ':')[k], name))
    ensures forall k :: FirstFileAt(Split(pathValue, ':'), name, host, cwd, k) ==>
              TypeOutput([name], host, cwd) == [Line(Stdout, name + " is " + host.joinPath(Split(pathValue, ':')[k], name))]
  {
    var dirs := Split(pathValue, ':');
    assert TypeOutput([name], host, cwd) == [Lookup(name, pathValue, host, cwd)];
    match FirstFile(dirs, name, host, cwd)
    case Some(full) => assert Lookup(name, pathValue, host, cwd).stream == Stdout;
    case None =>
  }

  /**
   * `type cd` is not answered as a builtin: "cd" is missing from the builtin
   * list, so the name goes to the PATH search, or to the PATH read error.
   */
  lemma TypeCdSearchesPath(host: Host, cwd: string)
    ensures !IsBuiltin("cd")
    ensures host.pathVar.Some? ==> TypeOutput(["cd"], host, cwd) == [Lookup("cd", host.pathVar.value, host, cwd)]
    ensures host.pathVar.None? ==> TypeOutput(["cd"], host, cwd) == [Line(Stderr, PathReadError)]
  {
  }

  /**
   * The interpreter's process state: the working directory and the lines
   * written to the terminal so far.
   */
  class Shell {
    var cwd: string
    var output: seq<Line>
    const host: Host

    constructor (start: string, host: Host)
      ensures cwd == start && output == [] && this.host == host
    {
      cwd := start;
      output := [];
      this.host := host;
    }

    /** `cmd_cd`: change directory, or report the failure and carry on. */
    method ChangeDir(path: string)
      modifies this
      ensures host.setCurrentDir(old(cwd), path).Some? ==>
                cwd == host.setCurrentDir(old(cwd), path).value && output == old(output)
      ensures host.setCurrentDir(old(cwd), path).None? ==>
                cwd == old(cwd) && output == old(output) + [CdError(path)]
    {
      match host.setCurrentDir(cwd, path)
      case Some(dir) => cwd := dir;
      case None => output := output + [CdError(path)];
    }

    /** `cmd_pwd`: print the working directory. */
    method PrintDir()
      modifies this
      ensures cwd == old(cwd) && output == old(output) + [Line(Stdout, cwd)]
    {
      output := output + [Line(Stdout, cwd)];
    }

    /** `Command::execute`: dispatch on the variant. */
    method Execute(cmd: Command) returns (r: Outcome)
      modifies this
      ensures cmd.Exit? ==> r == Exited(cmd.code) && cwd == old(cwd) && output == old(output)
      ensures cmd.Echo? ==> r == Completed && cwd == old(cwd) && output == old(output) + EchoOutput(cmd.args)
      ensures cmd.Type? ==> r == Completed && cwd == old(cwd) && output == old(output) + TypeOutput(cmd.args, host, old(cwd))
      ensures cmd.Pwd? ==> r == Completed && cwd == old(cwd) && output == old(output) + [Line(Stdout, cwd)]
      ensures cmd.Cd? ==> r == Completed
      ensures cmd.Cd? && host.setCurrentDir(old(cwd), cmd.path).Some? ==>
                cwd == host.setCurrentDir(old(cwd), cmd.path).value && output == old(output)
      ensures cmd.Cd? && host.setCurrentDir(old(cwd), cmd.path).None? ==>
                cwd == old(cwd) && output == old(output) + [CdError(cmd.path)]
      ensures cmd.Other? ==> r == External(cmd.command, cmd.args) && cwd == old(cwd) && output == old(output)
    {
      match cmd
      case Exit(code) =>
        r := Exited(code);
      case Echo(args) =>
        output := output + EchoOutput(args);
        r := Completed;
      case Type(args) =>
        var lines := TypeCmd(args, host, cwd);
        output := output + lines;
        r := Completed;
      case Pwd =>
        PrintDir();
        r := Completed;
      case Cd(path) =>
        ChangeDir(path);
        r := Completed;
      case Other(command, args) =>
        r := External(command, args);
    }
  }

  /**
   * `cd <path>` followed by `pwd` on a fresh shell: the new directory is
   * printed, or after a failed `cd` its diagnostic and the unchanged one.
   */
  method CdThenPwd(start: string, path: string, host: Host) returns (printed: seq<Line>)
    ensures host.setCurrentDir(start, path).Some? ==>
              printed == [Line(Stdout, host.setCurrentDir(start, path).value)]
    ensures host.setCurrentDir(start, path).None? ==>
              printed == [CdError(path), Line(Stdout, start)]
  {
    var shell := new Shell(start, host);
    var cdDone := shell.Execute(Cd(path));
    var pwdDone := shell.Execute(Pwd);
    printed := shell.output;
  }

  /**
   * `cd <path>` followed by `type <names>` on a fresh shell: the PATH search
   * runs in the directory that `cd` left, so relative candidates resolve there.
   */
  method CdThenType(start: string, path: string, names: seq<string>, host: Host) returns (printed: seq<Line>)
    ensures host.setCurrentDir(start, path).Some? ==>
              printed == TypeOutput(names, host, host.setCurrentDir(start, path).value)
    ensures host.setCurrentDir(start, path).None? ==>
              printed == [CdError(path)] + TypeOutput(names, host, start)
  {
    var shell := new Shell(start, host);
    var cdDone := shell.Execute(Cd(path));
    var typeDone := shell.Execute(Type(names));
    printed := shell.output;
  }
}
