# Command interpretation of a small Rust shell, modelled in Dafny

The shell reads a line, splits it into tokens, classifies the tokens as one
of a closed set of commands (`exit`, `echo`, `type`, `pwd`, `cd`, or an
external program), and executes the command. This project models the
classifier and the builtin handlers in `src/lib.rs`:

- `commands.dfy` — module `Commands`: the `Command` enum, the builtin-name
  list, and `Command::parse` as a total function on non-empty token
  sequences. The `i32` parse of the exit code is a parameter
  `parseI32: string -> Option<i32>`. When it fails, the result is the panic
  `Panicked("exit code should be a valid i32 value")`. `i32` is a newtype
  with the 32-bit signed range.
- `execution.dfy` — module `Execution`: output as a sequence of
  `Line(stream, text)` records, one per `println!`/`eprintln!`. A `Host`
  value stands for the operating system: the value of `PATH`
  (`Option<string>`, None when it cannot be read), `Path::is_file` (given the
  working directory, against which a relative candidate resolves), the
  displayed `Path::join`, and `env::set_current_dir`. `cmd_echo` is a
  function. `cmd_type` is a method with the source's loop, its `continue`
  and its early `return`. It is proved equal to the specification function
  `TypeOutput`, whose properties are lemmas. The PATH `find` is a loop
  proved equal to `FirstFile`. The process working directory and the
  terminal are the fields of a `Shell` class. `execute`, `cmd_cd` and
  `cmd_pwd` are its methods.
- `text.dfy` — module `Text`: `[&str]::join` and `str::split` (empty pieces
  kept), with both round trips between them.
- `wrappers.dfy` — module `Wrappers`: `Option`.

Three points where the code may surprise a reader:
- The builtin list `BUILTIN_COMMANDS` has four names and omits `cd`, so
  `type cd` searches PATH.
- `pwd` with arguments falls through to `Other`; it does not become `Pwd`.
- `cd ~` is a `Cd` of the literal path `~`. The code has no home-directory
  sentinel and never reads `HOME`.

## Model

| member | source | states |
|---|---|---|
| `Commands.Parse` | src/lib.rs:31-53 | Panics exactly when the tokens are `exit <t>` and `t` is not an `i32`, with the fixed message. Otherwise the command is canonical: `Other` only when no builtin shape matches. An `Exit` carries the parsed code of its single argument. |
| `Commands.ParseIsLossless` | src/lib.rs:31-53 | Every non-`Exit` command that parse produces spells back exactly the input tokens, in order. |
| `Commands.ParseUnparse` | src/lib.rs:8-53 | Every canonical command is recovered by parsing its spelling. For `Exit`, this needs a code text that the `i32` parse reads back. |
| `Commands.ParseOtherFallback` | src/lib.rs:47-50 | A first token that is not `exit`/`echo`/`type`/`pwd`/`cd` gives `Other(tokens[0], tokens[1..])`, with one argument fewer than there are tokens. |
| `Commands.ParseExit` | src/lib.rs:33-36 | `exit <code>` gives `Exit` of the parsed code, or the panic when the code does not parse. |
| `Commands.ParsePwdCd` | src/lib.rs:43-46 | `pwd` alone gives `Pwd`. `cd <path>` gives `Cd` of the literal path, `~` included. |
| `Commands.ParseArityFallthrough` | src/lib.rs:33-50 | `exit` and `cd` with other than one argument, and `pwd` with any argument, fall through to `Other` named by the keyword. |
| `Commands.ParseEchoType` | src/lib.rs:37-42 | `echo …` and `type …` take exactly the remaining tokens as arguments, including none. |
| `Text.Split` | src/lib.rs:87-88 | Splitting on `:` gives one more piece than there are separators, and no piece contains the separator. |
| `Text.JoinSplit` | src/lib.rs:87-88 | Rejoining the PATH pieces with `:` gives back the PATH value, so no directory is lost or reordered. |
| `Text.SplitJoin` | src/lib.rs:71 | A non-empty join of separator-free parts splits back into exactly those parts. |
| `Execution.EchoOutput` | src/lib.rs:70-73 | Echo writes exactly one stdout line. With no arguments the line is empty. When no argument contains a space, splitting the line on spaces gives back the arguments. |
| `Execution.FirstFile` | src/lib.rs:87-90 | None exactly when no candidate `join(dir, name)` is a file. Otherwise the result is the candidate of the first directory, in PATH order, whose candidate is a file. |
| `Execution.FindFile` | src/lib.rs:90 | The lazy search returns exactly `FirstFile` of the directories. |
| `Execution.TypeCmd` | src/lib.rs:75-97 | The loop writes exactly `TypeOutput` of its arguments, early return included. |
| `Execution.TypeOutputAppend` | src/lib.rs:76-95 | With a readable PATH, or after a run of builtins, the output for `a + b` is the output for `a` followed by the output for `b`. |
| `Execution.TypeOneLinePerArgument` | src/lib.rs:76-94 | With a readable PATH, there is exactly one line per argument, in argument order. Each line is the builtin report or the PATH-search report for that argument. |
| `Execution.TypeBuiltinsIgnorePath` | src/lib.rs:29 | For builtin names only, each line is `"<name> is a shell builtin"`, and the output is the same whatever the host's PATH, file system and working directory. |
| `Execution.TypeWithoutPath` | src/lib.rs:82-85 | When PATH cannot be read, the builtins before the first other name are reported, then one error line. The remaining arguments produce no output. |
| `Execution.TypePathSearch` | src/lib.rs:87-94 | For a non-builtin, the output is the single stderr line `"<name>: not found"` exactly when no PATH candidate is a file. Otherwise it is `"<name> is <path>"` for the first directory's candidate that is a file. |
| `Execution.TypeCdSearchesPath` | src/lib.rs:29 | `cd` is not a builtin for `type`: it goes to the PATH search, or to the PATH read error. |
| `Execution.Shell.ChangeDir` | src/lib.rs:105-110 | A successful change sets the working directory and prints nothing. A failed one keeps the directory and appends `"cd: <path>: No such file or directory"` to stderr. |
| `Execution.Shell.PrintDir` | src/lib.rs:99-103 | Appends the working directory as one stdout line. Nothing else changes. |
| `Execution.Shell.Execute` | src/lib.rs:55-64 | Dispatches per variant. `exit` ends with its code and has no output. `echo`, `type`, `pwd` and `cd` complete normally (`Ok`) with their handlers' effects; `type` searches in the current working directory. An external command is handed on unchanged. |
| `Execution.CdThenPwd` | src/lib.rs:99-110 | After `cd` then `pwd`, the new directory is printed. After a failed `cd`, its diagnostic is printed, then the unchanged directory. |
| `Execution.CdThenType` | src/lib.rs:87-110 | After `cd` then `type`, the PATH search runs in the directory `cd` set. After a failed `cd`, its diagnostic is printed, then the search runs in the unchanged directory. |

## Left out

- Tokenizing an input line: no tokenizer is part of `src/lib.rs`; the model's input is the token sequence.
- `src/main.rs` and `show_prompt`: the read–print loop and the prompt are terminal I/O.
- `cmd_exit`'s `process::exit`: modelled only as the terminal outcome `Exited(code)`.
- `cmd`, the external-program launch: process creation and copying the child's stdout are left to the operating system. `Execute` returns `External(command, args)` instead.
- `Execution.Shell.PrintDir`: the error of `env::current_dir()` is not modelled; the working directory is the `cwd` field.
- `i32::from_str`, `Path::join`, `Path::is_file`, `env::var` and `env::set_current_dir` are oracles, not models of the library. The filesystem is fixed during one call, and PATH is read once per call rather than once per argument.
- `Commands.Parse`: the empty token sequence (`unreachable!()` at src/lib.rs:51) is excluded by the precondition.
- Write errors on stdout/stderr (`println!` panicking) are not modelled.
