/** The command line of `playwright2dsl.py`: `quick_convert` reads `sys.argv`, shows help, rejects
    malformed argument lists with exit code 1, or rebuilds the argument list in the form the
    converter's `main` expects, runs `main` with it in `sys.argv`, and puts the original back. */
module Playwright2Dsl {
  import opened Wrappers

  /** The script name `main` sees in the rebuilt argument list. */
  const ScriptName: string := "playwright2dsl.py"

  /** What `quick_convert` decides from the arguments. */
  datatype Outcome =
    | Help                           // help shown, exit code 0
    | MissingOutputValue             // "-o"/"--output" with nothing after it
    | UnknownArgument(arg: string)   // a third positional argument
    | MissingInput                   // no (non-empty) input file
    | Convert(args: seq<string>)     // run `main` with `sys.argv == args`

  /** The exit code `quick_convert` returns without calling `main`. */
  function ExitCode(o: Outcome): (code: int)
    requires !o.Convert?
    ensures code == 0 <==> o == Help
    ensures code == 0 || code == 1
  {
    if o == Help then 0 else 1
  }

  predicate IsOutputFlag(arg: string) {
    arg == "-o" || arg == "--output"
  }

  predicate IsHelpFlag(arg: string) {
    arg == "-h" || arg == "--help"
  }

  /** `new_args` after the loop: the script name, the input file, and `-o <output>` when an
      output file was given. An empty string stands for `None`: the code only tests truthiness. */
  function Rebuild(input: string, output: string): seq<string> {
    [ScriptName, input] + (if output != "" then ["-o", output] else [])
  }

  /** The `while i < len(sys.argv)` loop from position `i`, with the input and output file
      seen so far ("" for none), and what follows it. */
  function Scan(argv: seq<string>, i: nat, input: string, output: string): Outcome
    decreases |argv| - i
  {
    if i >= |argv| then (if input == "" then MissingInput else Convert(Rebuild(input, output)))
    else if IsOutputFlag(argv[i]) then
      if i + 1 < |argv| then Scan(argv, i + 2, input, argv[i + 1]) else MissingOutputValue
    else if input == "" then Scan(argv, i + 1, argv[i], output)
    else if output == "" then Scan(argv, i + 1, input, argv[i])
    else UnknownArgument(argv[i])
  }

  /** `quick_convert` on `sys.argv`. */
  function Decide(argv: seq<string>): Outcome {
    if |argv| < 2 || IsHelpFlag(argv[1]) then Help else Scan(argv, 1, "", "")
  }

  /** The scan never asks for help: a help flag after the first argument is an ordinary
      positional argument. */
  lemma {:induction false} ScanIsNotHelp(argv: seq<string>, i: nat, input: string, output: string)
    ensures Scan(argv, i, input, output) != Help
    decreases |argv| - i
  {
    if i < |argv| {
      if IsOutputFlag(argv[i]) {
        if i + 1 < |argv| {
          ScanIsNotHelp(argv, i + 2, input, argv[i + 1]);
        }
      } else if input == "" {
        ScanIsNotHelp(argv, i + 1, argv[i], output);
      } else if output == "" {
        ScanIsNotHelp(argv, i + 1, input, argv[i]);
      }
    }
  }

  /** The argument loop of `quick_convert`. */
  method ParseArgs(argv: seq<string>) returns (o: Outcome)
    ensures o == Decide(argv)
    ensures o == Help <==> |argv| < 2 || IsHelpFlag(argv[1])
  {
    if |argv| < 2 || argv[1] == "-h" || argv[1] == "--help" {
      return Help;
    }
    ScanIsNotHelp(argv, 1, "", "");
    var input := "";
    var output := "";
    var i := 1;
    while i < |argv|
      invariant 1 <= i <= |argv|
      invariant Scan(argv, i, input, output) == Decide(argv)
      decreases |argv| - i
    {
      var arg := argv[i];
      if arg == "-o" || arg == "--output" {
        if i + 1 < |argv| {
          output := argv[i + 1];
          i := i + 2;
        } else {
          return MissingOutputValue;
        }
      } else if input == "" {
        input := arg;
        i := i + 1;
      } else if output == "" {
        output := arg;
        i := i + 1;
      } else {
        return UnknownArgument(arg);
      }
    }
    if input == "" {
      return MissingInput;
    }
    o := Convert(Rebuild(input, output));
  }

  /** A missing output value is reported only when the argument list ends in an output flag. */
  lemma {:induction false} MissingValueAtEnd(argv: seq<string>, i: nat, input: string, output: string)
    requires Scan(argv, i, input, output) == MissingOutputValue
    ensures |argv| >= 1 && IsOutputFlag(argv[|argv| - 1])
    decreases |argv| - i
  {
    if i < |argv| {
      if IsOutputFlag(argv[i]) {
        if i + 1 < |argv| {
          MissingValueAtEnd(argv, i + 2, input, argv[i + 1]);
        }
      } else if input == "" {
        MissingValueAtEnd(argv, i + 1, argv[i], output);
      } else if output == "" {
        MissingValueAtEnd(argv, i + 1, input, argv[i]);
      }
    }
  }

  /** Whatever reaches `main` has the script name, a non-empty input file taken from the
      arguments, and, only when a non-empty output file was given, `-o` and that file. */
  lemma {:induction false} RebuiltShape(argv: seq<string>, i: nat, input: string, output: string)
    requires Scan(argv, i, input, output).Convert?
    requires input == "" || input in argv
    requires output == "" || output in argv
    ensures var args := Scan(argv, i, input, output).args;
      && |args| >= 2 && args[0] == ScriptName
      && args[1] != "" && args[1] in argv
      && (|args| == 2 || (|args| == 4 && args[2] == "-o" && args[3] != "" && args[3] in argv))
    decreases |argv| - i
  {
    if i < |argv| {
      if IsOutputFlag(argv[i]) {
        RebuiltShape(argv, i + 2, input, argv[i + 1]);
      } else if input == "" {
        RebuiltShape(argv, i + 1, argv[i], output);
      } else if output == "" {
        RebuiltShape(argv, i + 1, input, argv[i]);
      }
    }
  }

  /** The first positional argument is the input file, the second the output file, and a third
      one is rejected. */
  lemma Positionals(script: string, a: string, b: string, c: string)
    requires a != "" && b != "" && !IsOutputFlag(a) && !IsOutputFlag(b) && !IsOutputFlag(c)
    requires !IsHelpFlag(a)
    ensures Decide([script, a]) == Convert([ScriptName, a])
    ensures Decide([script, a, b]) == Convert([ScriptName, a, "-o", b])
    ensures Decide([script, a, b, c]) == UnknownArgument(c)
  {
    assert Scan([script, a], 2, a, "") == Convert([ScriptName, a]);
    assert Scan([script, a, b], 3, a, b) == Convert([ScriptName, a, "-o", b]);
    assert Scan([script, a, b], 2, a, "") == Scan([script, a, b], 3, a, b);
    assert Scan([script, a, b, c], 3, a, b) == UnknownArgument(c);
    assert Scan([script, a, b, c], 2, a, "") == Scan([script, a, b, c], 3, a, b);
  }

  /** `-o <file>` gives the output file wherever it stands, so `a -o b` and `-o b a` mean `a b`;
      a later `-o` replaces an earlier one; `-o` as the last argument is an error, and an output
      file alone is not enough. */
  lemma OutputFlag(script: string, a: string, b: string, b2: string)
    requires a != "" && b != "" && b2 != "" && !IsOutputFlag(a) && !IsHelpFlag(a)
    ensures Decide([script, a, "-o", b]) == Convert([ScriptName, a, "-o", b])
    ensures Decide([script, "-o", b, a]) == Convert([ScriptName, a, "-o", b])
    ensures Decide([script, a, "--output", b, "-o", b2]) == Convert([ScriptName, a, "-o", b2])
    ensures Decide([script, a, "-o"]) == MissingOutputValue
    ensures Decide([script, "-o", b]) == MissingInput
  {
    assert IsOutputFlag("-o") && IsOutputFlag("--output") && !IsHelpFlag("-o");
    assert Scan([script, a, "-o", b], 4, a, b) == Convert([ScriptName, a, "-o", b]);
    assert Scan([script, a, "-o", b], 2, a, "") == Scan([script, a, "-o", b], 4, a, b);
    assert Scan([script, "-o", b, a], 4, a, b) == Convert([ScriptName, a, "-o", b]);
    assert Scan([script, "-o", b, a], 3, "", b) == Scan([script, "-o", b, a], 4, a, b);
    var argv := [script, a, "--output", b, "-o", b2];
    assert Scan(argv, 6, a, b2) == Convert([ScriptName, a, "-o", b2]);
    assert Scan(argv, 4, a, b) == Scan(argv, 6, a, b2);
    assert Scan(argv, 2, a, "") == Scan(argv, 4, a, b);
    assert Scan([script, a, "-o"], 2, a, "") == MissingOutputValue;
    assert Scan([script, "-o", b], 3, "", b) == MissingInput;
  }

  /** The process state `quick_convert` touches: the global `sys.argv`. */
  class Process {
    var argv: seq<string>

    constructor(argv0: seq<string>)
      ensures argv == argv0
    {
      argv := argv0;
    }

    /** `quick_convert`: decide from `sys.argv`; when there is something to convert, put the
        rebuilt list in `sys.argv`, run `main` (whose return value or exception is `main`), and
        restore `sys.argv` however `main` ends. `mainArgv` is what `main` saw in `sys.argv`. */
    method QuickConvert(main: Result<int, string>) returns (r: Result<int, string>, mainArgv: Option<seq<string>>)
      modifies this
      ensures argv == old(argv)
      ensures var o := Decide(old(argv));
        if o.Convert? then r == main && mainArgv == Some(o.args)
        else r == Success(ExitCode(o)) && mainArgv == None
    {
      var o := ParseArgs(argv);
      if !o.Convert? {
        return Success(ExitCode(o)), None;
      }
      var originalArgv := argv;
      argv := o.args;
      mainArgv := Some(argv);
      r := main;
      argv := originalArgv;
    }
  }
}
