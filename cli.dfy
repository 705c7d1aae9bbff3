/** The command line: parseArgs turns the process arguments (os.Args[1:])
    into a language override, free-text notes and a help flag. */
module Cli {
  import opened Strings

  datatype CmdArgs = CmdArgs(lang: string, notes: string, showHelp: bool)

  const LangFlag := "--lang="
  const NotesFlag := "--notes="

  predicate IsHelpFlag(arg: string) {
    arg == "--help" || arg == "-h"
  }

  /** An argument that makes parseArgs ask for the help text: `--help`, `-h`,
      or anything that is neither a `--lang=` nor a `--notes=` argument. */
  predicate RequestsHelp(arg: string) {
    IsHelpFlag(arg) || (!HasPrefix(arg, LangFlag) && !HasPrefix(arg, NotesFlag))
  }

  /** The value carried by the last argument that starts with `flag`, or ""
      when no argument does. */
  function LastValue(argv: seq<string>, flag: string): string {
    if argv == [] then ""
    else if HasPrefix(argv[|argv| - 1], flag) then TrimPrefix(argv[|argv| - 1], flag)
    else LastValue(argv[..|argv| - 1], flag)
  }

  /** What parsing `argv` yields: each field on its own, independent of the
      order in which parseArgs visits the arguments. */
  function Parsed(argv: seq<string>): CmdArgs {
    CmdArgs(LastValue(argv, LangFlag), LastValue(argv, NotesFlag),
            exists i :: 0 <= i < |argv| && RequestsHelp(argv[i]))
  }

  /** No argument is both a `--lang=` and a `--notes=` argument. */
  lemma FlagsDisjoint(arg: string)
    ensures !(HasPrefix(arg, LangFlag) && HasPrefix(arg, NotesFlag))
  {
    if HasPrefix(arg, LangFlag) {
      assert arg[2] == arg[..|LangFlag|][2] == 'l' != NotesFlag[2];
    }
  }

  /** parseArgs (main.go): one pass over the arguments, updating a local
      record; a later `--lang=`/`--notes=` overwrites an earlier one and the
      help flag, once set, stays set. */
  method ParseArgs(argv: seq<string>) returns (args: CmdArgs)
    ensures args.showHelp <==> exists i :: 0 <= i < |argv| && RequestsHelp(argv[i])
    ensures args.lang == LastValue(argv, LangFlag)
    ensures args.notes == LastValue(argv, NotesFlag)
  {
    args := CmdArgs("", "", false);
    var n := 0;
    while n < |argv|
      invariant 0 <= n <= |argv|
      invariant args.showHelp <==> exists i :: 0 <= i < n && RequestsHelp(argv[i])
      invariant args.lang == LastValue(argv[..n], LangFlag)
      invariant args.notes == LastValue(argv[..n], NotesFlag)
    {
      var arg := argv[n];
      assert argv[..n + 1][..n] == argv[..n];
      FlagsDisjoint(arg);
      if arg == "--help" || arg == "-h" {
        args := args.(showHelp := true);
      } else if HasPrefix(arg, LangFlag) {
        args := args.(lang := TrimPrefix(arg, LangFlag));
      } else if HasPrefix(arg, NotesFlag) {
        args := args.(notes := TrimPrefix(arg, NotesFlag));
      } else {
        args := args.(showHelp := true);
      }
      n := n + 1;
    }
    assert argv[..n] == argv;
  }

  /** LastValue really is the value of the last matching argument: when some
      argument starts with `flag` there is a last such argument and the
      result is what follows the flag in it; otherwise the result is "". */
  lemma {:induction false} LastValueIsLast(argv: seq<string>, flag: string)
    ensures (forall i :: 0 <= i < |argv| ==> !HasPrefix(argv[i], flag)) ==> LastValue(argv, flag) == ""
    ensures (exists i :: 0 <= i < |argv| && HasPrefix(argv[i], flag)) ==>
              exists i :: 0 <= i < |argv| && HasPrefix(argv[i], flag)
                          && flag + LastValue(argv, flag) == argv[i]
                          && forall j :: i < j < |argv| ==> !HasPrefix(argv[j], flag)
  {
    if argv != [] {
      var init := argv[..|argv| - 1];
      LastValueIsLast(init, flag);
      if !HasPrefix(argv[|argv| - 1], flag) {
        assert forall i :: 0 <= i < |init| ==> init[i] == argv[i];
        if exists i :: 0 <= i < |argv| && HasPrefix(argv[i], flag) {
          var i :| 0 <= i < |argv| && HasPrefix(argv[i], flag);
          assert init[i] == argv[i];
        }
      }
    }
  }

  /** Arguments given after others can only add a help request, never take one
      away: help is requested by `a + b` iff by `a` or by `b`. */
  lemma HelpOfAppend(a: seq<string>, b: seq<string>)
    ensures Parsed(a + b).showHelp == (Parsed(a).showHelp || Parsed(b).showHelp)
  {
    var ab := a + b;
    if Parsed(b).showHelp {
      var i :| 0 <= i < |b| && RequestsHelp(b[i]);
      assert ab[|a| + i] == b[i];
    }
    if Parsed(a).showHelp {
      var i :| 0 <= i < |a| && RequestsHelp(a[i]);
      assert ab[i] == a[i];
    }
    if Parsed(ab).showHelp {
      var i :| 0 <= i < |ab| && RequestsHelp(ab[i]);
      if i < |a| { assert ab[i] == a[i]; } else { assert ab[i] == b[i - |a|]; }
    }
  }

  /** A later occurrence wins: the value of `flag` in `a + b` is the one in
      `b` when `b` sets it, and the one in `a` otherwise. */
  lemma {:induction false} LastValueOfAppend(a: seq<string>, b: seq<string>, flag: string)
    ensures LastValue(a + b, flag) ==
              if exists j :: 0 <= j < |b| && HasPrefix(b[j], flag) then LastValue(b, flag) else LastValue(a, flag)
  {
    if b == [] {
      assert a + b == a;
    } else {
      var b' := b[..|b| - 1];
      assert (a + b)[..|a + b| - 1] == a + b';
      assert (a + b)[|a + b| - 1] == b[|b| - 1];
      LastValueOfAppend(a, b', flag);
      if !HasPrefix(b[|b| - 1], flag) {
        assert (exists j :: 0 <= j < |b| && HasPrefix(b[j], flag))
           <==> (exists j :: 0 <= j < |b'| && HasPrefix(b'[j], flag)) by {
          if exists j :: 0 <= j < |b| && HasPrefix(b[j], flag) {
            var j :| 0 <= j < |b| && HasPrefix(b[j], flag);
            assert b'[j] == b[j];
          }
        }
      }
    }
  }

  /** The usage examples the help text lists. */
  lemma UsageExamples()
    ensures Parsed([]) == CmdArgs("", "", false)
    ensures Parsed(["--lang=zh"]) == CmdArgs("zh", "", false)
    ensures Parsed(["--lang=zh", "--notes=紧急修复"]) == CmdArgs("zh", "紧急修复", false)
    ensures Parsed(["--verbose"]).showHelp
  {
    var one := ["--lang=zh"];
    assert HasPrefix(one[0], LangFlag);
    var two := ["--lang=zh", "--notes=紧急修复"];
    FlagsDisjoint(two[0]);
    FlagsDisjoint(two[1]);
    assert HasPrefix(two[1], NotesFlag) && HasPrefix(two[0], LangFlag);
    assert two[..1] == one;
    assert !RequestsHelp(two[0]) && !RequestsHelp(two[1]);
    var bad := ["--verbose"];
    assert RequestsHelp(bad[0]);
  }
}
