/**
  The argument scanner of the tofu proxy (tunstrap/tofu_proxy.py): where the
  subcommand is, whether the call needs a tunnel, and whether apply or show is
  given a saved plan.
*/
module TofuArgs {
  import opened Wrappers

  predicate IsFlag(tok: string) { tok != [] && tok[0] == '-' }

  predicate EndsScan(tok: string) {
    tok == "-version" || tok == "--version" || tok == "-help" || tok == "-h" || tok == "--help"
  }

  predicate TakesValue(tok: string) { tok == "-chdir" || tok == "--chdir" }

  predicate NeedsNoTunnel(subcommand: string) {
    subcommand == "init" || subcommand == "version" || subcommand == "validate" || subcommand == "fmt"
  }

  // ---------------------------------------------------------------- the grammar

  // What a run of global flags leaves behind: nothing, a flag still waiting for its value, or a
  // request for version or help, after which nothing counts.
  datatype Leading = Clean | Waiting | Ended | Word(word: string, index: nat)

  // Reads one more token.
  function Advance(l: Leading, tok: string, index: nat): Leading {
    match l
    case Waiting => Clean
    case Clean =>
      if EndsScan(tok) then Ended
      else if TakesValue(tok) then Waiting
      else if IsFlag(tok) then Clean
      else Word(tok, index)
    case _ => l
  }

  // Reads a whole command line token by token.
  function Read(l: Leading, argv: seq<string>, base: nat): Leading
    decreases |argv|
  {
    if argv == [] then l else Read(Advance(l, argv[0], base), argv[1..], base + 1)
  }

  function Subcommand(argv: seq<string>): Option<(string, nat)> {
    match Read(Clean, argv, 0)
    case Word(w, i) => Some((w, i))
    case _ => None
  }

  // ----------------------------------------------------------------- the scanner

  lemma {:induction false} Settled(l: Leading, argv: seq<string>, base: nat)
    requires l.Word? || l.Ended?
    ensures Read(l, argv, base) == l
    decreases |argv|
  {
    if argv != [] {
      Settled(l, argv[1..], base + 1);
    }
  }

  // One or two tokens at a time, the scanner reads what the grammar reads one by one.
  lemma {:induction false} ReadNext(argv: seq<string>, i: nat)
    requires i < |argv|
    ensures Read(Clean, argv[i..], i) == Read(Advance(Clean, argv[i], i), argv[i + 1..], i + 1)
    ensures (TakesValue(argv[i]) ==>
               Read(Clean, argv[i..], i) == if i + 2 <= |argv| then Read(Clean, argv[i + 2..], i + 2) else Waiting)
  {
    assert argv[i..][0] == argv[i] && argv[i..][1..] == argv[i + 1..];
    if TakesValue(argv[i]) {
      assert Advance(Clean, argv[i], i) == Waiting;
      if i + 2 <= |argv| {
        assert argv[i + 1..][1..] == argv[i + 2..];
      } else {
        assert argv[i + 1..] == [];
      }
    }
  }

  method FindSubcommandIndex(argv: seq<string>) returns (r: Option<(string, nat)>)
    ensures r == Subcommand(argv)
  {
    var i: nat := 0;
    assert argv[0..] == argv;
    while i < |argv|
      invariant Subcommand(argv) == (
                  match if i <= |argv| then Read(Clean, argv[i..], i) else Waiting
                  case Word(w, k) => Some((w, k))
                  case _ => None)
      decreases |argv| + 1 - i
    {
      var tok := argv[i];
      ReadNext(argv, i);
      if EndsScan(tok) {
        Settled(Ended, argv[i + 1..], i + 1);
        return None;
      }
      if TakesValue(tok) {
        i := i + 2;
        continue;
      }
      if IsFlag(tok) {
        i := i + 1;
        continue;
      }
      Settled(Word(tok, i), argv[i + 1..], i + 1);
      return Some((tok, i));
    }
    return None;
  }

  // The index found is in range and holds the word, which is no flag; before it there is no other
  // word that is not the value of the flag in front of it, and no request for version or help
  // other than as such a value.
  lemma {:induction false} FoundWord(argv: seq<string>)
    requires Subcommand(argv).Some?
    ensures var (w, i) := Subcommand(argv).value; i < |argv| && argv[i] == w && !IsFlag(w)
    ensures var (_, i) := Subcommand(argv).value;
            forall j :: 0 <= j < i ==>
              (IsFlag(argv[j]) && !EndsScan(argv[j])) || (j > 0 && TakesValue(argv[j - 1]))
  {
    WordSits(Clean, argv, 0);
    forall j | 0 <= j < Subcommand(argv).value.1
      ensures (IsFlag(argv[j]) && !EndsScan(argv[j])) || (j > 0 && TakesValue(argv[j - 1]))
    {
      BeforeWord(argv, j, Clean, argv, 0);
    }
  }

  lemma {:induction false} WordSits(l: Leading, argv: seq<string>, base: nat)
    requires (l.Clean? || l.Waiting?) && Read(l, argv, base).Word?
    ensures var r := Read(l, argv, base);
            base <= r.index < base + |argv| && argv[r.index - base] == r.word && !IsFlag(r.word)
    decreases |argv|
  {
    var next := Advance(l, argv[0], base);
    if next.Word? || next.Ended? {
      Settled(next, argv[1..], base + 1);
    } else {
      WordSits(next, argv[1..], base + 1);
    }
  }

  lemma {:induction false} BeforeWord(whole: seq<string>, j: nat, l: Leading, argv: seq<string>, base: nat)
    requires base <= |whole| && argv == whole[base..] && base <= j
    requires (l.Clean? || (l.Waiting? && base > 0 && TakesValue(whole[base - 1])))
    requires Read(l, argv, base).Word? && j < Read(l, argv, base).index < |whole|
    ensures (IsFlag(whole[j]) && !EndsScan(whole[j])) || (j > 0 && TakesValue(whole[j - 1]))
    decreases |argv|
  {
    var next := Advance(l, argv[0], base);
    if next.Word? || next.Ended? {
      Settled(next, argv[1..], base + 1);
    } else if j > base {
      BeforeWord(whole, j, next, argv[1..], base + 1);
    }
  }

  // Which tokens are values of the flag before them, read from the left; `valued` is the flag set.
  predicate IsValue(args: seq<string>, valued: set<string>, i: nat)
    requires i <= |args|
  {
    i > 0 && args[i - 1] in valued && !IsValue(args, valued, i - 1)
  }

  const GLOBAL_VALUE_FLAGS := {"-chdir", "--chdir"}

  predicate IsDir(argv: seq<string>, i: nat)
    requires i <= |argv|
  {
    IsValue(argv, GLOBAL_VALUE_FLAGS, i)
  }

  // All tokens before the i-th are global flags that do not end the scan, or their values.
  ghost predicate Leads(argv: seq<string>, i: nat)
    requires i <= |argv|
  {
    forall j :: 0 <= j < i ==>
      IsDir(argv, j)
      || (argv[j] != "" && argv[j][0] == '-' && argv[j] !in {"-version", "--version", "-help", "-h", "--help"})
  }

  // The words the code names.
  lemma {:induction false} NamedWords(tok: string)
    ensures EndsScan(tok) <==> tok in {"-version", "--version", "-help", "-h", "--help"}
    ensures TakesValue(tok) <==> tok in GLOBAL_VALUE_FLAGS
    ensures IsFlag(tok) <==> tok != "" && tok[0] == '-'
    ensures EndsScan(tok) || TakesValue(tok) ==> IsFlag(tok)
  {
  }

  // Over leading flags the grammar is back at its start, or waits for a value.
  lemma {:induction false} ReadOver(argv: seq<string>, i: nat)
    requires i <= |argv| && Leads(argv, i)
    ensures Read(Clean, argv, 0) == Read(if IsDir(argv, i) then Waiting else Clean, argv[i..], i)
  {
    if i == 0 {
      assert argv[0..] == argv;
    } else {
      ReadOver(argv, i - 1);
      NamedWords(argv[i - 1]);
      assert argv[i - 1..][0] == argv[i - 1] && argv[i - 1..][1..] == argv[i..];
    }
  }

  // The token at which a word is found has only leading flags before it.
  lemma {:induction false} LeadsUpTo(argv: seq<string>, i: nat, j: nat)
    requires j <= i < |argv| && Read(Clean, argv, 0).Word? && Read(Clean, argv, 0).index == i
    ensures Leads(argv, j)
  {
    if j > 0 {
      LeadsUpTo(argv, i, j - 1);
      ReadOver(argv, j - 1);
      NamedWords(argv[j - 1]);
      StepsOn(argv, j - 1);
    }
  }

  // Reading from a token that is no value: it is the word, it ends the scan, or it is a flag.
  lemma {:induction false} StepsOn(argv: seq<string>, j: nat)
    requires j < |argv|
    ensures EndsScan(argv[j]) ==> Read(Clean, argv[j..], j) == Ended
    ensures !IsFlag(argv[j]) ==> Read(Clean, argv[j..], j) == Word(argv[j], j)
  {
    NamedWords(argv[j]);
    assert argv[j..][0] == argv[j] && argv[j..][1..] == argv[j + 1..];
    if EndsScan(argv[j]) {
      Settled(Ended, argv[j + 1..], j + 1);
    } else if !IsFlag(argv[j]) {
      Settled(Word(argv[j], j), argv[j + 1..], j + 1);
    }
  }

  // The subcommand, exactly: the first token that is neither a global flag nor the value of one, with
  // no request for version or help before it.
  lemma {:induction false} SubcommandExactly(argv: seq<string>, w: string, i: nat)
    ensures Subcommand(argv) == Some((w, i)) <==>
            && i < |argv| && argv[i] == w && !IsDir(argv, i) && !(w != "" && w[0] == '-') && Leads(argv, i)
  {
    if i < |argv| && Leads(argv, i) && !IsDir(argv, i) && argv[i] == w && !(w != "" && w[0] == '-') {
      ReadOver(argv, i);
      StepsOn(argv, i);
    }
    if Subcommand(argv) == Some((w, i)) {
      FoundWord(argv);
      LeadsUpTo(argv, i, i);
      ReadOver(argv, i);
      if IsDir(argv, i) { SkipsValue(argv, i); }
    }
  }

  lemma {:induction false} SkipsValue(argv: seq<string>, i: nat)
    requires i < |argv|
    ensures Read(Waiting, argv[i..], i).Word? ==> Read(Waiting, argv[i..], i).index > i
  {
    assert argv[i..][1..] == argv[i + 1..];
    if Read(Waiting, argv[i..], i).Word? { WordSits(Clean, argv[i + 1..], i + 1); }
  }

  // --------------------------------------------------------------------- bypass

  predicate ShouldBypass(argv: seq<string>) {
    Subcommand(argv).None? || NeedsNoTunnel(Subcommand(argv).value.0)
  }

  // The proxy steps aside exactly for the four subcommands that need no cluster, and when there is no
  // subcommand.
  lemma {:induction false} BypassExactly(argv: seq<string>)
    ensures ShouldBypass(argv) <==>
            forall w, i :: Subcommand(argv) == Some((w, i)) ==> w in {"init", "version", "validate", "fmt"}
  {
  }

  lemma {:induction false} ReadConcat(l: Leading, a: seq<string>, b: seq<string>, base: nat)
    ensures Read(l, a + b, base) == Read(Read(l, a, base), b, base + |a|)
    decreases |a|
  {
    if a == [] {
      assert a + b == b;
    } else {
      assert (a + b)[0] == a[0] && (a + b)[1..] == a[1..] + b;
      ReadConcat(Advance(l, a[0], base), a[1..], b, base + 1);
    }
  }

  function Shift(l: Leading, offset: nat): Leading { if l.Word? then Word(l.word, l.index + offset) else l }

  // The verdict does not depend on where the reading starts to count.
  lemma {:induction false} ReadShift(l: Leading, argv: seq<string>, base: nat, offset: nat)
    ensures Read(Shift(l, offset), argv, base + offset) == Shift(Read(l, argv, base), offset)
    decreases |argv|
  {
    if argv != [] {
      ReadShift(Advance(l, argv[0], base), argv[1..], base + 1, offset);
    }
  }

  // Tokens in front that leave nothing behind never change the verdict; they shift the index.
  lemma {:induction false} CleanPrefix(prefix: seq<string>, argv: seq<string>)
    requires Read(Clean, prefix, 0) == Clean
    ensures ShouldBypass(prefix + argv) == ShouldBypass(argv)
    ensures Subcommand(argv).Some? ==>
              Subcommand(prefix + argv) == Some((Subcommand(argv).value.0, Subcommand(argv).value.1 + |prefix|))
  {
    ReadConcat(Clean, prefix, argv, 0);
    ReadShift(Clean, argv, 0, |prefix|);
  }

  // `-chdir DIR` and `-chdir=DIR`, whatever DIR is, even when it reads like a subcommand or a flag.
  lemma {:induction false} ChdirPrefix(dir: string, argv: seq<string>)
    ensures ShouldBypass(["-chdir", dir] + argv) == ShouldBypass(argv)
    ensures ShouldBypass(["--chdir", dir] + argv) == ShouldBypass(argv)
    ensures ShouldBypass(["-chdir=" + dir] + argv) == ShouldBypass(argv)
  {
    ChdirIsClean("-chdir", dir);
    ChdirIsClean("--chdir", dir);
    CleanPrefix(["-chdir", dir], argv);
    CleanPrefix(["--chdir", dir], argv);
    var joined := "-chdir=" + dir;
    assert joined[0] == '-' && joined[6] == '=';
    var none: seq<string> := [];
    assert [joined][1..] == none;
    assert Read(Clean, [joined], 0) == Read(Advance(Clean, joined, 0), [], 1);
    CleanPrefix([joined], argv);
  }

  lemma {:induction false} ChdirIsClean(flag: string, dir: string)
    requires TakesValue(flag)
    ensures Read(Clean, [flag, dir], 0) == Clean
  {
    assert [flag, dir][1..] == [dir];
    var none: seq<string> := [];
    assert [dir][1..] == none;
    assert Read(Waiting, [dir], 1) == Read(Clean, [], 2);
  }

  // What appended arguments can do, exactly: nothing once there is a word or a request for version
  // or help; otherwise they are read as a command line of their own, less the value still awaited.
  lemma {:induction false} AppendExact(argv: seq<string>, extra: seq<string>)
    ensures Subcommand(argv).Some? ==> Subcommand(argv + extra) == Subcommand(argv)
    ensures (ShouldBypass(argv + extra) <==>
               match Read(Clean, argv, 0)
               case Word(w, _) => NeedsNoTunnel(w)
               case Ended => true
               case Clean => ShouldBypass(extra)
               case Waiting => extra == [] || ShouldBypass(extra[1..]))
  {
    ReadConcat(Clean, argv, extra, 0);
    match Read(Clean, argv, 0) {
      case Word(w, i) => Settled(Word(w, i), extra, |argv|);
      case Ended => Settled(Ended, extra, |argv|);
      case Clean => ReadShift(Clean, extra, 0, |argv|);
      case Waiting =>
        if extra != [] {
          ReadShift(Clean, extra[1..], 0, |argv| + 1);
        }
    }
  }

  // ------------------------------------------------------------------ saved plans

  predicate IsPlanFilename(arg: string) {
    arg == "tfplan" || (|arg| >= 7 && arg[|arg| - 7..] == ".tfplan")
  }

  predicate Positional(args: seq<string>, valued: set<string>, i: nat)
    requires i < |args|
  {
    !IsValue(args, valued, i) && args[i] !in valued && !IsFlag(args[i])
  }

  // A conventional plan file name: tfplan, or anything that ends in .tfplan.
  lemma {:induction false} PlanNames(arg: string)
    ensures IsPlanFilename(arg) <==> arg == "tfplan" || exists stem :: arg == stem + ".tfplan"
  {
    if |arg| >= 7 && arg[|arg| - 7..] == ".tfplan" { assert arg == arg[..|arg| - 7] + ".tfplan"; }
    if stem :| arg == stem + ".tfplan" { assert arg[|arg| - 7..] == ".tfplan"; }
  }

  // _has_plan_input: some positional argument is a plan file.
  method HasPlanInput(args: seq<string>, valued: set<string>) returns (found: bool)
    ensures found <==> exists i: nat :: i < |args| && Positional(args, valued, i) && IsPlanFilename(args[i])
  {
    var index: nat := 0;
    while index < |args|
      invariant index <= |args| ==> !IsValue(args, valued, index)
      invariant index <= |args| + 1
      invariant forall i: nat :: i < index && i < |args| ==> !(Positional(args, valued, i) && IsPlanFilename(args[i]))
    {
      var arg := args[index];
      if arg in valued {
        assert IsValue(args, valued, index + 1);
        index := index + 2;
        continue;
      }
      if IsFlag(arg) {
        index := index + 1;
        continue;
      }
      if IsPlanFilename(arg) {
        assert Positional(args, valued, index);
        return true;
      }
      index := index + 1;
    }
    return false;
  }
}
