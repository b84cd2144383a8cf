/**
  * The command-line argument parser (lib/argparser.cc): the arguments after
  * the program name are kept in a list, and each query removes what it
  * recognises, so that the remaining positional arguments can be counted at
  * the end.
  */
module ArgParsing {
  import opened Text
  import SfzRegion

  /** Is a a positional argument: not empty and not starting with '-'? */
  predicate Positional(a: string)
  {
    a != [] && a[0] != '-'
  }

  /** The index of the first positional argument, if any. */
  function FirstPositional(args: seq<string>, i: nat): (r: Option<nat>)
    requires i <= |args|
    ensures r.Some? ==>
      i <= r.value < |args| && Positional(args[r.value]) && forall j :: i <= j < r.value ==> !Positional(args[j])
    ensures r.None? ==> forall j :: i <= j < |args| ==> !Positional(args[j])
    decreases |args| - i
  {
    if i == |args| then None
    else if Positional(args[i]) then Some(i)
    else FirstPositional(args, i + 1)
  }

  /** args without the element at index i. */
  function Without(args: seq<string>, i: nat): (r: seq<string>)
    requires i < |args|
    ensures |r| == |args| - 1
    ensures forall j :: 0 <= j < i ==> r[j] == args[j]
    ensures forall j :: i <= j < |r| ==> r[j] == args[j + 1]
  {
    args[..i] + args[i + 1..]
  }

  /** The later of two findings: a value found later wins. */
  function Later(later: Option<string>, earlier: Option<string>): Option<string>
  {
    if later.Some? then later else earlier
  }

  /**
    * What `parse_opt (option, out_s)` does to a list: the arguments left
    * over and the value of the last occurrence. "option value" pairs and
    * "option=value" arguments are removed; an "option" with no argument
    * after it stays.
    */
  function OptScan(args: seq<string>, option: string): (r: (seq<string>, Option<string>))
    ensures |r.0| <= |args|
    decreases |args|
  {
    if args == [] then ([], None)
    else if args[0] == option && |args| > 1 then
      var r := OptScan(args[2..], option);
      (r.0, Later(r.1, Some(args[1])))
    else if SfzRegion.StartsWith(args[0], option + "=") then
      var r := OptScan(args[1..], option);
      (r.0, Later(r.1, Some(args[0][|option| + 1..])))
    else
      var r := OptScan(args[1..], option);
      ([args[0]] + r.0, r.1)
  }

  /** One step of OptScan over an "option value" pair. */
  lemma ScanPair(args: seq<string>, option: string)
    requires |args| > 1 && args[0] == option
    ensures OptScan(args, option) == (OptScan(args[2..], option).0, Later(OptScan(args[2..], option).1, Some(args[1])))
  {
  }

  /** One step of OptScan over an "option=value" argument. */
  lemma ScanAssign(args: seq<string>, option: string)
    requires args != [] && !(args[0] == option && |args| > 1) && SfzRegion.StartsWith(args[0], option + "=")
    ensures OptScan(args, option) == (OptScan(args[1..], option).0, Later(OptScan(args[1..], option).1, Some(args[0][|option| + 1..])))
  {
  }

  /** One step of OptScan over an argument it keeps. */
  lemma ScanKeep(args: seq<string>, option: string)
    requires args != [] && !(args[0] == option && |args| > 1) && !SfzRegion.StartsWith(args[0], option + "=")
    ensures OptScan(args, option) == ([args[0]] + OptScan(args[1..], option).0, OptScan(args[1..], option).1)
  {
  }

  /** The arguments OptScan keeps are arguments of the list. */
  lemma {:induction false} OptScanKeepsArgs(args: seq<string>, option: string)
    ensures forall a :: a in OptScan(args, option).0 ==> a in args
    decreases |args|
  {
    if args == [] {
    } else if args[0] == option && |args| > 1 {
      OptScanKeepsArgs(args[2..], option);
      ScanPair(args, option);
      assert forall a :: a in args[2..] ==> a in args;
    } else if SfzRegion.StartsWith(args[0], option + "=") {
      OptScanKeepsArgs(args[1..], option);
      ScanAssign(args, option);
      assert forall a :: a in args[1..] ==> a in args;
    } else {
      OptScanKeepsArgs(args[1..], option);
      ScanKeep(args, option);
      assert forall a :: a in args[1..] ==> a in args;
    }
  }

  /** No argument OptScan keeps starts with "option=". */
  lemma {:induction false} OptScanDropsAssignments(args: seq<string>, option: string)
    ensures forall a :: a in OptScan(args, option).0 ==> !SfzRegion.StartsWith(a, option + "=")
    decreases |args|
  {
    if args == [] {
    } else if args[0] == option && |args| > 1 {
      OptScanDropsAssignments(args[2..], option);
      ScanPair(args, option);
    } else if SfzRegion.StartsWith(args[0], option + "=") {
      OptScanDropsAssignments(args[1..], option);
      ScanAssign(args, option);
    } else {
      OptScanDropsAssignments(args[1..], option);
      ScanKeep(args, option);
    }
  }

  /** option itself survives OptScan only as the very last argument of the list. */
  lemma {:induction false} OptScanOptionLast(args: seq<string>, option: string)
    ensures var rest := OptScan(args, option).0;
      forall i :: 0 <= i < |rest| && rest[i] == option ==> i == |rest| - 1 && args[|args| - 1] == option
    decreases |args|
  {
    if args == [] {
    } else if args[0] == option && |args| > 1 {
      OptScanOptionLast(args[2..], option);
      ScanPair(args, option);
      assert args[2..] == [] || args[2..][|args[2..]| - 1] == args[|args| - 1];
    } else if SfzRegion.StartsWith(args[0], option + "=") {
      OptScanOptionLast(args[1..], option);
      ScanAssign(args, option);
      assert args[1..] == [] || args[1..][|args[1..]| - 1] == args[|args| - 1];
    } else {
      OptScanOptionLast(args[1..], option);
      ScanKeep(args, option);
      assert args[1..] == [] || args[1..][|args[1..]| - 1] == args[|args| - 1];
      var rest := OptScan(args[1..], option).0;
      if args[0] == option {
        assert |args| == 1 && rest == [];
      }
    }
  }

  /** When no argument is the option or starts with "option=", nothing is found and nothing removed. */
  lemma {:induction false} OptScanAbsent(args: seq<string>, option: string)
    requires forall a :: a in args ==> a != option && !SfzRegion.StartsWith(a, option + "=")
    ensures OptScan(args, option) == (args, None)
    decreases |args|
  {
    if args != [] {
      assert args[0] in args;
      assert forall a :: a in args[1..] ==> a in args;
      OptScanAbsent(args[1..], option);
      assert [args[0]] + args[1..] == args;
    }
  }

  /** The argument at index i is an occurrence parse_opt takes: "option" with a value after it, or "option=value". */
  predicate TakesAt(args: seq<string>, option: string, i: nat)
    requires i < |args|
  {
    (args[i] == option && i + 1 < |args|) || SfzRegion.StartsWith(args[i], option + "=")
  }

  /** An "option value" pair or an "option=value" argument anywhere in the list makes parse_opt find a value. */
  lemma {:induction false} OptScanPresent(args: seq<string>, option: string, i: nat)
    requires i < |args| && TakesAt(args, option, i)
    ensures OptScan(args, option).1.Some?
    decreases |args|
  {
    if !(args[0] == option && |args| > 1) && !SfzRegion.StartsWith(args[0], option + "=") {
      assert i > 0 && args[1..][i - 1] == args[i];
      OptScanPresent(args[1..], option, i - 1);
    }
  }

  /** A value parse_opt finds comes from an "option value" pair or an "option=value" argument of the list. */
  lemma {:induction false} OptScanFoundHasSource(args: seq<string>, option: string)
    requires OptScan(args, option).1.Some?
    ensures exists i :: 0 <= i < |args| && TakesAt(args, option, i)
    decreases |args|
  {
    if args[0] == option && |args| > 1 {
      assert TakesAt(args, option, 0);
    } else if SfzRegion.StartsWith(args[0], option + "=") {
      assert TakesAt(args, option, 0);
    } else {
      OptScanFoundHasSource(args[1..], option);
      var j :| 0 <= j < |args| - 1 && TakesAt(args[1..], option, j);
      assert args[1..][j] == args[j + 1] && TakesAt(args, option, j + 1);
    }
  }

  /** parse_opt reports a value exactly when the list holds an "option value" pair or an "option=value" argument. */
  lemma OptScanFoundIff(args: seq<string>, option: string)
    ensures OptScan(args, option).1.Some? <==> exists i :: 0 <= i < |args| && TakesAt(args, option, i)
  {
    if exists i :: 0 <= i < |args| && TakesAt(args, option, i) {
      var i :| 0 <= i < |args| && TakesAt(args, option, i);
      OptScanPresent(args, option, i);
    }
    if OptScan(args, option).1.Some? {
      OptScanFoundHasSource(args, option);
    }
  }

  /** A lone trailing "option" is kept and not reported. */
  lemma TrailingOptionKept(option: string)
    ensures OptScan([option], option) == ([option], None)
  {
    assert |option + "="| > |option|;
    assert !SfzRegion.StartsWith(option, option + "=");
    assert [option][1..] == [];
    assert OptScan([option], option) == ([option] + OptScan([], option).0, OptScan([], option).1);
    assert [option] + [] == [option];
  }

  /** The loop of ParseOptString removing an "option value" pair at index i. */
  lemma PairStep(args: seq<string>, i: nat, option: string)
    requires i + 1 < |args| && args[i] == option
    ensures var next := args[..i] + args[i + 2..];
      next[..i] == args[..i] &&
      OptScan(args[i..], option) == (OptScan(next[i..], option).0, Later(OptScan(next[i..], option).1, Some(args[i + 1])))
  {
    var next := args[..i] + args[i + 2..];
    assert args[i..][2..] == next[i..];
    ScanPair(args[i..], option);
  }

  /** The loop of ParseOptString removing an "option=value" argument at index i. */
  lemma AssignStep(args: seq<string>, i: nat, option: string)
    requires i < |args| && !(args[i] == option && i + 1 < |args|) && SfzRegion.StartsWith(args[i], option + "=")
    ensures var next := args[..i] + args[i + 1..];
      next[..i] == args[..i] &&
      OptScan(args[i..], option) == (OptScan(next[i..], option).0, Later(OptScan(next[i..], option).1, Some(args[i][|option| + 1..])))
  {
    var next := args[..i] + args[i + 1..];
    assert args[i..][1..] == next[i..];
    ScanAssign(args[i..], option);
  }

  /** The loop of ParseOptString stepping over the first argument of suffix, which it keeps. */
  lemma KeepStep(prefix: seq<string>, suffix: seq<string>, option: string)
    requires suffix != [] && !(suffix[0] == option && |suffix| > 1) && !SfzRegion.StartsWith(suffix[0], option + "=")
    ensures (prefix + [suffix[0]]) + OptScan(suffix[1..], option).0 == prefix + OptScan(suffix, option).0
    ensures OptScan(suffix[1..], option).1 == OptScan(suffix, option).1
  {
    ScanKeep(suffix, option);
  }

  /** The index of the first argument equal to option. */
  function FirstEqual(args: seq<string>, option: string, i: nat): (r: Option<nat>)
    requires i <= |args|
    ensures r.Some? ==>
      i <= r.value < |args| && args[r.value] == option && forall j :: i <= j < r.value ==> args[j] != option
    ensures r.None? ==> option !in args[i..]
    decreases |args| - i
  {
    if i == |args| then None
    else if args[i] == option then Some(i)
    else FirstEqual(args, option, i + 1)
  }

  /** ArgParser. */
  class ArgParser {
    var args: seq<string>

    /** The constructor: argv[1..argc) in order. */
    constructor (argv: seq<string>)
      ensures args == if |argv| > 0 then argv[1..] else []
    {
      var a := [];
      var i := 1;
      while i < |argv|
        invariant 1 <= i && (|argv| > 0 ==> i <= |argv|)
        invariant a == if |argv| > 0 then argv[1..i] else []
      {
        a := a + [argv[i]];
        i := i + 1;
      }
      args := a;
    }

    /**
      * `parse_cmd`: true exactly when the first positional argument is cmd,
      * which is then removed; otherwise nothing changes.
      */
    method ParseCmd(cmd: string) returns (found: bool)
      modifies this`args
      ensures var p := FirstPositional(old(args), 0);
        (found <==> p.Some? && old(args)[p.value] == cmd) &&
        (found ==> args == Without(old(args), p.value)) &&
        (!found ==> args == old(args))
    {
      var i := 0;
      while i < |args|
        invariant i <= |args|
        invariant FirstPositional(args, 0) == FirstPositional(args, i)
      {
        if args[i] != [] && args[i][0] != '-' {
          if args[i] == cmd {
            args := args[..i] + args[i + 1..];
            return true;
          } else {
            return false;
          }
        }
        i := i + 1;
      }
      return false;
    }

    /**
      * `parse_opt (option, out_s)`: removes every "option value" pair and
      * every "option=value" argument; out_s becomes the last value found
      * and stays outS0 when there is none.
      */
    method ParseOptString(option: string, outS0: string) returns (found: bool, outS: string)
      modifies this`args
      ensures var (rest, v) := OptScan(old(args), option);
        args == rest && (found <==> v.Some?) && outS == (if v.Some? then v.value else outS0)
    {
      ghost var orig := args;
      ghost var v: Option<string> := None;
      found := false;
      outS := outS0;
      var i := 0;
      assert args[i..] == args && args[..i] == [];
      while i < |args|
        invariant i <= |args|
        invariant args[..i] + OptScan(args[i..], option).0 == OptScan(orig, option).0
        invariant Later(OptScan(args[i..], option).1, v) == OptScan(orig, option).1
        invariant found == v.Some? && outS == (if found then v.value else outS0)
        decreases |args| - i
      {
        if args[i] == option && i + 1 < |args| {
          PairStep(args, i, option);
          outS := args[i + 1];
          args := args[..i] + args[i + 2..];
          found, v := true, Some(outS);
        } else if SfzRegion.StartsWith(args[i], option + "=") {
          AssignStep(args, i, option);
          outS := args[i][|option| + 1..];
          args := args[..i] + args[i + 1..];
          found, v := true, Some(outS);
        } else {
          KeepStep(args[..i], args[i..], option);
          assert args[i..][1..] == args[i + 1..] && args[..i + 1] == args[..i] + [args[i]];
          i := i + 1;
        }
      }
      assert args[i..] == [];
    }

    /** `parse_opt (option, out_i)`: atoi of the value when the option is found; out_i is kept otherwise. */
    method ParseOptInt(option: string, outI0: int) returns (found: bool, outI: int)
      modifies this`args
      ensures var (rest, v) := OptScan(old(args), option);
        args == rest && (found <==> v.Some?) && outI == (if v.Some? then Atoi(v.value) else outI0)
    {
      var s;
      found, s := ParseOptString(option, "");
      outI := if found then Atoi(s) else outI0;
    }

    /** `parse_opt (option, out_f)`: atof of the value when the option is found. */
    method ParseOptReal(option: string, outF0: real) returns (found: bool, outF: real)
      modifies this`args
      ensures var (rest, v) := OptScan(old(args), option);
        args == rest && (found <==> v.Some?) && outF == (if v.Some? then Atof(v.value) else outF0)
    {
      var s;
      found, s := ParseOptString(option, "");
      outF := if found then Atof(s) else outF0;
    }

    /** `parse_opt (option)`: removes the first argument equal to option. */
    method ParseFlag(option: string) returns (found: bool)
      modifies this`args
      ensures var e := FirstEqual(old(args), option, 0);
        (found <==> e.Some?) && (found ==> args == Without(old(args), e.value)) && (!found ==> args == old(args))
    {
      var i := 0;
      while i < |args|
        invariant i <= |args|
        invariant FirstEqual(args, option, 0) == FirstEqual(args, option, i)
      {
        if args[i] == option {
          args := args[..i] + args[i + 1..];
          return true;
        }
        i := i + 1;
      }
      return false;
    }

    /** `parse_args`: the remaining arguments, when there are exactly expectedCount of them. */
    method ParseArgs(expectedCount: nat, outArgs0: seq<string>) returns (ok: bool, outArgs: seq<string>)
      ensures ok <==> |args| == expectedCount
      ensures outArgs == if ok then args else outArgs0
    {
      if |args| == expectedCount {
        return true, args;
      }
      return false, outArgs0;
    }
  }
}
