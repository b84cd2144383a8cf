/**
  * The SFZ preprocessor: a file is cut into lines, each line loses its
  * "//" comment, and a line that is an #include directive is replaced by
  * the lines of the included file. Files are looked up in a map from name to
  * contents; a name missing from the map is a file that cannot be opened.
  */
module Preprocess {
  import opened Text

  /** One preprocessed line: its file, its 1-based number there, and its text. */
  datatype LineInfo = LineInfo(filename: string, number: nat, line: string)

  /** The line splitter's state after a prefix of the file: the finished lines and the one being read. */
  datatype SplitState = SplitState(finished: seq<string>, current: string)

  /** Characters are appended to the current line, '\n' finishes it, and '\r' is dropped. */
  function SplitPrefix(c: string): SplitState
  {
    if c == [] then SplitState([], [])
    else
      var st := SplitPrefix(c[..|c| - 1]);
      var ch := c[|c| - 1];
      if ch == '\n' then SplitState(st.finished + [st.current], [])
      else if ch == '\r' then st
      else SplitState(st.finished, st.current + [ch])
  }

  /** The lines of a file: every '\n'-terminated line, then the last line when it is not empty. */
  function SplitLines(c: string): seq<string>
  {
    var st := SplitPrefix(c);
    if st.current == [] then st.finished else st.finished + [st.current]
  }

  /** The file with every carriage return removed. */
  function DropCR(c: string): string
  {
    if c == [] then [] else DropCR(c[..|c| - 1]) + (if c[|c| - 1] == '\r' then [] else [c[|c| - 1]])
  }

  /** The lines written back, each followed by '\n'. */
  function Terminated(lines: seq<string>): string
  {
    if lines == [] then [] else Terminated(lines[..|lines| - 1]) + lines[|lines| - 1] + "\n"
  }

  predicate NoLineBreak(l: string)
  {
    '\n' !in l && '\r' !in l
  }

  /** Number of '\n' characters. */
  function Newlines(c: string): nat
  {
    if c == [] then 0 else Newlines(c[..|c| - 1]) + (if c[|c| - 1] == '\n' then 1 else 0)
  }

  lemma {:induction false} SplitPrefixInvariant(c: string)
    ensures var st := SplitPrefix(c);
      DropCR(c) == Terminated(st.finished) + st.current &&
      NoLineBreak(st.current) && (forall l :: l in st.finished ==> NoLineBreak(l)) &&
      |st.finished| == Newlines(c)
  {
    if c != [] {
      var p := c[..|c| - 1];
      SplitPrefixInvariant(p);
      var st := SplitPrefix(p);
      if c[|c| - 1] == '\n' {
        assert (st.finished + [st.current])[..|st.finished|] == st.finished;
      }
    }
  }

  /**
    * Splitting loses nothing but carriage returns: writing the lines back
    * with a '\n' after each gives the file without '\r' (with a final
    * '\n' added when the file did not end with one), no line contains a
    * line break, and there is one line per '\n' plus a final unterminated one.
    */
  lemma SplitLinesRoundTrip(c: string)
    ensures var d := DropCR(c);
      if d == [] || d[|d| - 1] == '\n' then Terminated(SplitLines(c)) == d
      else Terminated(SplitLines(c)) == d + "\n"
    ensures forall l :: l in SplitLines(c) ==> NoLineBreak(l)
    ensures |SplitLines(c)| == Newlines(c) + (if SplitPrefix(c).current == [] then 0 else 1)
  {
    SplitPrefixInvariant(c);
    var st := SplitPrefix(c);
    if st.current != [] {
      var ls := st.finished + [st.current];
      assert ls[..|ls| - 1] == st.finished;
    } else if st.finished != [] {
      var t := Terminated(st.finished);
      assert t[|t| - 1] == '\n';
    }
  }

  lemma {:induction false} SplitPrefixGrows(c: string, i: nat)
    requires i <= |c|
    ensures SplitPrefix(c[..i]).finished <= SplitPrefix(c).finished
    decreases |c|
  {
    if i < |c| {
      var p := c[..|c| - 1];
      assert p[..i] == c[..i];
      SplitPrefixGrows(p, i);
    } else {
      assert c[..i] == c;
    }
  }

  /** `//.*$`: the line up to its first "//". */
  function StripComment(l: string): string
  {
    if |l| < 2 then l
    else if l[0] == '/' && l[1] == '/' then []
    else [l[0]] + StripComment(l[1..])
  }

  /** Stripping keeps a prefix of the line that holds no "//", and cuts only where "//" starts. */
  lemma {:induction false} StripCommentCutsAtFirstComment(l: string)
    ensures var r := StripComment(l);
      r <= l &&
      (forall i :: 0 <= i < |r| - 1 ==> !(r[i] == '/' && r[i + 1] == '/')) &&
      (|r| < |l| ==> |r| + 2 <= |l| && l[|r|] == '/' && l[|r| + 1] == '/')
  {
    if |l| >= 2 && !(l[0] == '/' && l[1] == '/') {
      StripCommentCutsAtFirstComment(l[1..]);
    }
  }

  /** A line without "//" is left as it is. */
  lemma {:induction false} StripCommentWithoutComment(l: string)
    requires forall i :: 0 <= i < |l| - 1 ==> !(l[i] == '/' && l[i + 1] == '/')
    ensures StripComment(l) == l
  {
    if |l| >= 2 {
      StripCommentWithoutComment(l[1..]);
      assert [l[0]] + l[1..] == l;
    }
  }

  /** The input with its trailing white space removed. */
  function TrimTrailingSpaces(s: string): (r: string)
    ensures r <= s
    ensures |r| > 0 ==> !IsSpace(r[|r| - 1])
  {
    if |s| > 0 && IsSpace(s[|s| - 1]) then TrimTrailingSpaces(s[..|s| - 1]) else s
  }

  /** Where the scan of an #include directive stands. */
  datatype ScanStage = Lead | AfterHash | Keyword(k: nat) | Gap(seen: bool)

  /** The k-th character of the word "include". */
  function KeywordChar(k: nat): char
  {
    match k
    case 0 => 'i'
    case 1 => 'n'
    case 2 => 'c'
    case 3 => 'l'
    case 4 => 'u'
    case 5 => 'd'
    case _ => 'e'
  }

  /**
    * A whole-line match of `\s*#\s*include\s+["<](.*)[">]\s*`, giving the
    * captured file name, as an automaton over the line: white space, '#',
    * white space, the word "include", at least one white space character,
    * and an opening '"' or '<'.
    */
  function IncludeScan(s: string, stage: ScanStage): Option<string>
    decreases |s|
  {
    if |s| == 0 then None
    else
      var c := s[0];
      match stage
      case Lead =>
        if IsSpace(c) then IncludeScan(s[1..], Lead)
        else if c == '#' then IncludeScan(s[1..], AfterHash)
        else None
      case AfterHash =>
        if IsSpace(c) then IncludeScan(s[1..], AfterHash)
        else if c == KeywordChar(0) then IncludeScan(s[1..], Keyword(1))
        else None
      case Keyword(k) =>
        if c != KeywordChar(k) then None
        else if k >= 6 then IncludeScan(s[1..], Gap(false))
        else IncludeScan(s[1..], Keyword(k + 1))
      case Gap(seen) =>
        if IsSpace(c) then IncludeScan(s[1..], Gap(true))
        else if seen && (c == '"' || c == '<') then QuotedName(s[1..])
        else None
  }

  /**
    * After the opening quote: the greedy `(.*)` ends at the last '"' or '>'
    * that only white space follows.
    */
  function QuotedName(r: string): (name: Option<string>)
    ensures name.Some? ==> name.value < r
  {
    var f := TrimTrailingSpaces(r);
    if |f| == 0 || (f[|f| - 1] != '"' && f[|f| - 1] != '>') then None
    else Some(f[..|f| - 1])
  }

  /** The file an #include line names, or None for any other line. */
  function IncludeTarget(line: string): Option<string>
  {
    IncludeScan(line, Lead)
  }

  /** `#include "name"` names exactly the file between the quotes, whatever characters that name holds. */
  lemma IncludeOfQuotedName(name: string)
    ensures IncludeTarget("#include \"" + name + "\"") == Some(name)
  {
    var line := ['#', 'i', 'n', 'c', 'l', 'u', 'd', 'e', ' ', '"'] + name + ['"'];
    assert line == "#include \"" + name + "\"";
    assert IncludeScan(line, Lead) == IncludeScan(line[1..], AfterHash);
    assert IncludeScan(line[1..], AfterHash) == IncludeScan(line[2..], Keyword(1)) by {
      assert line[1..][1..] == line[2..];
    }
    assert IncludeScan(line[2..], Keyword(1)) == IncludeScan(line[3..], Keyword(2)) by {
      assert line[2..][1..] == line[3..];
    }
    assert IncludeScan(line[3..], Keyword(2)) == IncludeScan(line[4..], Keyword(3)) by {
      assert line[3..][1..] == line[4..];
    }
    assert IncludeScan(line[4..], Keyword(3)) == IncludeScan(line[5..], Keyword(4)) by {
      assert line[4..][1..] == line[5..];
    }
    assert IncludeScan(line[5..], Keyword(4)) == IncludeScan(line[6..], Keyword(5)) by {
      assert line[5..][1..] == line[6..];
    }
    assert IncludeScan(line[6..], Keyword(5)) == IncludeScan(line[7..], Keyword(6)) by {
      assert line[6..][1..] == line[7..];
    }
    assert IncludeScan(line[7..], Keyword(6)) == IncludeScan(line[8..], Gap(false)) by {
      assert line[7..][1..] == line[8..];
    }
    assert IncludeScan(line[8..], Gap(false)) == IncludeScan(line[9..], Gap(true)) by {
      assert line[8..][1..] == line[9..];
    }
    assert IncludeScan(line[9..], Gap(true)) == QuotedName(line[10..]) by {
      assert line[9..][1..] == line[10..];
    }
    assert QuotedName(line[10..]) == Some(name) by {
      assert line[10..] == name + ['"'];
      assert TrimTrailingSpaces(name + ['"']) == name + ['"'];
      assert (name + ['"'])[..|name|] == name;
    }
  }

  /** A line whose first character other than white space is not '#' is not a directive. */
  lemma {:induction false} DirectiveNeedsHash(line: string, i: nat)
    requires i < |line| && line[i] != '#' && !IsSpace(line[i])
    requires forall j :: 0 <= j < i ==> IsSpace(line[j])
    ensures IncludeTarget(line) == None
  {
    if i > 0 {
      DirectiveNeedsHash(line[1..], i - 1);
    }
  }

  /** A file none of whose lines is an #include directive once its comment is stripped. */
  predicate NoIncludes(c: string)
  {
    AllPlain(SplitLines(c))
  }

  /** None of the lines is an #include directive once its comment is stripped. */
  predicate AllPlain(ls: seq<string>)
  {
    ls == [] || (AllPlain(ls[..|ls| - 1]) && IncludeTarget(StripComment(ls[|ls| - 1])).None?)
  }

  lemma {:induction false} AllPlainElement(ls: seq<string>, i: nat)
    requires AllPlain(ls) && i < |ls|
    ensures IncludeTarget(StripComment(ls[i])).None?
  {
    if i < |ls| - 1 {
      AllPlainElement(ls[..|ls| - 1], i);
    }
  }

  lemma {:induction false} AllPlainPrefix(ls: seq<string>, k: nat)
    requires AllPlain(ls) && k <= |ls|
    ensures AllPlain(ls[..k])
  {
    if k < |ls| {
      assert ls[..|ls| - 1][..k] == ls[..k];
      AllPlainPrefix(ls[..|ls| - 1], k);
    } else {
      assert ls[..k] == ls;
    }
  }

  /** The lines of one file as the preprocessor emits them: numbered from 1, comments stripped. */
  function Numbered(filename: string, ls: seq<string>): (r: seq<LineInfo>)
    ensures |r| == |ls|
  {
    if ls == [] then [] else Numbered(filename, ls[..|ls| - 1]) + [LineInfo(filename, |ls|, StripComment(ls[|ls| - 1]))]
  }

  /** Line k of a file (counting from 0) is emitted with number k + 1 and its comment stripped. */
  lemma {:induction false} NumberedLines(filename: string, ls: seq<string>)
    ensures |Numbered(filename, ls)| == |ls|
    ensures forall i :: 0 <= i < |ls| ==> Numbered(filename, ls)[i] == LineInfo(filename, i + 1, StripComment(ls[i]))
  {
    if ls != [] {
      NumberedLines(filename, ls[..|ls| - 1]);
    }
  }

  lemma NumberedSnoc(filename: string, ls: seq<string>, l: string)
    ensures Numbered(filename, ls + [l]) == Numbered(filename, ls) + [LineInfo(filename, |ls| + 1, StripComment(l))]
  {
    assert (ls + [l])[..|ls|] == ls;
  }

  /** What `preprocess_line` does with one line, given the files already read. */
  datatype LineAction = Emit(l: LineInfo) | AlreadyIncluded(name: string) | CannotOpen(name: string) | Expand(name: string)

  function LineStep(info: LineInfo, done: set<string>, files: map<string, string>): (r: LineAction)
    ensures r.Emit? <==> IncludeTarget(StripComment(info.line)).None?
    ensures r.Emit? ==> r.l == LineInfo(info.filename, info.number, StripComment(info.line))
    ensures !r.Emit? ==> Some(r.name) == IncludeTarget(StripComment(info.line))
    ensures r.AlreadyIncluded? <==> !r.Emit? && r.name in done
    ensures r.CannotOpen? <==> !r.Emit? && r.name !in done && r.name !in files
    ensures r.Expand? ==> r.name !in done && r.name in files
  {
    var stripped := StripComment(info.line);
    match IncludeTarget(stripped)
    case None => Emit(LineInfo(info.filename, info.number, stripped))
    case Some(inc) =>
      if inc in done then AlreadyIncluded(inc)
      else if inc !in files then CannotOpen(inc)
      else Expand(inc)
  }

  lemma CardinalityMonotone<T>(a: set<T>, b: set<T>)
    requires a <= b
    ensures |a| <= |b|
  {
    if a != {} {
      var x :| x in a;
      CardinalityMonotone(a - {x}, b - {x});
    }
  }

  /**
    * What preprocessing a line, a file or the rest of a file's lines does:
    * whether it succeeded, the set of files read afterwards, and the lines
    * it appended (on failure, those appended before the failing line).
    */
  datatype Outcome = Outcome(ok: bool, done: set<string>, lines: seq<LineInfo>)

  /** `preprocess_line` on one line, given the files already read. */
  function LineOutcome(files: map<string, string>, done: set<string>, info: LineInfo): (o: Outcome)
    ensures o.done >= done
    decreases |files.Keys - done|, 0
  {
    match LineStep(info, done, files)
    case Emit(l) => Outcome(true, done, [l])
    case AlreadyIncluded(_) => Outcome(true, done, [])
    case CannotOpen(_) => Outcome(false, done, [])
    case Expand(inc) =>
      assert files.Keys - (done + {inc}) == (files.Keys - done) - {inc};
      FileOutcome(files, done, inc)
  }

  /** `preprocess_file`: a file that cannot be opened fails; otherwise it is marked read and its lines are preprocessed. */
  function FileOutcome(files: map<string, string>, done: set<string>, name: string): (o: Outcome)
    ensures o.done >= done
    decreases |files.Keys - (done + {name})|, 2
  {
    if name !in files then Outcome(false, done, [])
    else LinesOutcome(files, done + {name}, name, SplitLines(files[name]), 0)
  }

  /** The line loop of `preprocess_file` from line k on: the first line that fails stops the file. */
  function LinesOutcome(files: map<string, string>, done: set<string>, name: string, texts: seq<string>, k: nat): (o: Outcome)
    requires k <= |texts|
    ensures o.done >= done
    decreases |files.Keys - done|, 1, |texts| - k
  {
    if k == |texts| then Outcome(true, done, [])
    else
      var first := LineOutcome(files, done, LineInfo(name, k + 1, texts[k]));
      if !first.ok then first
      else
        CardinalityMonotone(files.Keys - first.done, files.Keys - done);
        var rest := LinesOutcome(files, first.done, name, texts, k + 1);
        Outcome(rest.ok, rest.done, first.lines + rest.lines)
  }

  /** A successful line loop over lines without directives emits exactly their numbered, stripped forms. */
  lemma {:induction false} PlainLinesOutcome(files: map<string, string>, done: set<string>, name: string, texts: seq<string>, k: nat)
    requires AllPlain(texts) && k <= |texts|
    ensures LinesOutcome(files, done, name, texts, k) == Outcome(true, done, Numbered(name, texts)[k..])
    decreases |texts| - k
  {
    if k < |texts| {
      var ns := Numbered(name, texts);
      var l := LineInfo(name, k + 1, StripComment(texts[k]));
      assert ns[k] == l by {
        NumberedLines(name, texts);
      }
      assert LineOutcome(files, done, LineInfo(name, k + 1, texts[k])) == Outcome(true, done, [l]) by {
        AllPlainElement(texts, k);
      }
      PlainLinesOutcome(files, done, name, texts, k + 1);
      assert ns[k..] == [l] + ns[k + 1..];
    }
  }

  /** A file without directives, not yet read, expands to its numbered, stripped lines and is then read. */
  lemma FileWithoutIncludes(files: map<string, string>, done: set<string>, name: string)
    requires name in files && NoIncludes(files[name])
    ensures FileOutcome(files, done, name) == Outcome(true, done + {name}, Numbered(name, SplitLines(files[name])))
  {
    PlainLinesOutcome(files, done + {name}, name, SplitLines(files[name]), 0);
  }

  /** An #include of a file not yet read and without directives of its own appends that file's lines in place of the directive. */
  lemma IncludeExpandsInPlace(files: map<string, string>, done: set<string>, info: LineInfo, inc: string)
    requires IncludeTarget(StripComment(info.line)) == Some(inc)
    requires inc !in done && inc in files && NoIncludes(files[inc])
    ensures LineOutcome(files, done, info) == Outcome(true, done + {inc}, Numbered(inc, SplitLines(files[inc])))
  {
    FileWithoutIncludes(files, done, inc);
  }

  /**
    * The outcome of the line loop that has reached line k with the given
    * success flag and read files, having appended `emitted` so far: the
    * rest of the loop follows unless a line has failed.
    */
  function Resumed(files: map<string, string>, name: string, texts: seq<string>, k: nat,
                   ok: bool, done: set<string>, emitted: seq<LineInfo>): Outcome
    requires k <= |texts|
  {
    if !ok then Outcome(false, done, emitted)
    else
      var rest := LinesOutcome(files, done, name, texts, k);
      Outcome(rest.ok, rest.done, emitted + rest.lines)
  }

  /** One round of the line loop: line k is preprocessed and the loop goes on from k + 1 with what it left. */
  lemma ResumedStep(files: map<string, string>, name: string, texts: seq<string>, k: nat,
                    done: set<string>, emitted: seq<LineInfo>)
    requires k < |texts|
    ensures var o := LineOutcome(files, done, LineInfo(name, k + 1, texts[k]));
      Resumed(files, name, texts, k + 1, o.ok, o.done, emitted + o.lines) == Resumed(files, name, texts, k, true, done, emitted)
  {
    var o := LineOutcome(files, done, LineInfo(name, k + 1, texts[k]));
    if o.ok {
      var rest := LinesOutcome(files, o.done, name, texts, k + 1);
      assert emitted + o.lines + rest.lines == emitted + (o.lines + rest.lines);
    }
  }

  /**
    * The character loop of `preprocess_file` (and of the prototype's
    * `parse`): '\r' is dropped, '\n' ends the current line, and a last line
    * without '\n' is kept when it is not empty.
    */
  method ReadLines(contents: string) returns (ls: seq<string>)
    ensures ls == SplitLines(contents)
  {
    ls := [];
    var current: string := [];
    var i := 0;
    while i < |contents|
      invariant 0 <= i <= |contents|
      invariant SplitPrefix(contents[..i]) == SplitState(ls, current)
    {
      assert contents[..i + 1][..i] == contents[..i];
      var ch := contents[i];
      if ch != '\r' && ch != '\n' {
        current := current + [ch];
      } else if ch == '\n' {
        ls := ls + [current];
        current := [];
      }
      i := i + 1;
    }
    assert contents[..i] == contents;
    if current != [] {
      ls := ls + [current];
    }
  }

  /** `preprocess_file` and `preprocess_line` with the set of files already read. */
  class Preprocessor {
    const files: map<string, string>
    var done: set<string>
    var lines: seq<LineInfo>

    constructor(files: map<string, string>)
      ensures this.files == files && done == {} && lines == []
    {
      this.files := files;
      done := {};
      lines := [];
    }

    /**
      * A plain line is appended with its comment removed. An #include of a
      * file not yet read pulls that file in; one already read is skipped
      * (with a warning), which is what stops a file from including itself
      * forever.
      */
    method PreprocessLine(info: LineInfo) returns (ok: bool)
      modifies this
      decreases |files.Keys - done|, 0
      ensures done >= old(done) && old(lines) <= lines
      ensures var o := LineOutcome(files, old(done), info);
        ok == o.ok && done == o.done && lines == old(lines) + o.lines
      ensures match LineStep(info, old(done), files)
        case Emit(l) => ok && done == old(done) && lines == old(lines) + [l]
        case AlreadyIncluded(_) => ok && done == old(done) && lines == old(lines)
        case CannotOpen(_) => !ok && done == old(done) && lines == old(lines)
        case Expand(inc) => inc in done
    {
      match LineStep(info, done, files)
      case Emit(l) =>
        lines := lines + [l];
        ok := true;
      case AlreadyIncluded(_) =>
        ok := true;
      case CannotOpen(_) =>
        ok := false;
      case Expand(inc) =>
        assert files.Keys - (done + {inc}) == (files.Keys - done) - {inc};
        ok := PreprocessFile(inc);
    }

    /**
      * Reads a file line by line: '\r' is dropped, '\n' ends a line, lines
      * are numbered from 1, and a last line without '\n' is kept when it is
      * not empty. The file is marked as read before its lines are processed.
      */
    method PreprocessFile(name: string) returns (ok: bool)
      modifies this
      decreases |files.Keys - (done + {name})|, 2
      ensures done >= old(done) && old(lines) <= lines
      ensures name !in files ==> !ok && done == old(done) && lines == old(lines)
      ensures name in files ==> name in done
      ensures name in files && NoIncludes(files[name]) ==>
        ok && lines == old(lines) + Numbered(name, SplitLines(files[name]))
      ensures var o := FileOutcome(files, old(done), name);
        ok == o.ok && done == o.done && lines == old(lines) + o.lines
    {
      if name !in files {
        return false;
      }
      if NoIncludes(files[name]) {
        FileWithoutIncludes(files, done, name);
      }
      done := done + {name};
      var lineTexts := ReadLines(files[name]);
      ok := PreprocessLines(name, lineTexts);
    }

    /** The line loop of `preprocess_file`: the first line that fails stops the file. */
    method PreprocessLines(name: string, texts: seq<string>) returns (ok: bool)
      modifies this
      decreases |files.Keys - done|, 1
      ensures done >= old(done) && old(lines) <= lines
      ensures AllPlain(texts) ==> ok && lines == old(lines) + Numbered(name, texts)
      ensures var o := LinesOutcome(files, old(done), name, texts, 0);
        ok == o.ok && done == o.done && lines == old(lines) + o.lines
    {
      ghost var done0 := done;
      ghost var lines0 := lines;
      ok := true;
      var k := 0;
      assert lines[|lines0|..] == [];
      while k < |texts| && ok
        invariant 0 <= k <= |texts|
        invariant done >= done0 && lines0 <= lines
        invariant Resumed(files, name, texts, k, ok, done, lines[|lines0|..]) == LinesOutcome(files, done0, name, texts, 0)
      {
        var info := LineInfo(name, k + 1, texts[k]);
        ghost var emitted := lines[|lines0|..];
        ghost var before := lines;
        ResumedStep(files, name, texts, k, done, emitted);
        CardinalityMonotone(files.Keys - done, files.Keys - done0);
        ok := PreprocessLine(info);
        assert lines[|lines0|..] == emitted + lines[|before|..];
        k := k + 1;
      }
      assert lines == lines0 + lines[|lines0|..];
      if AllPlain(texts) {
        PlainLinesOutcome(files, done0, name, texts, 0);
        assert Numbered(name, texts)[0..] == Numbered(name, texts);
      }
    }
  }
}
