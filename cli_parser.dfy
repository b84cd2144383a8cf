/**
  * The command line of the interactive liquidsfz program (src/cliparser.cc,
  * src/cliparser.hh): a line is split into tokens by a five-state machine,
  * and each `command` overload matches the tokens against a command name
  * and converts its arguments.
  */
module CliParsing {
  import opened Text

  /** `string_chars`: the characters an unquoted token is made of. */
  predicate IsWordChar(ch: char)
  {
    ('A' <= ch <= 'Z') || ('0' <= ch <= '9') || ('a' <= ch <= 'z') ||
    ch == '.' || ch == ':' || ch == '=' || ch == '/' || ch == '-' || ch == '_'
  }

  /** `white_space`. */
  predicate WhiteSpace(ch: char)
  {
    ch == ' ' || ch == '\n' || ch == '\t' || ch == '\r'
  }

  /** The states of the tokenizer. */
  datatype Mode = Blank | Word | Quoted | QuotedEscaped | Comment

  /** The tokenizer between two characters: its state, the pending token s and the tokens so far. */
  datatype Cursor = Cursor(mode: Mode, word: string, tokens: seq<string>)

  /**
    * One character of the tokenizer, state by state; None is the `return
    * false` for a character no branch of the loop accepts.
    */
  function Step(c: Cursor, ch: char): Option<Cursor>
  {
    match c.mode
    case Blank =>
      if IsWordChar(ch) then Some(Cursor(Word, c.word + [ch], c.tokens))
      else if ch == '"' then Some(Cursor(Quoted, c.word, c.tokens))
      else if WhiteSpace(ch) then Some(c)
      else if ch == '#' then Some(Cursor(Comment, c.word, c.tokens))
      else None
    case Word =>
      if IsWordChar(ch) then Some(Cursor(Word, c.word + [ch], c.tokens))
      else if WhiteSpace(ch) then Some(Cursor(Blank, [], c.tokens + [c.word]))
      else if ch == '#' then Some(Cursor(Comment, c.word, c.tokens))
      else None
    case Quoted =>
      if ch == '"' then Some(Cursor(Blank, [], c.tokens + [c.word]))
      else if ch == '\\' then Some(Cursor(QuotedEscaped, c.word, c.tokens))
      else Some(Cursor(Quoted, c.word + [ch], c.tokens))
    case QuotedEscaped => Some(Cursor(Quoted, c.word + [ch], c.tokens))
    case Comment => Some(c)
  }

  /** How a run of the tokenizer ends: rejected at a character, or at the end of the input. */
  datatype Outcome = Failed(tokens: seq<string>) | Finished(cursor: Cursor)

  /** The tokenizer fed the characters xs from the cursor c. */
  function Run(c: Cursor, xs: string): Outcome
    decreases |xs|
  {
    if xs == [] then Finished(c)
    else match Step(c, xs[0])
      case None => Failed(c.tokens)
      case Some(n) => Run(n, xs[1..])
  }

  /**
    * What `tokenize (line)` returns and leaves in `tokens`: the line gets a
    * '\n' appended, and it succeeds when it ends outside a token and outside
    * quotes. Tokens pushed before a rejected character stay in `tokens`.
    */
  function Tokenized(line: string): (bool, seq<string>)
  {
    match Run(Cursor(Blank, [], []), line + "\n")
    case Failed(t) => (false, t)
    case Finished(c) => (c.mode == Blank || c.mode == Comment, c.tokens)
  }

  /** Run advances by one character of xs at index i. */
  lemma RunAdvance(c: Cursor, xs: string, i: nat)
    requires i < |xs|
    ensures Step(c, xs[i]).Some? ==> Run(c, xs[i..]) == Run(Step(c, xs[i]).value, xs[i + 1..])
    ensures Step(c, xs[i]).None? ==> Run(c, xs[i..]) == Failed(c.tokens)
  {
    assert xs[i..][0] == xs[i] && xs[i..][1..] == xs[i + 1..];
  }

  // ---------------------------------------------------------------------
  // Unquoted tokens: maximal runs of word characters between blanks

  predicate AllWordChars(w: string)
  {
    forall j :: 0 <= j < |w| ==> IsWordChar(w[j])
  }

  /** Lines of word characters and whitespace only. */
  predicate Plain(xs: string)
  {
    forall j :: 0 <= j < |xs| ==> IsWordChar(xs[j]) || WhiteSpace(xs[j])
  }

  /** The length of the run of word characters xs starts with. */
  function WordLen(xs: string): (n: nat)
    ensures n <= |xs|
    decreases |xs|
  {
    if xs == [] || !IsWordChar(xs[0]) then 0 else 1 + WordLen(xs[1..])
  }

  /** The maximal runs of word characters of xs, left to right: a reference splitter. */
  function Words(xs: string): seq<string>
    decreases |xs|
  {
    if xs == [] then []
    else if !IsWordChar(xs[0]) then Words(xs[1..])
    else
      var n := WordLen(xs);
      [xs[..n]] + Words(xs[n..])
  }

  /** A run of word characters followed by the end or by another character is measured exactly. */
  lemma {:induction false} WordLenOfWord(w: string, xs: string)
    requires AllWordChars(w)
    requires xs == [] || !IsWordChar(xs[0])
    ensures WordLen(w + xs) == |w|
    decreases |w|
  {
    if w != [] {
      assert (w + xs)[1..] == w[1..] + xs;
      WordLenOfWord(w[1..], xs);
    } else {
      assert w + xs == xs;
    }
  }

  /** A pending word w followed by a blank is one whole token. */
  lemma WordsAfterWord(w: string, xs: string)
    requires AllWordChars(w) && w != []
    requires xs == [] || !IsWordChar(xs[0])
    ensures Words(w + xs) == [w] + Words(xs)
  {
    WordLenOfWord(w, xs);
    assert (w + xs)[..|w|] == w && (w + xs)[|w|..] == xs;
  }

  /** Run over a line with its '\n' appended, by one character. */
  lemma RunLine(c: Cursor, xs: string)
    requires xs != [] && Step(c, xs[0]).Some?
    ensures Run(c, xs + "\n") == Run(Step(c, xs[0]).value, xs[1..] + "\n")
  {
    assert (xs + "\n")[0] == xs[0] && (xs + "\n")[1..] == xs[1..] + "\n";
  }

  lemma PlainTail(xs: string)
    requires xs != [] && Plain(xs)
    ensures Plain(xs[1..]) && (IsWordChar(xs[0]) || WhiteSpace(xs[0]))
  {
    assert forall j :: 0 <= j < |xs[1..]| ==> xs[1..][j] == xs[j + 1];
  }

  /** From the Blank state, a plain line and its '\n' append the words of the line. */
  lemma {:induction false} RunPlainBlank(toks: seq<string>, xs: string)
    requires Plain(xs)
    ensures Run(Cursor(Blank, [], toks), xs + "\n") == Finished(Cursor(Blank, [], toks + Words(xs)))
    decreases |xs|, 0
  {
    var c := Cursor(Blank, [], toks);
    if xs == [] {
      assert xs + "\n" == ['\n'] + [];
      RunCons(c, '\n', []);
      assert toks + Words(xs) == toks;
    } else {
      PlainTail(xs);
      RunLine(c, xs);
      if IsWordChar(xs[0]) {
        assert AllWordChars([xs[0]]) && [] + [xs[0]] == [xs[0]];
        RunPlainWord([xs[0]], toks, xs[1..]);
        assert [xs[0]] + xs[1..] == xs;
      } else {
        RunPlainBlank(toks, xs[1..]);
      }
    }
  }

  /** From the Word state with pending word w, a plain line and its '\n' append the words of w + xs. */
  lemma {:induction false} RunPlainWord(w: string, toks: seq<string>, xs: string)
    requires Plain(xs) && AllWordChars(w) && w != []
    ensures Run(Cursor(Word, w, toks), xs + "\n") == Finished(Cursor(Blank, [], toks + Words(w + xs)))
    decreases |xs|, 1
  {
    var c := Cursor(Word, w, toks);
    if xs == [] {
      assert xs + "\n" == "\n" && w + xs == w;
      WordAtEnd(w, toks);
    } else {
      PlainTail(xs);
      RunLine(c, xs);
      if IsWordChar(xs[0]) {
        assert Step(c, xs[0]) == Some(Cursor(Word, w + [xs[0]], toks));
        assert AllWordChars(w + [xs[0]]);
        RunPlainWord(w + [xs[0]], toks, xs[1..]);
        assert w + [xs[0]] + xs[1..] == w + xs;
      } else {
        assert Step(c, xs[0]) == Some(Cursor(Blank, [], toks + [w]));
        RunPlainBlank(toks + [w], xs[1..]);
        WordsAfterWord(w, xs);
        assert Words(xs) == Words(xs[1..]);
        assert toks + [w] + Words(xs[1..]) == toks + ([w] + Words(xs));
      }
    }
  }

  /** A pending word is pushed by the '\n' that ends the line. */
  lemma WordAtEnd(w: string, toks: seq<string>)
    requires AllWordChars(w) && w != []
    ensures Run(Cursor(Word, w, toks), "\n") == Finished(Cursor(Blank, [], toks + Words(w)))
  {
    assert "\n" == ['\n'] + [];
    RunCons(Cursor(Word, w, toks), '\n', []);
    WordsAfterWord(w, []);
    assert w + [] == w;
  }

  /** A line of word characters and whitespace tokenizes into its maximal runs of word characters. */
  lemma TokenizePlain(line: string)
    requires Plain(line)
    ensures Tokenized(line) == (true, Words(line))
  {
    RunPlainBlank([], line);
    assert [] + Words(line) == Words(line);
  }

  /** Single blanks between tokens. */
  function Join(ws: seq<string>): string
  {
    if ws == [] then []
    else if |ws| == 1 then ws[0]
    else ws[0] + " " + Join(ws[1..])
  }

  /** Splitting the joined words gives the words back, when each is a non-empty run of word characters. */
  lemma {:induction false} WordsOfJoin(ws: seq<string>)
    requires forall k :: 0 <= k < |ws| ==> ws[k] != [] && AllWordChars(ws[k])
    ensures Plain(Join(ws)) && Words(Join(ws)) == ws
  {
    if |ws| == 1 {
      WordsAfterWord(ws[0], []);
      assert ws[0] + [] == ws[0];
    } else if ws != [] {
      var rest := Join(ws[1..]);
      WordsOfJoin(ws[1..]);
      assert ws[0] + " " + rest == ws[0] + (" " + rest);
      WordsAfterWord(ws[0], " " + rest);
      assert (" " + rest)[1..] == rest;
      assert [ws[0]] + ws[1..] == ws;
      var line := ws[0] + (" " + rest);
      assert forall j :: 0 <= j < |line| ==> (j < |ws[0]| ==> line[j] == ws[0][j]);
      assert forall j :: |ws[0]| < j < |line| ==> line[j] == rest[j - |ws[0]| - 1];
    }
  }

  /** A command line typed as words separated by single blanks tokenizes back into those words. */
  lemma TokenizeJoin(ws: seq<string>)
    requires forall k :: 0 <= k < |ws| ==> ws[k] != [] && AllWordChars(ws[k])
    ensures Tokenized(Join(ws)) == (true, ws)
  {
    WordsOfJoin(ws);
    TokenizePlain(Join(ws));
  }

  // ---------------------------------------------------------------------
  // Quoted tokens

  /** One character written for the inside of quotes: '"' and '\\' get a backslash. */
  function EscapeChar(ch: char): string
  {
    if ch == '"' || ch == '\\' then ['\\', ch] else [ch]
  }

  /** Writes t so that it reads back as t between quotes. */
  function Escape(t: string): string
  {
    if t == [] then [] else EscapeChar(t[0]) + Escape(t[1..])
  }

  /** Run over a first character x and the rest ys. */
  lemma RunCons(c: Cursor, x: char, ys: string)
    ensures Step(c, x).Some? ==> Run(c, [x] + ys) == Run(Step(c, x).value, ys)
    ensures Step(c, x).None? ==> Run(c, [x] + ys) == Failed(c.tokens)
  {
    assert ([x] + ys)[0] == x && ([x] + ys)[1..] == ys;
  }

  /** Inside quotes, one escaped character adds the character to the pending token. */
  lemma RunEscapedChar(w: string, toks: seq<string>, ch: char, rest: string)
    ensures Run(Cursor(Quoted, w, toks), EscapeChar(ch) + rest) == Run(Cursor(Quoted, w + [ch], toks), rest)
  {
    if ch == '"' || ch == '\\' {
      assert EscapeChar(ch) + rest == ['\\'] + ([ch] + rest);
      RunCons(Cursor(Quoted, w, toks), '\\', [ch] + rest);
      RunCons(Cursor(QuotedEscaped, w, toks), ch, rest);
    } else {
      RunCons(Cursor(Quoted, w, toks), ch, rest);
    }
  }

  /** Inside quotes, an escaped text adds exactly the text to the pending token. */
  lemma {:induction false} RunEscaped(w: string, toks: seq<string>, t: string, rest: string)
    ensures Run(Cursor(Quoted, w, toks), Escape(t) + rest) == Run(Cursor(Quoted, w + t, toks), rest)
    decreases |t|
  {
    if t == [] {
      assert Escape(t) + rest == rest && w + t == w;
    } else {
      assert Escape(t) + rest == EscapeChar(t[0]) + (Escape(t[1..]) + rest);
      RunEscapedChar(w, toks, t[0], Escape(t[1..]) + rest);
      RunEscaped(w + [t[0]], toks, t[1..], rest);
      assert w + [t[0]] + t[1..] == w + t;
    }
  }

  /** Any text, the empty one included, written escaped between quotes is read back as one token. */
  lemma QuotedRoundTrip(t: string)
    ensures Tokenized("\"" + Escape(t) + "\"") == (true, [t])
  {
    var end := ['"'] + ['\n'];
    assert "\"" + Escape(t) + "\"" + "\n" == ['"'] + (Escape(t) + end);
    RunCons(Cursor(Blank, [], []), '"', Escape(t) + end);
    RunEscaped([], [], t, end);
    assert [] + t == t && [] + [t] == [t] && ['\n'] + [] == ['\n'];
    RunCons(Cursor(Quoted, t, []), '"', ['\n']);
    RunCons(Cursor(Blank, [], [t]), '\n', []);
  }

  /** A line that ends inside quotes is rejected, whatever the quoted text. */
  lemma UnterminatedQuoteFails(t: string)
    ensures !Tokenized("\"" + Escape(t)).0
  {
    assert "\"" + Escape(t) + "\n" == ['"'] + (Escape(t) + ['\n']);
    RunCons(Cursor(Blank, [], []), '"', Escape(t) + ['\n']);
    RunEscaped([], [], t, ['\n']);
    RunCons(Cursor(Quoted, [] + t, []), '\n', []);
  }

  // ---------------------------------------------------------------------
  // Comments and rejected characters

  /** A comment swallows everything after it and never fails. */
  lemma {:induction false} CommentSwallows(c: Cursor, xs: string)
    requires c.mode == Comment
    ensures Run(c, xs) == Finished(c)
    decreases |xs|
  {
    if xs != [] {
      CommentSwallows(c, xs[1..]);
    }
  }

  /** Word characters after the first extend the pending word. */
  lemma {:induction false} RunWordChars(v: string, toks: seq<string>, w: string, rest: string)
    requires v != [] && AllWordChars(w)
    ensures Run(Cursor(Word, v, toks), w + rest) == Run(Cursor(Word, v + w, toks), rest)
    decreases |w|
  {
    if w == [] {
      assert w + rest == rest && v + w == v;
    } else {
      assert w + rest == [w[0]] + (w[1..] + rest);
      RunCons(Cursor(Word, v, toks), w[0], w[1..] + rest);
      assert AllWordChars(w[1..]) by {
        assert forall j :: 0 <= j < |w[1..]| ==> w[1..][j] == w[j + 1];
      }
      RunWordChars(v + [w[0]], toks, w[1..], rest);
      assert v + [w[0]] + w[1..] == v + w;
    }
  }

  /** A word the line starts with, from a blank state, becomes the pending word. */
  lemma LeadingWord(w: string, rest: string)
    requires w != [] && AllWordChars(w)
    ensures Run(Cursor(Blank, [], []), w + rest) == Run(Cursor(Word, w, []), rest)
  {
    assert w + rest == [w[0]] + (w[1..] + rest);
    RunCons(Cursor(Blank, [], []), w[0], w[1..] + rest);
    assert AllWordChars(w[1..]) by {
      assert forall j :: 0 <= j < |w[1..]| ==> w[1..][j] == w[j + 1];
    }
    assert [] + [w[0]] == [w[0]];
    RunWordChars([w[0]], [], w[1..], rest);
    assert [w[0]] + w[1..] == w;
  }

  /** A word written right before '#' is dropped with the comment: the line has no tokens. */
  lemma WordBeforeCommentDropped(w: string, rest: string)
    requires w != [] && AllWordChars(w)
    ensures Tokenized(w + "#" + rest) == (true, [])
  {
    var ys := rest + "\n";
    assert w + "#" + rest + "\n" == w + (['#'] + ys);
    LeadingWord(w, ['#'] + ys);
    RunCons(Cursor(Word, w, []), '#', ys);
    CommentSwallows(Cursor(Comment, w, []), ys);
  }

  /** A character that is neither a word character, a blank, a quote nor '#' rejects the line, also right after a word. */
  lemma OtherCharFails(w: string, ch: char, rest: string)
    requires AllWordChars(w)
    requires !IsWordChar(ch) && !WhiteSpace(ch) && ch != '"' && ch != '#'
    ensures Tokenized(w + [ch] + rest) == (false, [])
  {
    var ys := rest + "\n";
    assert w + [ch] + rest + "\n" == w + ([ch] + ys);
    if w == [] {
      assert w + ([ch] + ys) == [ch] + ys;
      RunCons(Cursor(Blank, [], []), ch, ys);
    } else {
      LeadingWord(w, [ch] + ys);
      RunCons(Cursor(Word, w, []), ch, ys);
    }
  }

  // ---------------------------------------------------------------------
  // Conversions and commands

  /** The argument types the `command` templates are used with. */
  datatype Kind = IntKind | RealKind | StringKind

  datatype Value = IntValue(i: int) | RealValue(x: real) | StringValue(s: string)

  /** The three `convert` overloads: atoi, atof or the token itself; none of them fails. */
  function Convert(token: string, kind: Kind): (r: (bool, Value))
    ensures r.0
    ensures match kind
      case IntKind => r.1.IntValue?
      case RealKind => r.1.RealValue?
      case StringKind => r.1 == StringValue(token)
  {
    match kind
    case IntKind => (true, IntValue(Atoi(token)))
    case RealKind => (true, RealValue(Atof(token)))
    case StringKind => (true, StringValue(token))
  }

  /** The `convert (tokens[1], arg1) && ... ` chain of a `command` overload. */
  function ConvertAll(tokens: seq<string>, kinds: seq<Kind>): (r: (bool, seq<Value>))
    requires |tokens| == |kinds|
    ensures r.0 && |r.1| == |kinds|
    ensures forall j :: 0 <= j < |kinds| ==> r.1[j] == Convert(tokens[j], kinds[j]).1
  {
    if kinds == [] then (true, [])
    else
      var c := Convert(tokens[0], kinds[0]);
      var rest := ConvertAll(tokens[1..], kinds[1..]);
      (c.0 && rest.0, [c.1] + rest.1)
  }

  /**
    * The `command (cmd, arg1, ..., argk)` overload with k = |kinds| (k runs
    * from 0 to 6), on a parser state: the result and the argument values
    * afterwards, which are outs0 when it fails.
    */
  function CommandSpec(tokenizerError: bool, tokens: seq<string>, cmd: string, kinds: seq<Kind>, outs0: seq<Value>): (r: (bool, seq<Value>))
    requires |kinds| <= 6 && |outs0| == |kinds|
    ensures |r.1| == |kinds|
    ensures r.0 <==> !tokenizerError && |tokens| == |kinds| + 1 && tokens[0] == cmd
    ensures r.0 ==> forall j :: 0 <= j < |kinds| ==> r.1[j] == Convert(tokens[j + 1], kinds[j]).1
    ensures !r.0 ==> r.1 == outs0
  {
    if tokenizerError || |tokens| != |kinds| + 1 || cmd != tokens[0] then (false, outs0)
    else ConvertAll(tokens[1..], kinds)
  }

  /** After parsing a command typed as plain words, the overload with that name and arity matches it. */
  lemma CommandOfTypedLine(cmd: string, args: seq<string>, kinds: seq<Kind>, outs0: seq<Value>)
    requires cmd != [] && AllWordChars(cmd)
    requires forall k :: 0 <= k < |args| ==> args[k] != [] && AllWordChars(args[k])
    requires |kinds| == |args| <= 6 && |outs0| == |kinds|
    ensures var (ok, tokens) := Tokenized(Join([cmd] + args));
      CommandSpec(!ok, tokens, cmd, kinds, outs0) == ConvertAll(args, kinds)
  {
    var ws := [cmd] + args;
    assert forall k :: 0 <= k < |ws| ==> ws[k] != [] && AllWordChars(ws[k]) by {
      assert forall k :: 1 <= k < |ws| ==> ws[k] == args[k - 1];
    }
    TokenizeJoin(ws);
    assert ws[1..] == args;
  }

  /** The command-line parser. */
  class CliParser {
    var tokens: seq<string>
    var tokenizerError: bool
    /** The line the last `parse` was given, if any. */
    ghost var line: Option<string>

    /** The state is what tokenizing the last line gave. */
    ghost predicate Valid()
      reads this`tokens, this`tokenizerError, this`line
    {
      line.Some? ==> (!tokenizerError, tokens) == Tokenized(line.value)
    }

    /** A parser before the first line: no tokens and no error. */
    constructor ()
      ensures Valid() && line == None && tokens == [] && !tokenizerError
    {
      tokens := [];
      tokenizerError := false;
      line := None;
    }

    /** `tokenize`: clears `tokens`, then runs the state machine over text + '\n'. */
    method Tokenize(text: string) returns (ok: bool)
      modifies this`tokens
      ensures (ok, tokens) == Tokenized(text)
    {
      var mode := Blank;
      var s: string := [];
      var xline := text + "\n";
      tokens := [];
      var i := 0;
      while i < |xline|
        invariant i <= |xline|
        invariant Run(Cursor(mode, s, tokens), xline[i..]) == Run(Cursor(Blank, [], []), xline)
      {
        var ch := xline[i];
        RunAdvance(Cursor(mode, s, tokens), xline, i);
        if mode == Blank && IsWordChar(ch) {
          mode := Word;
          s := s + [ch];
        } else if mode == Blank && ch == '"' {
          mode := Quoted;
        } else if mode == Blank && WhiteSpace(ch) {
          // further blanks are skipped
        } else if mode == Word && IsWordChar(ch) {
          s := s + [ch];
        } else if (mode == Word && WhiteSpace(ch)) || (mode == Quoted && ch == '"') {
          tokens := tokens + [s];
          s := [];
          mode := Blank;
        } else if mode == Quoted && ch == '\\' {
          mode := QuotedEscaped;
        } else if mode == Quoted {
          s := s + [ch];
        } else if mode == QuotedEscaped {
          s := s + [ch];
          mode := Quoted;
        } else if ch == '#' {
          mode := Comment;
        } else if mode == Comment {
          // the rest of the line is a comment
        } else {
          return false;
        }
        i := i + 1;
      }
      assert xline[i..] == [];
      return mode == Blank || mode == Comment;
    }

    /** `parse`: tokenizes text and records whether that failed. */
    method Parse(text: string) returns (ok: bool)
      modifies this`tokens, this`tokenizerError, this`line
      ensures (ok, tokens) == Tokenized(text)
      ensures tokenizerError == !ok
      ensures line == Some(text) && Valid()
    {
      ok := Tokenize(text);
      tokenizerError := !ok;
      line := Some(text);
    }

    /** `empty_line`: the last line parsed without error into no tokens. */
    function EmptyLine(): (r: bool)
      reads this`tokens, this`tokenizerError, this`line
      ensures Valid() && line.Some? ==> (r <==> Tokenized(line.value) == (true, []))
    {
      !tokenizerError && |tokens| == 0
    }

    /**
      * A `command` overload with |kinds| arguments; outs0 are the arguments'
      * values before the call. On the line last parsed, it is the overload
      * applied to that line's tokenization.
      */
    function Command(cmd: string, kinds: seq<Kind>, outs0: seq<Value>): (r: (bool, seq<Value>))
      requires |kinds| <= 6 && |outs0| == |kinds|
      reads this`tokens, this`tokenizerError, this`line
      ensures Valid() && line.Some? ==>
        var (ok, toks) := Tokenized(line.value);
        r == CommandSpec(!ok, toks, cmd, kinds, outs0)
    {
      CommandSpec(tokenizerError, tokens, cmd, kinds, outs0)
    }
  }

  /** Blank lines and comment lines are empty lines. */
  lemma BlankLineIsEmpty(blanks: string, rest: string)
    requires forall j :: 0 <= j < |blanks| ==> WhiteSpace(blanks[j])
    ensures Tokenized(blanks).0 && Tokenized(blanks).1 == []
    ensures Tokenized(blanks + "#" + rest) == (true, [])
  {
    assert Plain(blanks);
    TokenizePlain(blanks);
    BlanksHaveNoWords(blanks);
    BlanksThenComment(blanks, rest);
  }

  lemma {:induction false} BlanksHaveNoWords(blanks: string)
    requires forall j :: 0 <= j < |blanks| ==> WhiteSpace(blanks[j])
    ensures Words(blanks) == []
    decreases |blanks|
  {
    if blanks != [] {
      BlanksHaveNoWords(blanks[1..]);
    }
  }

  lemma {:induction false} BlanksThenComment(blanks: string, rest: string)
    requires forall j :: 0 <= j < |blanks| ==> WhiteSpace(blanks[j])
    ensures Tokenized(blanks + "#" + rest) == (true, [])
  {
    var xs := blanks + "#" + rest + "\n";
    var c := Cursor(Blank, [], []);
    var i := 0;
    while i < |blanks|
      invariant i <= |blanks|
      invariant Run(c, xs[i..]) == Run(c, xs)
    {
      RunAdvance(c, xs, i);
      i := i + 1;
    }
    assert xs[i..] == "#" + rest + "\n";
    RunAdvance(c, xs, i);
    CommentSwallows(Cursor(Comment, [], []), xs[i + 1..]);
  }
}
