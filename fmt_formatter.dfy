/**
 * The fmter of archive/ast/fmt.go as an object: its fields change in place
 * as tokens are written, and each method is proved to do what the matching
 * function of FmtMachine does to the state (State()). The writer is the
 * string `out`, and a write never fails.
 */
module FmtFormatter {
  import opened Options
  import opened TokGrammar
  import opened TokScanner
  import FmtMachine

  class Fmter {
    var out: string
    const tok: Tokenizer
    const conf: FmtMachine.FmtConf
    var prev: Option<Token>
    var delims: int
    var indent: int
    var shifted: int
    var inline: bool

    /** The fields as a value of type FmtMachine.FmtState. */
    function State(): FmtMachine.FmtState
      reads this
    {
      FmtMachine.FmtState(out, prev, delims, indent, shifted, inline)
    }

    /** Fmt's composite literal: a fresh tokenizer over `src`, everything else zero. */
    constructor (src: string, conf: FmtMachine.FmtConf)
      ensures fresh(tok) && tok.Source == src && tok.cursor == 0 && tok.closers == []
      ensures this.conf == conf && State() == FmtMachine.Initial
    {
      tok := new Tokenizer(src);
      this.conf := conf;
      out := "";
      prev := None;
      delims := 0;
      indent := 0;
      shifted := 0;
      inline := false;
    }

    method NewlineReset()
      modifies this
      ensures State() == FmtMachine.NewlineReset(old(State()))
    {
      if delims > 0 {
        indent := indent + 1;
      }
      delims := 0;
      shifted := 0;
      inline := false;
    }

    method WriteBytes(input: string)
      modifies this
      ensures State() == FmtMachine.WriteBytes(old(State()), input)
    {
      out := out + input;
      if FmtMachine.HasNewline(input) {
        NewlineReset();
      }
      if FmtMachine.HasNonWhitespaceSuffix(input) {
        inline := true;
      }
    }

    method WriteSeparator()
      modifies this
      ensures State() == FmtMachine.WriteBytes(old(State()), FmtMachine.Separator)
    {
      WriteBytes(FmtMachine.Separator);
    }

    method WriteNewline()
      modifies this
      ensures State() == FmtMachine.WriteBytes(old(State()), FmtMachine.Newline)
    {
      WriteBytes(FmtMachine.Newline);
    }

    method WriteNewlines(lines: int)
      modifies this
      ensures State() == FmtMachine.WriteNewlines(old(State()), lines)
    {
      var left := lines;
      while left > 0
        invariant FmtMachine.WriteNewlines(State(), left) == FmtMachine.WriteNewlines(old(State()), lines)
        decreases left
      {
        WriteNewline();
        left := left - 1;
      }
    }

    /** The loop re-reads `indent`, which an Indent holding `\n` can raise once. */
    method WriteIndent()
      modifies this
      ensures State() == FmtMachine.WriteIndent(old(State()), conf)
    {
      var i := 0;
      while i < indent
        invariant FmtMachine.WriteIndentFrom(State(), conf, i) == FmtMachine.WriteIndent(old(State()), conf)
        decreases if delims > 0 then 1 else 0, indent - i
      {
        WriteBytes(conf.indent);
        i := i + 1;
      }
    }

    method WriteToken(t: Token)
      modifies this
      ensures State() == FmtMachine.WriteToken(old(State()), t)
    {
      WriteBytes(TokenString(t));
    }

    method DelimInc()
      modifies this
      ensures State() == FmtMachine.DelimInc(old(State()))
    {
      delims := delims + 1;
    }

    method DelimDec()
      modifies this
      ensures State() == FmtMachine.DelimDec(old(State()))
    {
      delims := delims - 1;
      if delims < 0 && shifted == 0 {
        indent := indent - 1;
        shifted := -1;
      }
    }

    method Before(next: Token)
      modifies this
      ensures State() == FmtMachine.Before(old(State()), conf, next)
    {
      if !inline {
        WriteIndent();
      } else if !FmtMachine.IsDelim(prev) && !FmtMachine.IsDelim(Some(next)) {
        WriteSeparator();
      }
    }

    method Space(t: Token)
      requires t.Space?
      modifies this
      ensures State() == FmtMachine.Space(old(State()), t)
    {
      var lines := CountNewlines(t.text);
      if lines > 2 {
        lines := 2;
      }
      if prev.Some? && !FmtMachine.IsDelimOpen(prev) {
        WriteNewlines(lines);
        Record(t);
      }
    }

    method Atom(t: Token)
      modifies this
      ensures State() == FmtMachine.Atom(old(State()), conf, t)
    {
      Before(t);
      WriteToken(t);
      Record(t);
    }

    /** `self.prev = token`. */
    method Record(t: Token)
      modifies this
      ensures State() == old(State()).(prev := Some(t))
    {
      prev := Some(t);
    }

    method StringToken(t: Token)
      modifies this
      ensures State() == FmtMachine.StringToken(old(State()), conf, t)
    {
      Before(t);
      DelimInc();
      WriteToken(t);
      DelimDec();
      Record(t);
    }

    method DelimOpen(t: Token)
      modifies this
      ensures State() == FmtMachine.DelimOpen(old(State()), conf, t)
    {
      Before(t);
      WriteToken(t);
      DelimInc();
      Record(t);
    }

    method DelimClose(t: Token)
      modifies this
      ensures State() == FmtMachine.DelimClose(old(State()), conf, t)
    {
      WriteNewline();
      DelimDec();
      Before(t);
      WriteToken(t);
      Record(t);
    }

    /** token: the dispatch on the token type. */
    method OnToken(t: Token)
      modifies this
      ensures State() == FmtMachine.OnToken(old(State()), conf, t)
    {
      if t.Space? {
        Space(t);
      } else if t.StringDouble? || t.StringGrave? {
        StringToken(t);
      } else if FmtMachine.IsDelimOpen(Some(t)) {
        DelimOpen(t);
      } else if FmtMachine.IsDelimClose(Some(t)) {
        DelimClose(t);
      } else {
        Atom(t);
      }
    }

    /**
     * top: hand each token to OnToken until the tokenizer fails. The panic
     * of nextToken and its recovery become the early return; io.EOF turns
     * into no error.
     */
    method Top() returns (err: Option<Error>)
      requires tok.Valid()
      modifies this, tok
      ensures FmtMachine.Formatted(out, err)
        == FmtMachine.TopFrom(tok.Source, old(tok.cursor), old(tok.closers), old(State()), conf)
    {
      while true
        invariant tok.Valid()
        invariant FmtMachine.TopFrom(tok.Source, tok.cursor, tok.closers, State(), conf)
          == FmtMachine.TopFrom(tok.Source, old(tok.cursor), old(tok.closers), old(State()), conf)
        decreases |tok.Source| - tok.cursor
      {
        var t, e := tok.Token();
        if e.Some? {
          return if e.value.cause == EndOfInput then None else e;
        }
        OnToken(t.value);
      }
    }
  }

  /** countNewlines: the `\r\n` guard compares the `\r` itself with `\n`, so every `\r` and `\n` counts. */
  method CountNewlines(s: string) returns (count: nat)
    ensures count == FmtMachine.CountNewlines(s)
  {
    count := 0;
    var i := 0;
    while i < |s|
      invariant i <= |s|
      invariant count == FmtMachine.CountNewlines(s[..i])
    {
      var c := s[i];
      var skip := c == '\r' && i < |s| && s[i] == '\n';
      if !skip && (c == '\r' || c == '\n') {
        count := count + 1;
      }
      assert s[..i + 1] == s[..i] + [c];
      i := i + 1;
    }
    assert s[..i] == s;
  }

  /** Fmt: format `src` into `out`, returning the first tokenizer error other than io.EOF. */
  method Fmt(src: string, conf: FmtMachine.FmtConf) returns (out: string, err: Option<Error>)
    ensures FmtMachine.Formatted(out, err) == FmtMachine.Fmt(src, conf)
  {
    var fmter := new Fmter(src, conf);
    err := fmter.Top();
    out := fmter.out;
  }
}
