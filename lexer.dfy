/**
 * The TeX lexer as the program has it: a raw lexer that reads the file line by line and pairs
 * each character with its category code, and a lexer on top of it that turns raw tokens into
 * TeX tokens one request at a time. Each request is proved to compute `LexerSpec.Lex` for the
 * catcode map current at the time of the request.
 */
module Lexers {
  import opened Wrappers
  import opened CatCodes
  import opened Tokens
  import opened LexerSpec

  /** A character of the input with the category code it has at the moment it is looked at. */
  datatype RawToken = RawToken(code: RawCatCode, ch: char)

  /**
   * How many characters reading one line takes from the start of `s`: everything up to and
   * including the first newline, or all of `s` when it has none.
   */
  function LineLength(s: seq<char>): (n: nat)
    ensures n <= |s|
    ensures s != [] ==> 1 <= n
    ensures forall i | 0 <= i < n - 1 :: s[i] != '\n'
    ensures n < |s| ==> 1 <= n && s[n - 1] == '\n'
  {
    if s == [] then 0 else if s[0] == '\n' then 1 else 1 + LineLength(s[1..])
  }

  /** Reads characters one line at a time and looks up their category codes. */
  class RawLexer {
    /** The part of the file not yet read into the line buffer. */
    var reader: seq<char>
    /** The line buffer. */
    var currentLine: seq<char>
    var nextCharIndex: nat

    /** The characters still to be lexed. */
    ghost function Remaining(): seq<char>
      reads this
    {
      (if nextCharIndex < |currentLine| then currentLine[nextCharIndex..] else []) + reader
    }

    /** The next character, if there is one, is in the line buffer. */
    ghost predicate Filled()
      reads this
    {
      nextCharIndex < |currentLine| || reader == []
    }

    constructor(file: seq<char>)
      ensures reader == file && currentLine == [] && nextCharIndex == 0
      ensures Remaining() == file
    {
      reader := file;
      currentLine := [];
      nextCharIndex := 0;
    }

    /** Reads the next line once the current one has been used up. */
    method FillBuffer()
      modifies this
      ensures Remaining() == old(Remaining())
      ensures Filled()
      ensures old(nextCharIndex) < old(|currentLine|) ==>
                reader == old(reader) && currentLine == old(currentLine) && nextCharIndex == old(nextCharIndex)
      ensures old(nextCharIndex) >= old(|currentLine|) ==>
                && currentLine == old(reader)[..LineLength(old(reader))]
                && reader == old(reader)[LineLength(old(reader))..]
                && nextCharIndex == 0
    {
      if nextCharIndex >= |currentLine| {
        var n := LineLength(reader);
        assert reader == reader[..n] + reader[n..];
        currentLine := reader[..n];
        reader := reader[n..];
        nextCharIndex := 0;
      }
    }

    /** The next character and its code under `catCodes`, without consuming it. */
    method Peek(catCodes: CatCodeMap) returns (r: Option<RawToken>)
      modifies this
      ensures Remaining() == old(Remaining())
      ensures Filled()
      ensures Remaining() == [] ==> r == None
      ensures Remaining() != [] ==>
                r == Some(RawToken(Code(catCodes, Remaining()[0]), Remaining()[0]))
    {
      FillBuffer();
      if nextCharIndex < |currentLine| {
        var ch := currentLine[nextCharIndex];
        r := Some(RawToken(Code(catCodes, ch), ch));
      } else {
        r := None;
      }
    }

    /** Moves past the character `Peek` returned. */
    method Advance()
      modifies this
      ensures reader == old(reader) && currentLine == old(currentLine)
      ensures nextCharIndex == old(nextCharIndex) + 1
      ensures old(Filled()) && old(Remaining()) != [] ==> Remaining() == old(Remaining())[1..]
      ensures old(Filled()) && old(Remaining()) == [] ==> Remaining() == []
    {
      nextCharIndex := nextCharIndex + 1;
    }

    /** The next character and its code, consumed. */
    method Next(catCodes: CatCodeMap) returns (r: Option<RawToken>)
      modifies this
      ensures old(Remaining()) == [] ==> r == None && Remaining() == []
      ensures old(Remaining()) != [] ==>
                && r == Some(RawToken(Code(catCodes, old(Remaining())[0]), old(Remaining())[0]))
                && Remaining() == old(Remaining())[1..]
    {
      r := Peek(catCodes);
      Advance();
    }
  }

  /** Produces TeX tokens on request. */
  class Lexer {
    const rawLexer: RawLexer
    var trimNextWhitespace: bool
    const newParControlSequenceName: string := NewParName

    ghost function State(): LexState
      reads this, rawLexer
    {
      LexState(rawLexer.Remaining(), trimNextWhitespace)
    }

    constructor(file: seq<char>)
      ensures State() == LexState(file, false)
      ensures fresh(rawLexer)
    {
      rawLexer := new RawLexer(file);
      trimNextWhitespace := false;
    }

    /**
     * The next token of the input, under the category codes `catCodes` gives: raw tokens are
     * read until one of them ends the request.
     */
    method Next(catCodes: CatCodeMap) returns (r: Result<Option<Token>, LexerError>)
      modifies this, rawLexer
      ensures LexOutcome(r, State()) == Lex(old(State()), catCodes)
    {
      ghost var outcome := Lex(State(), catCodes);
      while true
        invariant Lex(State(), catCodes) == outcome
        decreases |rawLexer.Remaining()|
      {
        var done;
        done, r := Step(catCodes);
        if done {
          return;
        }
      }
    }

    /**
     * One pass of the loop in `Next`: reads one raw token and either ends the request with
     * `r` (`done`) or leaves the lexer where the request is to carry on.
     */
    method Step(catCodes: CatCodeMap) returns (done: bool, r: Result<Option<Token>, LexerError>)
      modifies this, rawLexer
      ensures done ==> LexStep(old(State()), catCodes) == Done(LexOutcome(r, State()))
      ensures !done ==> LexStep(old(State()), catCodes) == Continue(State())
    {
      ghost var before := State();
      var rawToken := rawLexer.Next(catCodes);
      if rawToken.None? {
        return true, Ok(None);
      }
      var raw := rawToken.value;
      assert before.input[1..] == rawLexer.Remaining();
      var value: Token;
      if raw.code == Escape {
        var cs := ReadControlSequence(raw, catCodes);
        if cs.Err? {
          return true, Err(cs.error);
        }
        value := cs.value;
      } else if raw.code == EndOfLine || raw.code == Regular(Space) {
        done, r := WhitespaceStep(raw, catCodes, before);
        return;
      } else if raw.code.Regular? {
        value := Character(raw.ch, raw.code.code);
      } else if raw.code == Comment {
        SkipComment(catCodes);
        trimNextWhitespace := true;
        return false, Ok(None);
      } else if raw.code == Ignored {
        return false, Ok(None);
      } else {
        return true, Err(InvalidToken);
      }
      trimNextWhitespace := value.ControlSequence?;
      return true, Ok(Some(value));
    }

    /** The part of `Step` for a raw token that starts a run of whitespace. */
    method WhitespaceStep(raw: RawToken, catCodes: CatCodeMap, ghost before: LexState)
      returns (done: bool, r: Result<Option<Token>, LexerError>)
      requires before.input != [] && raw == RawToken(Code(catCodes, before.input[0]), before.input[0])
      requires raw.code == EndOfLine || raw.code == Regular(Space)
      requires rawLexer.Remaining() == before.input[1..] && trimNextWhitespace == before.trimNextWhitespace
      modifies this, rawLexer
      ensures done ==> LexStep(before, catCodes) == Done(LexOutcome(r, State()))
      ensures !done ==> LexStep(before, catCodes) == Continue(State())
    {
      ghost var rest := before.input[1..];
      ghost var w := WhitespaceLength(rest, catCodes);
      var numNewLines := ConsumeWhitespace(catCodes);
      numNewLines := numNewLines + if raw.code == EndOfLine then 1 else 0;
      assert numNewLines == EndOfLineCount(rest[..w], catCodes) + (if raw.code == EndOfLine then 1 else 0);
      if numNewLines < 2 && trimNextWhitespace {
        assert LexStep(before, catCodes) == Continue(LexState(rest[w..], true));
        return false, Ok(None);
      }
      var value := if numNewLines < 2 then Character(raw.ch, Space)
                   else ControlSequence('\\', newParControlSequenceName);
      trimNextWhitespace := value.ControlSequence?;
      return true, Ok(Some(value));
    }

    /** Consumes the rest of a comment, up to but not including the next end of line. */
    method SkipComment(catCodes: CatCodeMap)
      modifies rawLexer
      ensures
        var s := old(rawLexer.Remaining());
        rawLexer.Remaining() == s[CommentLength(s, catCodes)..]
    {
      ghost var s := rawLexer.Remaining();
      ghost var i := 0;
      while true
        invariant 0 <= i <= CommentLength(s, catCodes)
        invariant rawLexer.Remaining() == s[i..]
        decreases |rawLexer.Remaining()|
      {
        var next := rawLexer.Peek(catCodes);
        if next.None? || next.value.code == EndOfLine {
          break;
        }
        rawLexer.Advance();
        i := i + 1;
      }
    }

    /** Consumes a run of whitespace and counts the end-of-line characters in it. */
    method ConsumeWhitespace(catCodes: CatCodeMap) returns (numNewLines: nat)
      modifies rawLexer
      ensures
        var s := old(rawLexer.Remaining());
        var w := WhitespaceLength(s, catCodes);
        && rawLexer.Remaining() == s[w..]
        && numNewLines == EndOfLineCount(s[..w], catCodes)
    {
      ghost var s := rawLexer.Remaining();
      ghost var w := WhitespaceLength(s, catCodes);
      ghost var i := 0;
      numNewLines := 0;
      while true
        invariant 0 <= i <= w
        invariant rawLexer.Remaining() == s[i..]
        invariant numNewLines == EndOfLineCount(s[..i], catCodes)
        decreases |rawLexer.Remaining()|
      {
        var next := rawLexer.Peek(catCodes);
        if next.None? {
          assert i == |s|;
          break;
        }
        assert i < |s| && next.value.code == Code(catCodes, s[i]);
        if next.value.code == EndOfLine {
          numNewLines := numNewLines + 1;
        } else if next.value.code != Regular(Space) {
          assert i == w;
          break;
        }
        assert i < w;
        rawLexer.Advance();
        EndOfLineCountStep(s, i, catCodes);
        i := i + 1;
      }
      assert i == w && s == old(rawLexer.Remaining());
    }

    /** Reads the name of a control sequence whose escape character `rawToken` has been read. */
    method ReadControlSequence(rawToken: RawToken, catCodes: CatCodeMap)
      returns (r: Result<Token, LexerError>)
      modifies rawLexer
      ensures (r, rawLexer.Remaining()) ==
                ControlSequenceAfter(rawToken.ch, old(rawLexer.Remaining()), catCodes)
    {
      ghost var s := rawLexer.Remaining();
      var first := rawLexer.Next(catCodes);
      if first.None? {
        return Err(MalformedControlSequence(rawToken.ch));
      }
      if first.value.code != Regular(Letter) {
        return Ok(ControlSequence(rawToken.ch, [first.value.ch]));
      }
      ghost var n := 1 + LetterLength(s[1..], catCodes);
      var name := [first.value.ch];
      while true
        invariant 1 <= |name| <= n
        invariant name == s[..|name|]
        invariant rawLexer.Remaining() == s[|name|..]
        decreases |rawLexer.Remaining()|
      {
        var next := rawLexer.Peek(catCodes);
        if next.None? {
          assert |name| == |s|;
          break;
        }
        assert next.value == RawToken(Code(catCodes, s[|name|]), s[|name|]);
        assert s[|name|] == s[1..][|name| - 1];
        if next.value.code != Regular(Letter) {
          assert |name| == n;
          break;
        }
        assert |name| < n;
        rawLexer.Advance();
        assert s[..|name| + 1] == name + [next.value.ch];
        name := name + [next.value.ch];
      }
      assert |name| == n;
      return Ok(ControlSequence(rawToken.ch, name));
    }
  }
}
