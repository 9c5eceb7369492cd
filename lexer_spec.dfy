/**
 * What the TeX lexer computes, as functions of the characters not yet read.
 *
 * The lexer reads one token at a time, looking up each character's category code in the
 * catcode map that is current at the moment of the request; `Lex` describes one such request
 * for a fixed map, and the `Lexer` class in module `Lexers` is proved to compute it.
 */
module LexerSpec {
  import opened Wrappers
  import opened CatCodes
  import opened Tokens

  /** The innermost scope of the catcode map: characters absent from it are "other". */
  type CatCodeMap = map<char, RawCatCode>

  /** Lexer failures. Read errors of the underlying file are not modelled. */
  datatype LexerError =
    | MalformedControlSequence(escape: char)
    | InvalidToken

  /** The input still to be read and whether whitespace right here is to be trimmed. */
  datatype LexState = LexState(input: seq<char>, trimNextWhitespace: bool)

  /** The answer of one request together with the state the lexer is left in. */
  datatype LexOutcome = LexOutcome(result: Result<Option<Token>, LexerError>, state: LexState)

  /** The name of the control sequence two or more consecutive end-of-line characters become. */
  const NewParName: string := "par"

  function Code(m: CatCodeMap, c: char): (r: RawCatCode)
    ensures c in m ==> r == m[c]
    ensures c !in m ==> r == Regular(Other)
  {
    OrDefault(Lookup(m, c))
  }

  predicate IsWhitespace(code: RawCatCode) {
    code == EndOfLine || code == Regular(Space)
  }

  /** Length of the longest prefix of `s` made of whitespace characters. */
  function WhitespaceLength(s: seq<char>, m: CatCodeMap): (n: nat)
    ensures n <= |s|
    ensures forall i | 0 <= i < n :: IsWhitespace(Code(m, s[i]))
    ensures n < |s| ==> !IsWhitespace(Code(m, s[n]))
  {
    if s != [] && IsWhitespace(Code(m, s[0])) then 1 + WhitespaceLength(s[1..], m) else 0
  }

  /** Length of the longest prefix of `s` made of letters. */
  function LetterLength(s: seq<char>, m: CatCodeMap): (n: nat)
    ensures n <= |s|
    ensures forall i | 0 <= i < n :: Code(m, s[i]) == Regular(Letter)
    ensures n < |s| ==> Code(m, s[n]) != Regular(Letter)
  {
    if s != [] && Code(m, s[0]) == Regular(Letter) then 1 + LetterLength(s[1..], m) else 0
  }

  /** Length of the rest of a comment: everything up to, not including, the next end of line. */
  function CommentLength(s: seq<char>, m: CatCodeMap): (n: nat)
    ensures n <= |s|
    ensures forall i | 0 <= i < n :: Code(m, s[i]) != EndOfLine
    ensures n < |s| ==> Code(m, s[n]) == EndOfLine
  {
    if s != [] && Code(m, s[0]) != EndOfLine then 1 + CommentLength(s[1..], m) else 0
  }

  /** Number of end-of-line characters in `s`. */
  function EndOfLineCount(s: seq<char>, m: CatCodeMap): (n: nat)
    ensures n <= |s|
  {
    if s == [] then 0
    else EndOfLineCount(s[..|s| - 1], m) + (if Code(m, s[|s| - 1]) == EndOfLine then 1 else 0)
  }

  lemma EndOfLineCountStep(s: seq<char>, i: nat, m: CatCodeMap)
    requires i < |s|
    ensures EndOfLineCount(s[..i + 1], m) == EndOfLineCount(s[..i], m) + (if Code(m, s[i]) == EndOfLine then 1 else 0)
  {
    assert s[..i + 1][..i] == s[..i];
  }

  /**
   * Reading the name of a control sequence once its escape character has been read: a maximal
   * run of letters, or else the single next character, whatever it is; an error at the end of
   * the input. Returns the token and the input left.
   */
  function ControlSequenceAfter(escape: char, s: seq<char>, m: CatCodeMap)
    : (o: (Result<Token, LexerError>, seq<char>))
    ensures s == [] <==> o.0.Err?
    ensures o.0.Err? ==> o.0.error == MalformedControlSequence(escape) && o.1 == []
    ensures o.0.Ok? ==> o.0.value.ControlSequence? && o.0.value.escape == escape
    ensures o.0.Ok? && o.0.value.ControlSequence? ==>
      var name := o.0.value.name;
      && 1 <= |name| && s == name + o.1
      && (Code(m, name[0]) == Regular(Letter) ==>
            && (forall i | 0 <= i < |name| :: Code(m, name[i]) == Regular(Letter))
            && (o.1 != [] ==> Code(m, o.1[0]) != Regular(Letter)))
      && (Code(m, name[0]) != Regular(Letter) ==> |name| == 1)
  {
    if s == [] then
      (Err(MalformedControlSequence(escape)), [])
    else if Code(m, s[0]) == Regular(Letter) then
      var n := 1 + LetterLength(s[1..], m);
      assert s == s[..n] + s[n..];
      (Ok(ControlSequence(escape, s[..n])), s[n..])
    else
      assert s == [s[0]] + s[1..];
      (Ok(ControlSequence(escape, [s[0]])), s[1..])
  }

  /** What one raw token does to a request: end it with an outcome, or let it go on. */
  datatype Step = Continue(next: LexState) | Done(outcome: LexOutcome)

  /**
   * The work one raw token causes: the first character of the input decides, by its category
   * code, whether a token (or an error) is produced or the request carries on from a new state.
   * Ignored characters and comments produce nothing; a run of whitespace with fewer than two
   * end-of-line characters in it becomes one space token unless whitespace is being trimmed,
   * and a run with two or more becomes the paragraph control sequence. Whitespace is trimmed
   * after a control sequence and after a comment.
   */
  function LexStep(st: LexState, m: CatCodeMap): (r: Step)
    ensures r.Continue? ==> |r.next.input| < |st.input|
    ensures r.Done? && r.outcome.result != Ok(None) ==> |r.outcome.state.input| < |st.input|
    ensures r.Done? && r.outcome.result == Ok(None) ==> r.outcome.state == st && st.input == []
    ensures r.Done? && r.outcome.result.Ok? && r.outcome.result.value.Some? ==>
              r.outcome.state.trimNextWhitespace == r.outcome.result.value.value.ControlSequence?
  {
    if st.input == [] then Done(LexOutcome(Ok(None), st))
    else
      var c := st.input[0];
      var rest := st.input[1..];
      match Code(m, c)
      case Escape =>
        var (cs, after) := ControlSequenceAfter(c, rest, m);
        if cs.Err? then Done(LexOutcome(Err(cs.error), LexState(after, st.trimNextWhitespace)))
        else Done(LexOutcome(Ok(Some(cs.value)), LexState(after, true)))
      case EndOfLine | Regular(Space) =>
        var w := WhitespaceLength(rest, m);
        var newLines := EndOfLineCount(rest[..w], m) + (if Code(m, c) == EndOfLine then 1 else 0);
        if newLines < 2 && st.trimNextWhitespace then
          Continue(LexState(rest[w..], true))
        else if newLines < 2 then
          Done(LexOutcome(Ok(Some(Character(c, Space))), LexState(rest[w..], false)))
        else
          Done(LexOutcome(Ok(Some(ControlSequence('\\', NewParName))), LexState(rest[w..], true)))
      case Regular(code) =>
        Done(LexOutcome(Ok(Some(Character(c, code))), LexState(rest, false)))
      case Comment =>
        Continue(LexState(rest[CommentLength(rest, m)..], true))
      case Ignored =>
        Continue(LexState(rest, st.trimNextWhitespace))
      case Invalid =>
        Done(LexOutcome(Err(InvalidToken), LexState(rest, st.trimNextWhitespace)))
  }

  /** One request to the lexer: the next token, if any, or an error, together with the new state. */
  function Lex(st: LexState, m: CatCodeMap): (o: LexOutcome)
    decreases |st.input|
    ensures |o.state.input| <= |st.input|
    ensures o.result != Ok(None) ==> |o.state.input| < |st.input|
    ensures o.result == Ok(None) ==> o.state.input == []
    ensures o.result.Ok? && o.result.value.Some? ==>
              o.state.trimNextWhitespace == o.result.value.value.ControlSequence?
  {
    match LexStep(st, m)
    case Continue(next) => Lex(next, m)
    case Done(o) => o
  }

  /** Requesting tokens until the input is exhausted or an error occurs. */
  function LexAll(st: LexState, m: CatCodeMap): (r: Result<seq<Token>, LexerError>)
    decreases |st.input|
    ensures r.Ok? ==> |r.value| <= |st.input|
  {
    var o := Lex(st, m);
    match o.result
    case Err(e) => Err(e)
    case Ok(None) => Ok([])
    case Ok(Some(t)) =>
      match LexAll(o.state, m)
      case Err(e) => Err(e)
      case Ok(ts) => Ok([t] + ts)
  }

  /** Ignored characters make no difference to what is lexed next. */
  lemma {:induction false} LexSkipsIgnored(ignored: seq<char>, s: seq<char>, trim: bool, m: CatCodeMap)
    requires forall i | 0 <= i < |ignored| :: Code(m, ignored[i]) == Ignored
    ensures Lex(LexState(ignored + s, trim), m) == Lex(LexState(s, trim), m)
    decreases |ignored|
  {
    if ignored != [] {
      var x := ignored + s;
      assert x[0] == ignored[0] && x[1..] == ignored[1..] + s;
      assert Code(m, x[0]) == Ignored;
      assert Lex(LexState(x, trim), m) == Lex(LexState(x[1..], trim), m);
      LexSkipsIgnored(ignored[1..], s, trim, m);
    } else {
      assert ignored + s == s;
    }
  }

  /**
   * While whitespace is being trimmed (after a control sequence or a comment) no space token
   * is produced: the next token, if any, is something else or a paragraph break.
   */
  lemma {:induction false} TrimmedWhitespaceIsNoToken(st: LexState, m: CatCodeMap, c: char)
    requires st.trimNextWhitespace
    ensures Lex(st, m).result != Ok(Some(Character(c, Space)))
    decreases |st.input|
  {
    if st.input != [] {
      var rest := st.input[1..];
      match Code(m, st.input[0])
      case EndOfLine | Regular(Space) =>
        TrimmedWhitespaceIsNoToken(LexState(rest[WhitespaceLength(rest, m)..], true), m, c);
      case Comment =>
        TrimmedWhitespaceIsNoToken(LexState(rest[CommentLength(rest, m)..], true), m, c);
      case Ignored =>
        TrimmedWhitespaceIsNoToken(LexState(rest, true), m, c);
      case _ =>
    }
  }

  lemma {:induction false} EndOfLineCountCons(c: char, s: seq<char>, m: CatCodeMap)
    ensures EndOfLineCount([c] + s, m) == (if Code(m, c) == EndOfLine then 1 else 0) + EndOfLineCount(s, m)
    decreases |s|
  {
    if s != [] {
      assert ([c] + s)[..|s|] == [c] + s[..|s| - 1];
      EndOfLineCountCons(c, s[..|s| - 1], m);
    }
  }

  /**
   * A whitespace character starts a maximal run of whitespace, all of which one request
   * consumes. Counting the end-of-line characters in the run: two or more give the paragraph
   * control sequence; fewer give a space token carrying the run's first character, or nothing
   * at all when whitespace is being trimmed.
   */
  lemma WhitespaceRun(st: LexState, m: CatCodeMap)
    requires st.input != [] && IsWhitespace(Code(m, st.input[0]))
    ensures
      var s := st.input;
      var n := 1 + WhitespaceLength(s[1..], m);
      var newLines := EndOfLineCount(s[..n], m);
      var o := Lex(st, m);
      && n <= |s|
      && (forall i | 0 <= i < n :: IsWhitespace(Code(m, s[i])))
      && (n < |s| ==> !IsWhitespace(Code(m, s[n])))
      && (newLines >= 2 ==>
            o == LexOutcome(Ok(Some(ControlSequence('\\', NewParName))), LexState(s[n..], true)))
      && (newLines < 2 && !st.trimNextWhitespace ==>
            o == LexOutcome(Ok(Some(Character(s[0], Space))), LexState(s[n..], false)))
      && (newLines < 2 && st.trimNextWhitespace ==> o == Lex(LexState(s[n..], true), m))
  {
    var s := st.input;
    var w := WhitespaceLength(s[1..], m);
    assert s[..1 + w] == [s[0]] + s[1..][..w];
    EndOfLineCountCons(s[0], s[1..][..w], m);
    assert s[1..][w..] == s[1 + w..];
  }

  /** A comment character makes the request skip to the next end of line, which it keeps. */
  lemma CommentSkipsToEndOfLine(st: LexState, m: CatCodeMap)
    requires st.input != [] && Code(m, st.input[0]) == Comment
    ensures
      var s := st.input;
      var k := 1 + CommentLength(s[1..], m);
      && k <= |s|
      && (forall i | 1 <= i < k :: Code(m, s[i]) != EndOfLine)
      && (k < |s| ==> Code(m, s[k]) == EndOfLine)
      && Lex(st, m) == Lex(LexState(s[k..], true), m)
  {
    var s := st.input;
    var k := CommentLength(s[1..], m);
    assert s[1..][k..] == s[1 + k..];
    assert forall i | 1 <= i < 1 + k :: s[i] == s[1..][i - 1];
  }

  /** An escape character at the very end of the input is an error. */
  lemma EscapeAtEndIsError(st: LexState, m: CatCodeMap)
    requires |st.input| == 1 && Code(m, st.input[0]) == Escape
    ensures Lex(st, m) == LexOutcome(Err(MalformedControlSequence(st.input[0])), LexState([], st.trimNextWhitespace))
  {
  }

  /** A character with a regular code other than space is a token of its own and ends trimming. */
  lemma RegularCharacter(st: LexState, m: CatCodeMap, code: CatCode)
    requires st.input != [] && Code(m, st.input[0]) == Regular(code) && code != Space
    ensures Lex(st, m) == LexOutcome(Ok(Some(Character(st.input[0], code))), LexState(st.input[1..], false))
  {
  }

  /** A character with an invalid code is an error and is consumed. */
  lemma InvalidIsError(st: LexState, m: CatCodeMap)
    requires st.input != [] && Code(m, st.input[0]) == Invalid
    ensures Lex(st, m) == LexOutcome(Err(InvalidToken), LexState(st.input[1..], st.trimNextWhitespace))
  {
  }
}
