/**
 * The lexer's unit-test expectations, stated as lemmas about `LexAll` under the catcode map the
 * tests use: TeX's defaults plus X as an end of line, Y as a space and Z as ignored. Each
 * lemma requires of the map only the codes of the characters its input uses, and
 * `TestCatCodesAreTestMap` shows that the map the tests build gives them all.
 */
module LexerExamples {
  import opened Wrappers
  import opened CatCodes
  import opened Tokens
  import opened LexerSpec

  /** The map the tests build: `tex_defaults` followed by three inserts. */
  function TestCatCodes(): CatCodeMap {
    Extended(map[], DefaultPairs())['X' := EndOfLine]['Y' := Regular(Space)]['Z' := Ignored]
  }

  /** The codes of the characters that occur in the tests. */
  predicate TestMap(m: CatCodeMap) {
    && Code(m, '\\') == Escape && Code(m, '%') == Comment
    && Code(m, '{') == Regular(BeginGroup) && Code(m, '}') == Regular(EndGroup)
    && Code(m, ' ') == Regular(Space) && Code(m, '\n') == EndOfLine
    && Code(m, 'X') == EndOfLine && Code(m, 'Y') == Regular(Space) && Code(m, 'Z') == Ignored
    && Code(m, 'a') == Regular(Letter) && Code(m, 'b') == Regular(Letter)
    && Code(m, 'A') == Regular(Letter) && Code(m, 'B') == Regular(Letter) && Code(m, 'C') == Regular(Letter) && Code(m, 'D') == Regular(Letter)
  }

  /** Apart from X, Y and Z, the test map gives every character its TeX default code. */
  lemma TestCodeIsDefault(c: char)
    requires c != 'X' && c != 'Y' && c != 'Z'
    ensures Code(TestCatCodes(), c) == OrDefault(DefaultCatCode(c))
  {
    TexDefaultsTable(c);
  }

  /** The characters with a code of their own in the tests. */
  lemma TestCatCodesSpecials()
    ensures Code(TestCatCodes(), 'X') == EndOfLine && Code(TestCatCodes(), 'Y') == Regular(Space)
    ensures Code(TestCatCodes(), 'Z') == Ignored
  {
  }

  /** The characters the tests take with their TeX default codes. */
  lemma TestCatCodesDefaults()
    ensures Code(TestCatCodes(), '\\') == Escape && Code(TestCatCodes(), '%') == Comment
    ensures Code(TestCatCodes(), '{') == Regular(BeginGroup) && Code(TestCatCodes(), '}') == Regular(EndGroup)
    ensures Code(TestCatCodes(), ' ') == Regular(Space) && Code(TestCatCodes(), '\n') == EndOfLine
  {
    TestCodeIsDefault('\\'); TestCodeIsDefault('%'); TestCodeIsDefault('{'); TestCodeIsDefault('}');
    TestCodeIsDefault(' '); TestCodeIsDefault('\n');
  }

  /** The lower-case letters of the tests. */
  lemma TestCatCodesLowerCase()
    ensures Code(TestCatCodes(), 'a') == Regular(Letter) && Code(TestCatCodes(), 'b') == Regular(Letter)
  {
    TestCodeIsDefault('a'); TestCodeIsDefault('b');
  }

  /** The upper-case letters of the tests. */
  lemma TestCatCodesUpperCase()
    ensures Code(TestCatCodes(), 'A') == Regular(Letter) && Code(TestCatCodes(), 'B') == Regular(Letter)
    ensures Code(TestCatCodes(), 'C') == Regular(Letter) && Code(TestCatCodes(), 'D') == Regular(Letter)
  {
    TestCodeIsDefault('A'); TestCodeIsDefault('B'); TestCodeIsDefault('C'); TestCodeIsDefault('D');
  }

  lemma TestCatCodesAreTestMap()
    ensures TestMap(TestCatCodes())
  {
    TestCatCodesSpecials();
    TestCatCodesDefaults();
    TestCatCodesLowerCase();
    TestCatCodesUpperCase();
  }

  /** The length of a comment is the distance to the first end of line. */
  lemma CommentLengthIs(s: seq<char>, m: CatCodeMap, k: nat)
    requires k <= |s|
    requires forall i | 0 <= i < k :: Code(m, s[i]) != EndOfLine
    requires k < |s| ==> Code(m, s[k]) == EndOfLine
    ensures CommentLength(s, m) == k
  {
  }

  /** The length of a run of letters in front of something that is not a letter. */
  lemma {:induction false} LetterLengthIs(name: seq<char>, u: seq<char>, m: CatCodeMap)
    requires forall i | 0 <= i < |name| :: Code(m, name[i]) == Regular(Letter)
    requires u != [] ==> Code(m, u[0]) != Regular(Letter)
    ensures LetterLength(name + u, m) == |name|
    decreases |name|
  {
    if name == [] {
      assert name + u == u;
    } else {
      var s := name + u;
      assert s[0] == name[0] && s[1..] == name[1..] + u;
      LetterLengthIs(name[1..], u, m);
    }
  }

  /** The length of a run of whitespace in front of something that is not whitespace. */
  lemma {:induction false} WhitespaceLengthIs(ws: seq<char>, u: seq<char>, m: CatCodeMap)
    requires forall i | 0 <= i < |ws| :: IsWhitespace(Code(m, ws[i]))
    requires u != [] ==> !IsWhitespace(Code(m, u[0]))
    ensures WhitespaceLength(ws + u, m) == |ws|
    decreases |ws|
  {
    if ws == [] {
      assert ws + u == u;
    } else {
      var s := ws + u;
      assert s[0] == ws[0] && s[1..] == ws[1..] + u;
      WhitespaceLengthIs(ws[1..], u, m);
    }
  }

  /** An exhausted input has no tokens. */
  lemma EndOfInput(trim: bool, m: CatCodeMap)
    ensures LexAll(LexState([], trim), m) == Ok([])
  {
  }

  /** The same, for the end of a fixed input `s` and the end of a fixed list of tokens `ts`. */
  lemma EndOfInputAt(m: CatCodeMap, s: string, trim: bool, ts: seq<Token>)
    ensures LexAll(LexState(s[|s|..], trim), m) == Ok(ts[|ts|..])
  {
    assert s[|s|..] == [] && ts[|ts|..] == [];
  }

  /** The tokens of an input are its first token followed by the tokens after it. */
  lemma TokenThen(st: LexState, m: CatCodeMap, t: Token, next: LexState, ts: seq<Token>)
    requires Lex(st, m) == LexOutcome(Ok(Some(t)), next)
    requires LexAll(next, m) == Ok(ts)
    ensures LexAll(st, m) == Ok([t] + ts)
  {
  }

  /** A character with a regular code other than space, then the rest. */
  lemma CharacterThen(m: CatCodeMap, c: char, code: CatCode, u: string, trim: bool, ts: seq<Token>)
    requires Code(m, c) == Regular(code) && code != Space
    requires LexAll(LexState(u, false), m) == Ok(ts)
    ensures LexAll(LexState([c] + u, trim), m) == Ok([Character(c, code)] + ts)
  {
    var s := [c] + u;
    assert s[0] == c && s[1..] == u;
    RegularCharacter(LexState(s, trim), m, code);
    TokenThen(LexState(s, trim), m, Character(c, code), LexState(u, false), ts);
  }

  /** An escape character and a name of letters, then the rest, which is lexed trimming whitespace. */
  lemma ControlSequenceThen(m: CatCodeMap, e: char, name: string, u: string, trim: bool, ts: seq<Token>)
    requires Code(m, e) == Escape && name != []
    requires forall i | 0 <= i < |name| :: Code(m, name[i]) == Regular(Letter)
    requires u != [] ==> Code(m, u[0]) != Regular(Letter)
    requires LexAll(LexState(u, true), m) == Ok(ts)
    ensures LexAll(LexState([e] + name + u, trim), m) == Ok([ControlSequence(e, name)] + ts)
  {
    var s := [e] + name + u;
    var r := name + u;
    assert s[0] == e && s[1..] == r;
    assert r[0] == name[0] && r[1..] == name[1..] + u;
    LetterLengthIs(name[1..], u, m);
    assert r[..|name|] == name && r[|name|..] == u;
    assert ControlSequenceAfter(e, r, m) == (Ok(ControlSequence(e, name)), u);
    TokenThen(LexState(s, trim), m, ControlSequence(e, name), LexState(u, true), ts);
  }

  /** The run of whitespace `WhitespaceRun` finds at the start of `ws + u` is `ws`. */
  lemma WhitespaceRunIs(m: CatCodeMap, ws: string, u: string)
    requires ws != [] && forall i | 0 <= i < |ws| :: IsWhitespace(Code(m, ws[i]))
    requires u != [] ==> !IsWhitespace(Code(m, u[0]))
    ensures (ws + u)[0] == ws[0]
    ensures 1 + WhitespaceLength((ws + u)[1..], m) == |ws|
    ensures (ws + u)[..|ws|] == ws && (ws + u)[|ws|..] == u
  {
    var s := ws + u;
    assert s[1..] == ws[1..] + u;
    WhitespaceLengthIs(ws[1..], u, m);
  }

  /** What a run of whitespace `ws` in front of something that is not whitespace is lexed as. */
  lemma WhitespaceThen(m: CatCodeMap, ws: string, u: string, trim: bool)
    requires ws != [] && forall i | 0 <= i < |ws| :: IsWhitespace(Code(m, ws[i]))
    requires u != [] ==> !IsWhitespace(Code(m, u[0]))
    ensures EndOfLineCount(ws, m) >= 2 ==>
              Lex(LexState(ws + u, trim), m) == LexOutcome(Ok(Some(ControlSequence('\\', NewParName))), LexState(u, true))
    ensures EndOfLineCount(ws, m) < 2 && !trim ==>
              Lex(LexState(ws + u, trim), m) == LexOutcome(Ok(Some(Character(ws[0], Space))), LexState(u, false))
    ensures EndOfLineCount(ws, m) < 2 && trim ==>
              Lex(LexState(ws + u, trim), m) == Lex(LexState(u, true), m)
  {
    WhitespaceRunIs(m, ws, u);
    WhitespaceRun(LexState(ws + u, trim), m);
  }

  /** A trimmed run of whitespace with fewer than two ends of line produces nothing. */
  lemma TrimmedThen(m: CatCodeMap, ws: string, u: string)
    requires ws != [] && forall i | 0 <= i < |ws| :: IsWhitespace(Code(m, ws[i]))
    requires u != [] ==> !IsWhitespace(Code(m, u[0]))
    requires EndOfLineCount(ws, m) < 2
    ensures LexAll(LexState(ws + u, true), m) == LexAll(LexState(u, true), m)
  {
    WhitespaceThen(m, ws, u, true);
  }

  /** A comment character and the text after it up to the next end of line produce nothing. */
  lemma CommentThen(m: CatCodeMap, t: string, u: string, trim: bool)
    requires Code(m, '%') == Comment
    requires forall i | 0 <= i < |t| :: Code(m, t[i]) != EndOfLine
    requires u == [] || Code(m, u[0]) == EndOfLine
    ensures LexAll(LexState("%" + t + u, trim), m) == LexAll(LexState(u, true), m)
  {
    var s := "%" + t + u;
    assert s[0] == '%' && s[1..] == t + u;
    CommentLengthIs(t + u, m, |t|);
    CommentSkipsToEndOfLine(LexState(s, trim), m);
    assert s[1 + |t|..] == u;
  }

  /** After a comment has been skipped: the line end is trimmed and a letter follows. */
  lemma LineEndThenLetter(m: CatCodeMap, c: char, u: string, ts: seq<Token>)
    requires Code(m, '\n') == EndOfLine && Code(m, c) == Regular(Letter)
    requires LexAll(LexState(u, false), m) == Ok(ts)
    ensures LexAll(LexState("\n" + ([c] + u), true), m) == Ok([Character(c, Letter)] + ts)
  {
    CharacterThen(m, c, Letter, u, true, ts);
    assert EndOfLineCount("\n", m) == 1;
    TrimmedThen(m, "\n", [c] + u);
  }

  /**
   * A comment runs to the end of the line, whatever its text (lexer.rs tests, case 8, which
   * has the text "a comment here").
   */
  lemma CommentSkipped(m: CatCodeMap, t: string)
    requires Code(m, 'A') == Regular(Letter) && Code(m, 'C') == Regular(Letter)
    requires Code(m, '%') == Comment && Code(m, '\n') == EndOfLine
    requires forall i | 0 <= i < |t| :: Code(m, t[i]) != EndOfLine
    ensures LexAll(LexState("A" + ("%" + t + "\nC"), false), m) == Ok([Character('A', Letter), Character('C', Letter)])
  {
    var c := [Character('C', Letter)];
    EndOfInput(false, m);
    LineEndThenLetter(m, 'C', [], []);
    assert "\n" + (['C'] + []) == "\nC" && [Character('C', Letter)] + [] == c;
    CommentThen(m, t, "\nC", false);
    CharacterThen(m, 'A', Letter, "%" + t + "\nC", false, c);
    assert [Character('A', Letter)] + c == [Character('A', Letter), Character('C', Letter)];
  }

  /** The second comment line of case 9, and the letter after it. */
  lemma SecondCommentThenLetter(m: CatCodeMap, t: string)
    requires Code(m, 'C') == Regular(Letter) && Code(m, '%') == Comment && Code(m, '\n') == EndOfLine
    requires forall i | 0 <= i < |t| :: Code(m, t[i]) != EndOfLine
    ensures LexAll(LexState("\n" + ("%" + t + "\nC"), true), m) == Ok([Character('C', Letter)])
  {
    var w := "%" + t + "\nC";
    EndOfInput(false, m);
    LineEndThenLetter(m, 'C', [], []);
    assert "\n" + (['C'] + []) == "\nC" && [Character('C', Letter)] + [] == [Character('C', Letter)];
    CommentThen(m, t, "\nC", true);
    assert w[0] == '%' && EndOfLineCount("\n", m) == 1;
    TrimmedThen(m, "\n", w);
  }

  /** Consecutive comment lines are skipped, whatever their text (case 9). */
  lemma TwoCommentsSkipped(m: CatCodeMap, t1: string, t2: string)
    requires Code(m, 'A') == Regular(Letter) && Code(m, 'C') == Regular(Letter)
    requires Code(m, '%') == Comment && Code(m, '\n') == EndOfLine
    requires forall i | 0 <= i < |t1| :: Code(m, t1[i]) != EndOfLine
    requires forall i | 0 <= i < |t2| :: Code(m, t2[i]) != EndOfLine
    ensures LexAll(LexState("A" + ("%" + t1 + ("\n" + ("%" + t2 + "\nC"))), false), m) == Ok([Character('A', Letter), Character('C', Letter)])
  {
    var v := "\n" + ("%" + t2 + "\nC");
    SecondCommentThenLetter(m, t2);
    assert v[0] == '\n';
    CommentThen(m, t1, v, false);
    CharacterThen(m, 'A', Letter, "%" + t1 + v, false, [Character('C', Letter)]);
    assert [Character('A', Letter)] + [Character('C', Letter)] == [Character('A', Letter), Character('C', Letter)];
  }

  /** A comment may end the input (case 10). */
  lemma CommentAtEnd(m: CatCodeMap, t: string)
    requires Code(m, 'A') == Regular(Letter) && Code(m, '%') == Comment
    requires forall i | 0 <= i < |t| :: Code(m, t[i]) != EndOfLine
    ensures LexAll(LexState("A%" + t, false), m) == Ok([Character('A', Letter)])
  {
    EndOfInput(true, m);
    CommentThen(m, t, [], false);
    assert "%" + t + [] == "%" + t && "A%" + t == ['A'] + ("%" + t);
    CharacterThen(m, 'A', Letter, "%" + t, false, []);
    assert [Character('A', Letter)] + [] == [Character('A', Letter)];
  }

  /*
   * The same building blocks for a fixed input `s`, read from position `k`, and a fixed list of
   * tokens `ts`, whose tail `ts[j..]` is what is left of the input after position `k`.
   */

  /** The character at `s[k]`, with a regular code other than space, is the first token. */
  lemma CharacterAt(m: CatCodeMap, s: string, k: nat, code: CatCode, trim: bool, ts: seq<Token>)
    requires k < |s| && Code(m, s[k]) == Regular(code) && code != Space
    requires ts != [] && ts[0] == Character(s[k], code)
    requires LexAll(LexState(s[k + 1..], false), m) == Ok(ts[1..])
    ensures LexAll(LexState(s[k..], trim), m) == Ok(ts)
  {
    assert s[k..][0] == s[k] && s[k..][1..] == s[k + 1..];
    RegularCharacter(LexState(s[k..], trim), m, code);
    TokenThen(LexState(s[k..], trim), m, ts[0], LexState(s[k + 1..], false), ts[1..]);
    assert [ts[0]] + ts[1..] == ts;
  }

  /** An escape character at the start of `s` and the letters of `name` after it are the first token. */
  lemma ControlSequenceAt(m: CatCodeMap, s: string, name: string, after: nat, trim: bool, ts: seq<Token>)
    requires after == 1 + |name| && 2 <= after <= |s| && Code(m, s[0]) == Escape
    requires s[1..after] == name && forall i | 0 <= i < |name| :: Code(m, name[i]) == Regular(Letter)
    requires after < |s| ==> Code(m, s[after]) != Regular(Letter)
    requires ts != [] && ts[0] == ControlSequence(s[0], name)
    requires LexAll(LexState(s[after..], true), m) == Ok(ts[1..])
    ensures LexAll(LexState(s, trim), m) == Ok(ts)
  {
    assert s == [s[0]] + name + s[after..];
    ControlSequenceThen(m, s[0], name, s[after..], trim, ts[1..]);
    assert [ts[0]] + ts[1..] == ts;
  }

  /** An escape character at `s[k]` and the character after it, not a letter, are the first token. */
  lemma SymbolControlSequenceAt(m: CatCodeMap, s: string, k: nat, trim: bool, ts: seq<Token>)
    requires k + 2 <= |s| && Code(m, s[k]) == Escape && Code(m, s[k + 1]) != Regular(Letter)
    requires ts != [] && ts[0] == ControlSequence(s[k], [s[k + 1]])
    requires LexAll(LexState(s[k + 2..], true), m) == Ok(ts[1..])
    ensures LexAll(LexState(s[k..], trim), m) == Ok(ts)
  {
    var r := s[k..];
    var after := s[k + 1..];
    assert r[0] == s[k] && r[1..] == after;
    assert after[0] == s[k + 1] && after[1..] == s[k + 2..];
    assert ControlSequenceAfter(s[k], r[1..], m) == (Ok(ControlSequence(s[k], [s[k + 1]])), s[k + 2..]);
    TokenThen(LexState(r, trim), m, ts[0], LexState(s[k + 2..], true), ts[1..]);
    assert [ts[0]] + ts[1..] == ts;
  }

  /** What the run of whitespace `ws` at `s[k]`, followed by something else, is lexed as. */
  lemma WhitespaceAt(m: CatCodeMap, s: string, k: nat, ws: string, trim: bool)
    requires ws != [] && forall i | 0 <= i < |ws| :: IsWhitespace(Code(m, ws[i]))
    requires k + |ws| <= |s| && s[k..k + |ws|] == ws
    requires k + |ws| < |s| ==> !IsWhitespace(Code(m, s[k + |ws|]))
    ensures EndOfLineCount(ws, m) >= 2 ==>
              Lex(LexState(s[k..], trim), m) == LexOutcome(Ok(Some(ControlSequence('\\', NewParName))), LexState(s[k + |ws|..], true))
    ensures EndOfLineCount(ws, m) < 2 && !trim ==>
              Lex(LexState(s[k..], trim), m) == LexOutcome(Ok(Some(Character(ws[0], Space))), LexState(s[k + |ws|..], false))
    ensures EndOfLineCount(ws, m) < 2 && trim ==>
              Lex(LexState(s[k..], trim), m) == Lex(LexState(s[k + |ws|..], true), m)
  {
    assert s[k..] == ws + s[k + |ws|..];
    WhitespaceThen(m, ws, s[k + |ws|..], trim);
  }

  /** A run of whitespace at `s[k]` with fewer than two ends of line is one space token. */
  lemma SpaceAt(m: CatCodeMap, s: string, k: nat, ws: string, ts: seq<Token>)
    requires ws != [] && forall i | 0 <= i < |ws| :: IsWhitespace(Code(m, ws[i]))
    requires k + |ws| <= |s| && s[k..k + |ws|] == ws
    requires k + |ws| < |s| ==> !IsWhitespace(Code(m, s[k + |ws|]))
    requires EndOfLineCount(ws, m) < 2
    requires ts != [] && ts[0] == Character(ws[0], Space)
    requires LexAll(LexState(s[k + |ws|..], false), m) == Ok(ts[1..])
    ensures LexAll(LexState(s[k..], false), m) == Ok(ts)
  {
    WhitespaceAt(m, s, k, ws, false);
    TokenThen(LexState(s[k..], false), m, ts[0], LexState(s[k + |ws|..], false), ts[1..]);
    assert [ts[0]] + ts[1..] == ts;
  }

  /** A run of whitespace at `s[k]` with two or more ends of line is a paragraph break. */
  lemma ParAt(m: CatCodeMap, s: string, k: nat, ws: string, trim: bool, ts: seq<Token>)
    requires ws != [] && forall i | 0 <= i < |ws| :: IsWhitespace(Code(m, ws[i]))
    requires k + |ws| <= |s| && s[k..k + |ws|] == ws
    requires k + |ws| < |s| ==> !IsWhitespace(Code(m, s[k + |ws|]))
    requires EndOfLineCount(ws, m) >= 2
    requires ts != [] && ts[0] == ControlSequence('\\', NewParName)
    requires LexAll(LexState(s[k + |ws|..], true), m) == Ok(ts[1..])
    ensures LexAll(LexState(s[k..], trim), m) == Ok(ts)
  {
    WhitespaceAt(m, s, k, ws, trim);
    TokenThen(LexState(s[k..], trim), m, ts[0], LexState(s[k + |ws|..], true), ts[1..]);
    assert [ts[0]] + ts[1..] == ts;
  }

  /** A trimmed run of whitespace at `s[k]` with fewer than two ends of line produces nothing. */
  lemma TrimmedAt(m: CatCodeMap, s: string, k: nat, ws: string)
    requires ws != [] && forall i | 0 <= i < |ws| :: IsWhitespace(Code(m, ws[i]))
    requires k + |ws| <= |s| && s[k..k + |ws|] == ws
    requires k + |ws| < |s| ==> !IsWhitespace(Code(m, s[k + |ws|]))
    requires EndOfLineCount(ws, m) < 2
    ensures LexAll(LexState(s[k..], true), m) == LexAll(LexState(s[k + |ws|..], true), m)
  {
    WhitespaceAt(m, s, k, ws, true);
  }

  /** A comment at `s[k]` that runs up to position `j` produces nothing. */
  lemma CommentAt(m: CatCodeMap, s: string, k: nat, j: nat, trim: bool)
    requires k < j <= |s| && Code(m, s[k]) == Comment
    requires forall i | k < i < j :: Code(m, s[i]) != EndOfLine
    requires j < |s| ==> Code(m, s[j]) == EndOfLine
    ensures LexAll(LexState(s[k..], trim), m) == LexAll(LexState(s[j..], true), m)
  {
    var r := s[k..];
    assert r[0] == s[k] && r[1..] == s[k + 1..];
    CommentLengthIs(s[k + 1..], m, j - k - 1);
    CommentSkipsToEndOfLine(LexState(r, trim), m);
    assert r[j - k..] == s[j..];
  }

  /** The group after the name in case 1. */
  lemma ControlSequenceThenGroupTail(m: CatCodeMap)
    requires Code(m, 'b') == Regular(Letter)
    requires Code(m, '{') == Regular(BeginGroup) && Code(m, '}') == Regular(EndGroup)
    ensures LexAll(LexState("\\a{b}"[2..], true), m) ==
              Ok([ControlSequence('\\', "a"), Character('{', BeginGroup), Character('b', Letter), Character('}', EndGroup)][1..])
  {
    var s := "\\a{b}";
    var ts := [ControlSequence('\\', "a"), Character('{', BeginGroup), Character('b', Letter), Character('}', EndGroup)];
    EndOfInputAt(m, s, false, ts);
    CharacterAt(m, s, 4, EndGroup, false, ts[3..]);
    CharacterAt(m, s, 3, Letter, false, ts[2..]);
    CharacterAt(m, s, 2, BeginGroup, true, ts[1..]);
  }

  /** A letter control sequence ends where the letters end (lexer.rs tests, case 1). */
  lemma ControlSequenceThenGroup(m: CatCodeMap)
    requires Code(m, '\\') == Escape && Code(m, 'a') == Regular(Letter) && Code(m, 'b') == Regular(Letter)
    requires Code(m, '{') == Regular(BeginGroup) && Code(m, '}') == Regular(EndGroup)
    ensures LexAll(LexState("\\a{b}", false), m) == Ok([ControlSequence('\\', "a"), Character('{', BeginGroup), Character('b', Letter), Character('}', EndGroup)])
  {
    var s := "\\a{b}";
    var ts := [ControlSequence('\\', "a"), Character('{', BeginGroup), Character('b', Letter), Character('}', EndGroup)];
    ControlSequenceThenGroupTail(m);
    ControlSequenceAt(m, s, "a", 2, false, ts);
  }

  /** What follows the control sequence in case 2. */
  lemma SpaceAfterControlSequenceTrimmedTail(m: CatCodeMap)
    requires Code(m, 'b') == Regular(Letter) && Code(m, ' ') == Regular(Space)
    ensures LexAll(LexState("\\a b"[2..], true), m) == Ok([ControlSequence('\\', "a"), Character('b', Letter)][1..])
  {
    var s := "\\a b";
    var ts := [ControlSequence('\\', "a"), Character('b', Letter)];
    EndOfInputAt(m, s, false, ts);
    CharacterAt(m, s, 3, Letter, true, ts[1..]);
    assert s[2..3] == " ";
    TrimmedAt(m, s, 2, " ");
  }

  /** A space after a control sequence is trimmed (case 2). */
  lemma SpaceAfterControlSequenceTrimmed(m: CatCodeMap)
    requires Code(m, '\\') == Escape && Code(m, 'a') == Regular(Letter) && Code(m, 'b') == Regular(Letter) && Code(m, ' ') == Regular(Space)
    ensures LexAll(LexState("\\a b", false), m) == Ok([ControlSequence('\\', "a"), Character('b', Letter)])
  {
    var s := "\\a b";
    var ts := [ControlSequence('\\', "a"), Character('b', Letter)];
    SpaceAfterControlSequenceTrimmedTail(m);
    ControlSequenceAt(m, s, "a", 2, false, ts);
  }

  /** What follows the control sequence in case 3. */
  lemma SpacesAfterControlSequenceTrimmedTail(m: CatCodeMap)
    requires Code(m, 'b') == Regular(Letter) && Code(m, ' ') == Regular(Space)
    ensures LexAll(LexState("\\a  b"[2..], true), m) == Ok([ControlSequence('\\', "a"), Character('b', Letter)][1..])
  {
    var s := "\\a  b";
    var ts := [ControlSequence('\\', "a"), Character('b', Letter)];
    EndOfInputAt(m, s, false, ts);
    CharacterAt(m, s, 4, Letter, true, ts[1..]);
    assert s[2..4] == "  " && "  "[..1] == " ";
    assert EndOfLineCount("  ", m) == 0;
    TrimmedAt(m, s, 2, "  ");
  }

  /** Several spaces after a control sequence are trimmed (case 3). */
  lemma SpacesAfterControlSequenceTrimmed(m: CatCodeMap)
    requires Code(m, '\\') == Escape && Code(m, 'a') == Regular(Letter) && Code(m, 'b') == Regular(Letter) && Code(m, ' ') == Regular(Space)
    ensures LexAll(LexState("\\a  b", false), m) == Ok([ControlSequence('\\', "a"), Character('b', Letter)])
  {
    var s := "\\a  b";
    var ts := [ControlSequence('\\', "a"), Character('b', Letter)];
    SpacesAfterControlSequenceTrimmedTail(m);
    ControlSequenceAt(m, s, "a", 2, false, ts);
  }

  /** What follows the control sequence in case 4. */
  lemma NewlineAfterControlSequenceTrimmedTail(m: CatCodeMap)
    requires Code(m, 'b') == Regular(Letter) && Code(m, ' ') == Regular(Space) && Code(m, '\n') == EndOfLine
    ensures LexAll(LexState("\\a\n b"[2..], true), m) == Ok([ControlSequence('\\', "a"), Character('b', Letter)][1..])
  {
    var s := "\\a\n b";
    var ts := [ControlSequence('\\', "a"), Character('b', Letter)];
    EndOfInputAt(m, s, false, ts);
    CharacterAt(m, s, 4, Letter, true, ts[1..]);
    assert s[2..4] == "\n " && "\n "[..1] == "\n";
    assert EndOfLineCount("\n ", m) == 1;
    TrimmedAt(m, s, 2, "\n ");
  }

  /** An end of line and a space after a control sequence are trimmed (case 4). */
  lemma NewlineAfterControlSequenceTrimmed(m: CatCodeMap)
    requires Code(m, '\\') == Escape && Code(m, 'a') == Regular(Letter) && Code(m, 'b') == Regular(Letter) && Code(m, ' ') == Regular(Space)
    requires Code(m, '\n') == EndOfLine
    ensures LexAll(LexState("\\a\n b", false), m) == Ok([ControlSequence('\\', "a"), Character('b', Letter)])
  {
    var s := "\\a\n b";
    var ts := [ControlSequence('\\', "a"), Character('b', Letter)];
    NewlineAfterControlSequenceTrimmedTail(m);
    ControlSequenceAt(m, s, "a", 2, false, ts);
  }

  /** The group after the name in case 5. */
  lemma MultiLetterControlSequenceTail(m: CatCodeMap)
    requires Code(m, 'D') == Regular(Letter) && Code(m, '{') == Regular(BeginGroup) && Code(m, '}') == Regular(EndGroup)
    ensures LexAll(LexState("\\ABC{D}"[4..], true), m) == Ok([ControlSequence('\\', "ABC"), Character('{', BeginGroup), Character('D', Letter), Character('}', EndGroup)][1..])
  {
    var s := "\\ABC{D}";
    var ts := [ControlSequence('\\', "ABC"), Character('{', BeginGroup), Character('D', Letter), Character('}', EndGroup)];
    EndOfInputAt(m, s, false, ts);
    CharacterAt(m, s, 6, EndGroup, false, ts[3..]);
    CharacterAt(m, s, 5, Letter, false, ts[2..]);
    CharacterAt(m, s, 4, BeginGroup, true, ts[1..]);
  }

  /** A control sequence name takes every letter (case 5). */
  lemma MultiLetterControlSequence(m: CatCodeMap)
    requires Code(m, '\\') == Escape && Code(m, 'A') == Regular(Letter) && Code(m, 'B') == Regular(Letter) && Code(m, 'C') == Regular(Letter)
    requires Code(m, 'D') == Regular(Letter) && Code(m, '{') == Regular(BeginGroup) && Code(m, '}') == Regular(EndGroup)
    ensures LexAll(LexState("\\ABC{D}", false), m) == Ok([ControlSequence('\\', "ABC"), Character('{', BeginGroup), Character('D', Letter), Character('}', EndGroup)])
  {
    var s := "\\ABC{D}";
    var ts := [ControlSequence('\\', "ABC"), Character('{', BeginGroup), Character('D', Letter), Character('}', EndGroup)];
    MultiLetterControlSequenceTail(m);
    ControlSequenceAt(m, s, "ABC", 4, false, ts);
  }

  /** A control sequence may end the input. */
  lemma ControlSequenceAtEnd(m: CatCodeMap)
    requires Code(m, '\\') == Escape && Code(m, 'A') == Regular(Letter) && Code(m, 'B') == Regular(Letter) && Code(m, 'C') == Regular(Letter)
    ensures LexAll(LexState("\\ABC", false), m) == Ok([ControlSequence('\\', "ABC")])
  {
    var s := "\\ABC";
    var ts := [ControlSequence('\\', "ABC")];
    EndOfInputAt(m, s, true, ts);
    ControlSequenceAt(m, s, "ABC", 4, false, ts);
  }

  /** A non-letter after the escape is a name of its own. */
  lemma SingleNonLetterControlSequence(m: CatCodeMap)
    requires Code(m, '\\') == Escape && Code(m, '{') == Regular(BeginGroup)
    ensures LexAll(LexState("\\{{", false), m) == Ok([ControlSequence('\\', "{"), Character('{', BeginGroup)])
  {
    var s := "\\{{";
    var ts := [ControlSequence('\\', "{"), Character('{', BeginGroup)];
    EndOfInputAt(m, s, false, ts);
    CharacterAt(m, s, 2, BeginGroup, true, ts[1..]);
    SymbolControlSequenceAt(m, s, 0, false, ts);
  }

  /** A non-letter name is not followed by letters. */
  lemma SingleNonLetterControlSequenceThenLetter(m: CatCodeMap)
    requires Code(m, '\\') == Escape && Code(m, '{') == Regular(BeginGroup) && Code(m, 'A') == Regular(Letter)
    ensures LexAll(LexState("\\{A", false), m) == Ok([ControlSequence('\\', "{"), Character('A', Letter)])
  {
    var s := "\\{A";
    var ts := [ControlSequence('\\', "{"), Character('A', Letter)];
    EndOfInputAt(m, s, false, ts);
    CharacterAt(m, s, 2, Letter, true, ts[1..]);
    SymbolControlSequenceAt(m, s, 0, false, ts);
  }

  /** What follows the comment in case 11. */
  lemma WhitespaceAfterCommentTrimmedTail(m: CatCodeMap)
    requires Code(m, 'B') == Regular(Letter) && Code(m, '\n') == EndOfLine && Code(m, ' ') == Regular(Space)
    ensures LexAll(LexState("A%\n B"[2..], true), m) == Ok([Character('A', Letter), Character('B', Letter)][1..])
  {
    var s := "A%\n B";
    var ts := [Character('A', Letter), Character('B', Letter)];
    EndOfInputAt(m, s, false, ts);
    CharacterAt(m, s, 4, Letter, true, ts[1..]);
    assert s[2..4] == "\n " && "\n "[..1] == "\n";
    assert EndOfLineCount("\n ", m) == 1;
    TrimmedAt(m, s, 2, "\n ");
  }

  /** The line end after a comment, and what follows, is trimmed (case 11). */
  lemma WhitespaceAfterCommentTrimmed(m: CatCodeMap)
    requires Code(m, 'A') == Regular(Letter) && Code(m, 'B') == Regular(Letter) && Code(m, '%') == Comment && Code(m, '\n') == EndOfLine
    requires Code(m, ' ') == Regular(Space)
    ensures LexAll(LexState("A%\n B", false), m) == Ok([Character('A', Letter), Character('B', Letter)])
  {
    var s := "A%\n B";
    var ts := [Character('A', Letter), Character('B', Letter)];
    WhitespaceAfterCommentTrimmedTail(m);
    assert s[0] == 'A' && s[1] == '%' && s[2] == '\n' && s[0..] == s;
    CommentAt(m, s, 1, 2, false);
    CharacterAt(m, s, 0, Letter, false, ts);
  }

  /** What follows the comment in case 12. */
  lemma BlankLineAfterCommentIsParTail(m: CatCodeMap)
    requires Code(m, 'B') == Regular(Letter) && Code(m, '\n') == EndOfLine && Code(m, ' ') == Regular(Space)
    ensures LexAll(LexState("A%\n\n B"[2..], true), m) == Ok([Character('A', Letter), ControlSequence('\\', "par"), Character('B', Letter)][1..])
  {
    var s := "A%\n\n B";
    var ts := [Character('A', Letter), ControlSequence('\\', "par"), Character('B', Letter)];
    EndOfInputAt(m, s, false, ts);
    CharacterAt(m, s, 5, Letter, true, ts[2..]);
    assert s[2..5] == "\n\n " && "\n\n "[..2] == "\n\n" && "\n\n"[..1] == "\n";
    assert EndOfLineCount("\n\n", m) == 2;
    assert EndOfLineCount("\n\n ", m) == 2;
    ParAt(m, s, 2, "\n\n ", true, ts[1..]);
  }

  /** A blank line after a comment is still a paragraph break (case 12). */
  lemma BlankLineAfterCommentIsPar(m: CatCodeMap)
    requires Code(m, 'A') == Regular(Letter) && Code(m, 'B') == Regular(Letter) && Code(m, '%') == Comment && Code(m, '\n') == EndOfLine
    requires Code(m, ' ') == Regular(Space)
    ensures LexAll(LexState("A%\n\n B", false), m) == Ok([Character('A', Letter), ControlSequence('\\', "par"), Character('B', Letter)])
  {
    var s := "A%\n\n B";
    var ts := [Character('A', Letter), ControlSequence('\\', "par"), Character('B', Letter)];
    BlankLineAfterCommentIsParTail(m);
    assert s[0] == 'A' && s[1] == '%' && s[2] == '\n' && s[0..] == s;
    CommentAt(m, s, 1, 2, false);
    CharacterAt(m, s, 0, Letter, false, ts);
  }

  /** The comment and what follows it in case 13. */
  lemma ControlSequenceSpaceCommentTail(m: CatCodeMap)
    requires Code(m, 'B') == Regular(Letter) && Code(m, '%') == Comment && Code(m, '\n') == EndOfLine
    ensures LexAll(LexState("\\A %\nB"[3..], true), m) == Ok([ControlSequence('\\', "A"), Character('B', Letter)][1..])
  {
    var s := "\\A %\nB";
    var ts := [ControlSequence('\\', "A"), Character('B', Letter)];
    EndOfInputAt(m, s, false, ts);
    CharacterAt(m, s, 5, Letter, true, ts[1..]);
    assert s[4..5] == "\n";
    TrimmedAt(m, s, 4, "\n");
    CommentAt(m, s, 3, 4, true);
  }

  /** What follows the control sequence in case 13. */
  lemma ControlSequenceSpaceCommentAfterName(m: CatCodeMap)
    requires Code(m, 'B') == Regular(Letter) && Code(m, ' ') == Regular(Space)
    requires Code(m, '%') == Comment && Code(m, '\n') == EndOfLine
    ensures LexAll(LexState("\\A %\nB"[2..], true), m) == Ok([ControlSequence('\\', "A"), Character('B', Letter)][1..])
  {
    var s := "\\A %\nB";
    ControlSequenceSpaceCommentTail(m);
    assert s[2..3] == " ";
    TrimmedAt(m, s, 2, " ");
  }

  /** Trimming survives a comment (case 13). */
  lemma ControlSequenceSpaceComment(m: CatCodeMap)
    requires Code(m, '\\') == Escape && Code(m, 'A') == Regular(Letter) && Code(m, 'B') == Regular(Letter) && Code(m, ' ') == Regular(Space)
    requires Code(m, '%') == Comment && Code(m, '\n') == EndOfLine
    ensures LexAll(LexState("\\A %\nB", false), m) == Ok([ControlSequence('\\', "A"), Character('B', Letter)])
  {
    var s := "\\A %\nB";
    var ts := [ControlSequence('\\', "A"), Character('B', Letter)];
    ControlSequenceSpaceCommentAfterName(m);
    assert s[0] == '\\' && s[1..2] == "A" && s[2] == ' ';
    ControlSequenceAt(m, s, "A", 2, false, ts);
  }

  /** What follows the first letter. */
  lemma DoubleSpaceIsOneSpaceTail(m: CatCodeMap)
    requires Code(m, 'B') == Regular(Letter) && Code(m, ' ') == Regular(Space)
    ensures LexAll(LexState("A  B"[1..], false), m) == Ok([Character('A', Letter), Character(' ', Space), Character('B', Letter)][1..])
  {
    var s := "A  B";
    var ts := [Character('A', Letter), Character(' ', Space), Character('B', Letter)];
    EndOfInputAt(m, s, false, ts);
    CharacterAt(m, s, 3, Letter, false, ts[2..]);
    assert s[1..3] == "  " && "  "[..1] == " ";
    assert EndOfLineCount("  ", m) == 0;
    SpaceAt(m, s, 1, "  ", ts[1..]);
  }

  /** Two spaces become one space token. */
  lemma DoubleSpaceIsOneSpace(m: CatCodeMap)
    requires Code(m, 'A') == Regular(Letter) && Code(m, 'B') == Regular(Letter) && Code(m, ' ') == Regular(Space)
    ensures LexAll(LexState("A  B", false), m) == Ok([Character('A', Letter), Character(' ', Space), Character('B', Letter)])
  {
    var s := "A  B";
    var ts := [Character('A', Letter), Character(' ', Space), Character('B', Letter)];
    DoubleSpaceIsOneSpaceTail(m);
    CharacterAt(m, s, 0, Letter, false, ts);
  }

  /** What follows the first letter. */
  lemma NewlineIsSpaceTail(m: CatCodeMap)
    requires Code(m, 'B') == Regular(Letter) && Code(m, '\n') == EndOfLine
    ensures LexAll(LexState("A\nB"[1..], false), m) == Ok([Character('A', Letter), Character('\n', Space), Character('B', Letter)][1..])
  {
    var s := "A\nB";
    var ts := [Character('A', Letter), Character('\n', Space), Character('B', Letter)];
    EndOfInputAt(m, s, false, ts);
    CharacterAt(m, s, 2, Letter, false, ts[2..]);
    assert s[1..2] == "\n";
    SpaceAt(m, s, 1, "\n", ts[1..]);
  }

  /** One end of line becomes a space token carrying the newline. */
  lemma NewlineIsSpace(m: CatCodeMap)
    requires Code(m, 'A') == Regular(Letter) && Code(m, 'B') == Regular(Letter) && Code(m, '\n') == EndOfLine
    ensures LexAll(LexState("A\nB", false), m) == Ok([Character('A', Letter), Character('\n', Space), Character('B', Letter)])
  {
    var s := "A\nB";
    var ts := [Character('A', Letter), Character('\n', Space), Character('B', Letter)];
    NewlineIsSpaceTail(m);
    CharacterAt(m, s, 0, Letter, false, ts);
  }

  /** What follows the first letter. */
  lemma SpaceAndNewlineIsSpaceTail(m: CatCodeMap)
    requires Code(m, 'B') == Regular(Letter) && Code(m, ' ') == Regular(Space) && Code(m, '\n') == EndOfLine
    ensures LexAll(LexState("A \nB"[1..], false), m) == Ok([Character('A', Letter), Character(' ', Space), Character('B', Letter)][1..])
  {
    var s := "A \nB";
    var ts := [Character('A', Letter), Character(' ', Space), Character('B', Letter)];
    EndOfInputAt(m, s, false, ts);
    CharacterAt(m, s, 3, Letter, false, ts[2..]);
    assert s[1..3] == " \n" && " \n"[..1] == " ";
    assert EndOfLineCount(" \n", m) == 1;
    SpaceAt(m, s, 1, " \n", ts[1..]);
  }

  /** A space then an end of line become one space token. */
  lemma SpaceAndNewlineIsSpace(m: CatCodeMap)
    requires Code(m, 'A') == Regular(Letter) && Code(m, 'B') == Regular(Letter) && Code(m, ' ') == Regular(Space) && Code(m, '\n') == EndOfLine
    ensures LexAll(LexState("A \nB", false), m) == Ok([Character('A', Letter), Character(' ', Space), Character('B', Letter)])
  {
    var s := "A \nB";
    var ts := [Character('A', Letter), Character(' ', Space), Character('B', Letter)];
    SpaceAndNewlineIsSpaceTail(m);
    CharacterAt(m, s, 0, Letter, false, ts);
  }

  /** What follows the first letter. */
  lemma DoubleNewlineIsParTail(m: CatCodeMap)
    requires Code(m, 'B') == Regular(Letter) && Code(m, '\n') == EndOfLine
    ensures LexAll(LexState("A\n\nB"[1..], false), m) == Ok([Character('A', Letter), ControlSequence('\\', "par"), Character('B', Letter)][1..])
  {
    var s := "A\n\nB";
    var ts := [Character('A', Letter), ControlSequence('\\', "par"), Character('B', Letter)];
    EndOfInputAt(m, s, false, ts);
    CharacterAt(m, s, 3, Letter, true, ts[2..]);
    assert s[1..3] == "\n\n" && "\n\n"[..1] == "\n";
    assert EndOfLineCount("\n\n", m) == 2;
    ParAt(m, s, 1, "\n\n", false, ts[1..]);
  }

  /** Two ends of line become the paragraph control sequence. */
  lemma DoubleNewlineIsPar(m: CatCodeMap)
    requires Code(m, 'A') == Regular(Letter) && Code(m, 'B') == Regular(Letter) && Code(m, '\n') == EndOfLine
    ensures LexAll(LexState("A\n\nB", false), m) == Ok([Character('A', Letter), ControlSequence('\\', "par"), Character('B', Letter)])
  {
    var s := "A\n\nB";
    var ts := [Character('A', Letter), ControlSequence('\\', "par"), Character('B', Letter)];
    DoubleNewlineIsParTail(m);
    CharacterAt(m, s, 0, Letter, false, ts);
  }

  /** What follows the first letter. */
  lemma NewlineSpaceNewlineIsParTail(m: CatCodeMap)
    requires Code(m, 'B') == Regular(Letter) && Code(m, ' ') == Regular(Space) && Code(m, '\n') == EndOfLine
    ensures LexAll(LexState("A\n \nB"[1..], false), m) == Ok([Character('A', Letter), ControlSequence('\\', "par"), Character('B', Letter)][1..])
  {
    var s := "A\n \nB";
    var ts := [Character('A', Letter), ControlSequence('\\', "par"), Character('B', Letter)];
    EndOfInputAt(m, s, false, ts);
    CharacterAt(m, s, 4, Letter, true, ts[2..]);
    assert s[1..4] == "\n \n" && "\n \n"[..2] == "\n " && "\n "[..1] == "\n";
    assert EndOfLineCount("\n ", m) == 1;
    assert EndOfLineCount("\n \n", m) == 2;
    ParAt(m, s, 1, "\n \n", false, ts[1..]);
  }

  /** Ends of line separated by a space still count together. */
  lemma NewlineSpaceNewlineIsPar(m: CatCodeMap)
    requires Code(m, 'A') == Regular(Letter) && Code(m, 'B') == Regular(Letter) && Code(m, ' ') == Regular(Space) && Code(m, '\n') == EndOfLine
    ensures LexAll(LexState("A\n \nB", false), m) == Ok([Character('A', Letter), ControlSequence('\\', "par"), Character('B', Letter)])
  {
    var s := "A\n \nB";
    var ts := [Character('A', Letter), ControlSequence('\\', "par"), Character('B', Letter)];
    NewlineSpaceNewlineIsParTail(m);
    CharacterAt(m, s, 0, Letter, false, ts);
  }

  /** What follows the first letter. */
  lemma NonStandardSpaceTail(m: CatCodeMap)
    requires Code(m, 'B') == Regular(Letter) && Code(m, 'Y') == Regular(Space)
    ensures LexAll(LexState("AYB"[1..], false), m) == Ok([Character('A', Letter), Character('Y', Space), Character('B', Letter)][1..])
  {
    var s := "AYB";
    var ts := [Character('A', Letter), Character('Y', Space), Character('B', Letter)];
    EndOfInputAt(m, s, false, ts);
    CharacterAt(m, s, 2, Letter, false, ts[2..]);
    assert s[1..2] == "Y";
    SpaceAt(m, s, 1, "Y", ts[1..]);
  }

  /** A character with the space code becomes a space token. */
  lemma NonStandardSpace(m: CatCodeMap)
    requires Code(m, 'A') == Regular(Letter) && Code(m, 'B') == Regular(Letter) && Code(m, 'Y') == Regular(Space)
    ensures LexAll(LexState("AYB", false), m) == Ok([Character('A', Letter), Character('Y', Space), Character('B', Letter)])
  {
    var s := "AYB";
    var ts := [Character('A', Letter), Character('Y', Space), Character('B', Letter)];
    NonStandardSpaceTail(m);
    CharacterAt(m, s, 0, Letter, false, ts);
  }

  /** What follows the first letter. */
  lemma NonStandardNewlineTail(m: CatCodeMap)
    requires Code(m, 'B') == Regular(Letter) && Code(m, 'X') == EndOfLine
    ensures LexAll(LexState("AXB"[1..], false), m) == Ok([Character('A', Letter), Character('X', Space), Character('B', Letter)][1..])
  {
    var s := "AXB";
    var ts := [Character('A', Letter), Character('X', Space), Character('B', Letter)];
    EndOfInputAt(m, s, false, ts);
    CharacterAt(m, s, 2, Letter, false, ts[2..]);
    assert s[1..2] == "X";
    SpaceAt(m, s, 1, "X", ts[1..]);
  }

  /** A character with the end-of-line code becomes a space token. */
  lemma NonStandardNewline(m: CatCodeMap)
    requires Code(m, 'A') == Regular(Letter) && Code(m, 'B') == Regular(Letter) && Code(m, 'X') == EndOfLine
    ensures LexAll(LexState("AXB", false), m) == Ok([Character('A', Letter), Character('X', Space), Character('B', Letter)])
  {
    var s := "AXB";
    var ts := [Character('A', Letter), Character('X', Space), Character('B', Letter)];
    NonStandardNewlineTail(m);
    CharacterAt(m, s, 0, Letter, false, ts);
  }

  /** An ignored character produces nothing. */
  lemma IgnoredCharacter(m: CatCodeMap)
    requires Code(m, 'Z') == Ignored
    ensures LexAll(LexState("Z", false), m) == Ok([])
  {
    LexSkipsIgnored("Z", [], false, m);
    assert "Z" + [] == "Z";
  }
}
