/**
 * The input module: a one-token cache in front of the lexer of the file being read. The lexer
 * is asked for a token only when the cache is empty, and always with the module's own catcode
 * map as it stands at that moment.
 *
 * `InputState` is what the module holds, as a value: the cached token and, when a file is
 * open, the lexer's state. `Prepare`, `Take` and `PeekAt` say what the module's operations do
 * to it; the `InputModule` class is proved to do exactly that.
 */
module Input {
  import opened Wrappers
  import opened CatCodes
  import opened Tokens
  import opened ScopedMaps
  import opened LexerSpec
  import opened Lexers

  datatype InputState = InputState(cached: Option<Token>, lexing: Option<LexState>)

  /** Filling the cache: one request to the lexer, made only when the cache is empty. */
  function Prepare(s: InputState, m: CatCodeMap): (o: (Result<(), LexerError>, InputState))
    ensures o.1.lexing.Some? <==> s.lexing.Some?
    ensures s.cached.Some? || s.lexing.None? ==> o == (Ok(()), s)
    ensures s.cached.None? && s.lexing.Some? ==>
              (Lex(s.lexing.value, m).result.Ok? <==> o.0.Ok?)
    ensures o.0.Ok? && o.1.cached.None? && o.1.lexing.Some? ==> o.1.lexing.value.input == []
    ensures s.cached.None? && s.lexing.Some? ==>
              var lo := Lex(s.lexing.value, m);
              && o.1.lexing == Some(lo.state)
              && (lo.result.Ok? ==> o == (Ok(()), InputState(lo.result.value, Some(lo.state))))
              && (lo.result.Err? ==> o == (Err(lo.result.error), InputState(None, Some(lo.state))))
  {
    if s.cached.Some? || s.lexing.None? then (Ok(()), s)
    else
      var lo := Lex(s.lexing.value, m);
      match lo.result
      case Err(e) => (Err(e), InputState(None, Some(lo.state)))
      case Ok(t) => (Ok(()), InputState(t, Some(lo.state)))
  }

  /** `next`: prepare, then hand out the cached token and empty the cache. */
  function Take(s: InputState, m: CatCodeMap): (o: (Result<Option<Token>, LexerError>, InputState))
    ensures o.1.cached == None
    ensures s.cached.Some? ==> o == (Ok(s.cached), s.(cached := None))
    ensures s.cached.None? && s.lexing.None? ==> o == (Ok(None), s)
    ensures s.cached.None? && s.lexing.Some? ==>
              var lo := Lex(s.lexing.value, m);
              o == (if lo.result.Ok? then Ok(lo.result.value) else Err(lo.result.error), InputState(None, Some(lo.state)))
  {
    var (p, s1) := Prepare(s, m);
    if p.Err? then (Err(p.error), s1) else (Ok(s1.cached), s1.(cached := None))
  }

  /** `peek`: prepare, then return the cached token without taking it. */
  function PeekAt(s: InputState, m: CatCodeMap): (o: (Result<Option<Token>, LexerError>, InputState))
    ensures s.cached.Some? || s.lexing.None? ==> o == (Ok(s.cached), s)
    ensures s.cached.None? && s.lexing.Some? ==>
              var lo := Lex(s.lexing.value, m);
              o == (if lo.result.Ok? then Ok(lo.result.value) else Err(lo.result.error),
                    InputState(if lo.result.Ok? then lo.result.value else None, Some(lo.state)))
  {
    var (p, s1) := Prepare(s, m);
    if p.Err? then (Err(p.error), s1) else (Ok(s1.cached), s1)
  }

  /** Once the lexer has reported the end of the input, it keeps doing so. */
  lemma LexAtEnd(trim: bool, m: CatCodeMap)
    ensures Lex(LexState([], trim), m) == LexOutcome(Ok(None), LexState([], trim))
  {
  }

  /** Preparing a second time changes nothing: the lexer is not asked again. */
  lemma PrepareIsIdempotent(s: InputState, m: CatCodeMap)
    requires Prepare(s, m).0.Ok?
    ensures Prepare(Prepare(s, m).1, m) == (Ok(()), Prepare(s, m).1)
  {
    var s1 := Prepare(s, m).1;
    if s1.cached.None? && s1.lexing.Some? {
      LexAtEnd(s1.lexing.value.trimNextWhitespace, m);
    }
  }

  /** Peeking twice gives the same answer and leaves the same state as peeking once. */
  lemma PeekIsIdempotent(s: InputState, m: CatCodeMap)
    requires PeekAt(s, m).0.Ok?
    ensures PeekAt(PeekAt(s, m).1, m) == PeekAt(s, m)
  {
    PrepareIsIdempotent(s, m);
  }

  /** A successful peek returns the token the next `next` takes, and does not change it. */
  lemma PeekAgreesWithTake(s: InputState, m: CatCodeMap)
    requires PeekAt(s, m).0.Ok?
    ensures Take(PeekAt(s, m).1, m) == Take(s, m)
    ensures Take(s, m).0 == PeekAt(s, m).0
  {
    PrepareIsIdempotent(s, m);
  }

  /** With no file open and nothing cached, the module is an empty stream. */
  lemma NoFileIsEmpty(m: CatCodeMap)
    ensures Take(InputState(None, None), m) == (Ok(None), InputState(None, None))
    ensures PeekAt(InputState(None, None), m) == (Ok(None), InputState(None, None))
  {
  }

  class InputModule {
    const catCodeMap: ScopedMap<char, RawCatCode>
    /** The lexer of the open file; `null` until a file is opened. */
    var lexer: Lexer?
    /** The token that has been peeked at and not yet taken. */
    var nextToken: Option<Token>

    /** The objects a request may change: this module and its lexer. */
    ghost function Repr(): set<object>
      reads this
    {
      if lexer == null then {this} else {this, lexer, lexer.rawLexer}
    }

    ghost function State(): InputState
      reads Repr()
    {
      InputState(nextToken, if lexer == null then None else Some(lexer.State()))
    }

    constructor(catCodeMap: ScopedMap<char, RawCatCode>)
      ensures this.catCodeMap == catCodeMap
      ensures State() == InputState(None, None)
    {
      this.catCodeMap := catCodeMap;
      lexer := null;
      nextToken := None;
    }

    /** Starts reading `text`, the contents of a file; the cached token is kept. */
    method OpenFile(text: seq<char>)
      modifies this
      ensures lexer != null && fresh(lexer) && fresh(lexer.rawLexer)
      ensures State() == InputState(old(nextToken), Some(LexState(text, false)))
    {
      lexer := new Lexer(text);
    }

    method PrepareImutPeek() returns (r: Result<(), LexerError>)
      requires catCodeMap.Valid()
      modifies Repr()
      ensures lexer == old(lexer)
      ensures (r, State()) == Prepare(old(State()), catCodeMap.Current())
    {
      if nextToken == None && lexer != null {
        var t := lexer.Next(catCodeMap.Current());
        if t.Err? {
          return Err(t.error);
        }
        nextToken := t.value;
      }
      return Ok(());
    }

    /** The cached token. */
    function ImutPeek(): (r: Option<Token>)
      reads this, Repr()
      ensures r == State().cached
    {
      nextToken
    }

    method Next() returns (r: Result<Option<Token>, LexerError>)
      requires catCodeMap.Valid()
      modifies Repr()
      ensures lexer == old(lexer)
      ensures (r, State()) == Take(old(State()), catCodeMap.Current())
    {
      var prepared := PrepareImutPeek();
      if prepared.Err? {
        return Err(prepared.error);
      }
      r := Ok(nextToken);
      nextToken := None;
    }

    /** The default `peek`: prepare, then peek immutably. */
    method Peek() returns (r: Result<Option<Token>, LexerError>)
      requires catCodeMap.Valid()
      modifies Repr()
      ensures lexer == old(lexer)
      ensures (r, State()) == PeekAt(old(State()), catCodeMap.Current())
    {
      var prepared := PrepareImutPeek();
      if prepared.Err? {
        return Err(prepared.error);
      }
      r := Ok(ImutPeek());
    }
  }
}
