/**
 * The execution driver's two streams as the program has them. `UnexpandedStream` keeps a stack
 * of token streams over the input module; `ExpandedStream` wraps it and expands primitives
 * before handing tokens out. Each operation is proved to compute its `DriverSpec` counterpart
 * with the maps current at the time of the call: the primitives' map and the input module's
 * catcode map.
 *
 * The stack owns its streams (nothing else can reach them), so each stacked stream is held as
 * the tokens it has still to yield: peeking at it is `First`, taking from it is `Rest`.
 */
module Driver {
  import opened Wrappers
  import opened Tokens
  import opened ScopedMaps
  import opened LexerSpec
  import opened Streams
  import opened DriverSpec
  import Input

  class UnexpandedStream {
    /** The input module, with the catcode map its lexer reads. */
    const input: Input.InputModule
    /** The primitives, by control-sequence name. */
    const primitives: ScopedMap<string, seq<Token>>
    /** What each stacked stream has still to yield, bottom of the stack first; the last is read first. */
    var stack: seq<seq<Token>>

    ghost predicate Valid()
      reads input.catCodeMap, primitives
    {
      input.catCodeMap.Valid() && primitives.Valid()
    }

    ghost function State(): UState
      reads this, input, input.Repr()
    {
      UState(stack, input.State())
    }

    constructor(input: Input.InputModule, primitives: ScopedMap<string, seq<Token>>)
      requires input.catCodeMap.Valid() && primitives.Valid()
      ensures this.input == input && this.primitives == primitives
      ensures Valid()
      ensures State() == UState([], input.State())
    {
      this.input := input;
      this.primitives := primitives;
      stack := [];
    }

    /** Pops exhausted streams off the top of the stack. */
    method PopExhaustedStreams()
      modifies this
      ensures stack == PopExhausted(old(stack))
    {
      while stack != []
        invariant PopExhausted(stack) == PopExhausted(old(stack))
        decreases |stack|
      {
        if First(stack[|stack| - 1]).Some? {
          return;
        }
        stack := stack[..|stack| - 1];
      }
    }

    /** Pops exhausted streams; when none is left, prepares the input module. */
    method PrepareImutPeek() returns (r: Result<(), LexerError>)
      requires Valid()
      modifies this, input.Repr()
      ensures Valid() && input.lexer == old(input.lexer)
      ensures unchanged(input.catCodeMap, primitives)
      ensures (r, State()) == Prepare(old(State()), input.catCodeMap.Current())
    {
      PopExhaustedStreams();
      if stack == [] {
        r := input.PrepareImutPeek();
      } else {
        r := Ok(());
      }
    }

    /** The next token of the top stream, or the input module's cached token. */
    function ImutPeek(): (r: Option<Token>)
      reads this, input, input.Repr()
      ensures r == DriverSpec.ImutPeek(UState(stack, input.State()))
    {
      if stack == [] then input.ImutPeek() else First(stack[|stack| - 1])
    }

    /** Prepares, then takes the next token from the top stream or from the input module. */
    method Next() returns (r: Result<Option<Token>, LexerError>)
      requires Valid()
      modifies this, input.Repr()
      ensures Valid() && input.lexer == old(input.lexer)
      ensures unchanged(input.catCodeMap, primitives)
      ensures (r, State()) == DriverSpec.Next(old(State()), input.catCodeMap.Current())
    {
      ghost var u, cm := State(), input.catCodeMap.Current();
      var prepared := PrepareImutPeek();
      if prepared.Err? {
        return Err(prepared.error);
      }
      assert DriverSpec.Next(u, cm) == NextPrepared(State(), cm);
      if stack == [] {
        r := input.Next();
      } else {
        var top := stack[|stack| - 1];
        r := Ok(First(top));
        stack := stack[..|stack| - 1] + [Rest(top)];
      }
    }

    /** The default `consume`: `Next`, with the token dropped. */
    method Consume() returns (r: Result<(), LexerError>)
      requires Valid()
      modifies this, input.Repr()
      ensures Valid() && input.lexer == old(input.lexer)
      ensures unchanged(input.catCodeMap, primitives)
      ensures var (t, u) := DriverSpec.Next(old(State()), input.catCodeMap.Current());
        State() == u && (r.Ok? <==> t.Ok?) && (r.Err? ==> r.error == t.error)
    {
      var t := Next();
      r := if t.Err? then Err(t.error) else Ok(());
    }
  }

  class ExpandedStream {
    const unexpanded: UnexpandedStream

    constructor(unexpanded: UnexpandedStream)
      ensures this.unexpanded == unexpanded
    {
      this.unexpanded := unexpanded;
    }

    /** The output of the primitive the next token is bound to, if it is a bound control sequence. */
    function PeekCommand(): (c: Option<seq<Token>>)
      reads this, unexpanded, unexpanded.input, unexpanded.input.Repr(), unexpanded.primitives
      requires unexpanded.primitives.Valid()
      ensures c == Command(DriverSpec.ImutPeek(UState(unexpanded.stack, unexpanded.input.State())),
                           unexpanded.primitives.Current())
    {
      match unexpanded.ImutPeek()
      case None => None
      case Some(Character(_, _)) => None
      case Some(ControlSequence(_, name)) => unexpanded.primitives.Get(name)
    }

    /**
     * Prepares and looks at the next token; if it is a control sequence bound to a primitive,
     * consumes it and pushes the primitive's output. Says whether it expanded.
     */
    method ExpandNext() returns (r: Result<bool, LexerError>)
      requires unexpanded.Valid()
      modifies unexpanded, unexpanded.input.Repr()
      ensures unexpanded.Valid() && unexpanded.input.lexer == old(unexpanded.input.lexer)
      ensures unchanged(unexpanded.input.catCodeMap, unexpanded.primitives)
      ensures (r, unexpanded.State()) ==
                DriverSpec.ExpandNext(old(unexpanded.State()), unexpanded.primitives.Current(),
                                      unexpanded.input.catCodeMap.Current())
    {
      var prepared := unexpanded.PrepareImutPeek();
      if prepared.Err? {
        return Err(prepared.error);
      }
      var command := PeekCommand();
      if command.None? {
        return Ok(false);
      }
      var consumed := unexpanded.Consume();
      match consumed
      case Err(e) =>
        return Err(e);
      case Ok(_) =>
        unexpanded.stack := unexpanded.stack + [command.value];
        return Ok(true);
    }

    /** Expands while the next token is expandable, at most `fuel` times. */
    method ExpandAll(fuel: nat) returns (r: Result<(), DriverError>)
      requires unexpanded.Valid()
      modifies unexpanded, unexpanded.input.Repr()
      ensures unexpanded.Valid() && unexpanded.input.lexer == old(unexpanded.input.lexer)
      ensures unchanged(unexpanded.input.catCodeMap, unexpanded.primitives)
      ensures (r, unexpanded.State()) ==
                Expand(old(unexpanded.State()), unexpanded.primitives.Current(),
                       unexpanded.input.catCodeMap.Current(), fuel)
    {
      ghost var prims, m := unexpanded.primitives.Current(), unexpanded.input.catCodeMap.Current();
      ghost var goal := Expand(unexpanded.State(), prims, m, fuel);
      var remaining := fuel;
      while true
        invariant unexpanded.Valid() && unexpanded.input.lexer == old(unexpanded.input.lexer)
        invariant unchanged(unexpanded.input.catCodeMap, unexpanded.primitives)
        invariant Expand(unexpanded.State(), prims, m, remaining) == goal
        decreases remaining
      {
        ghost var before := unexpanded.State();
        var expanded := ExpandNext();
        if expanded.Err? {
          return Err(Lexing(expanded.error));
        }
        if !expanded.value {
          return Ok(());
        }
        if remaining == 0 {
          return Err(OutOfFuel);
        }
        ghost var previous := remaining;
        remaining := remaining - 1;
        ExpandStep(before, prims, m, previous, remaining);
      }
    }

    /** Expands, then takes the next token of the unexpanded stream. */
    method Next(fuel: nat) returns (r: Result<Option<Token>, DriverError>)
      requires unexpanded.Valid()
      modifies unexpanded, unexpanded.input.Repr()
      ensures unexpanded.Valid()
      ensures (r, unexpanded.State()) ==
                ExpandedNext(old(unexpanded.State()), unexpanded.primitives.Current(),
                             unexpanded.input.catCodeMap.Current(), fuel)
    {
      var expanded := ExpandAll(fuel);
      if expanded.Err? {
        return Err(expanded.error);
      }
      var t := unexpanded.Next();
      r := if t.Err? then Err(Lexing(t.error)) else Ok(t.value);
    }

    /** Expands, then prepares the unexpanded stream for `ImutPeek`. */
    method PrepareImutPeek(fuel: nat) returns (r: Result<(), DriverError>)
      requires unexpanded.Valid()
      modifies unexpanded, unexpanded.input.Repr()
      ensures unexpanded.Valid()
      ensures (r, unexpanded.State()) ==
                ExpandedPrepare(old(unexpanded.State()), unexpanded.primitives.Current(),
                                unexpanded.input.catCodeMap.Current(), fuel)
    {
      var expanded := ExpandAll(fuel);
      if expanded.Err? {
        return Err(expanded.error);
      }
      var prepared := unexpanded.PrepareImutPeek();
      r := if prepared.Err? then Err(Lexing(prepared.error)) else Ok(());
    }

    /** The unexpanded stream's `ImutPeek`. */
    function ImutPeek(): (r: Option<Token>)
      reads this, unexpanded, unexpanded.input, unexpanded.input.Repr()
      ensures r == DriverSpec.ImutPeek(UState(unexpanded.stack, unexpanded.input.State()))
    {
      unexpanded.ImutPeek()
    }
  }
}
