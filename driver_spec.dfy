/**
 * What the execution driver's streams compute, on values.
 *
 * The unexpanded stream is a stack of token streams on top of the input module: tokens come
 * from the topmost stream that still has one, and from the input module once every stacked
 * stream is exhausted. Expansion looks at the next token; when it is a control sequence bound
 * to a primitive it is consumed and the primitive's output is pushed on top of the stack. The
 * expanded stream expands until the next token is no longer expandable, then hands it out.
 *
 * Primitives are modelled by their output: a map from control-sequence names to the token
 * lists they expand to.
 */
module DriverSpec {
  import opened Wrappers
  import opened Tokens
  import opened LexerSpec
  import opened Streams
  import Input

  /** The unexpanded stream as a value: the stacked streams' contents, bottom first, and the input module. */
  datatype UState = UState(stack: seq<seq<Token>>, input: Input.InputState)

  /** Why the expanded stream gives up: a lexer error, or the bound on expansions reached. */
  datatype DriverError = Lexing(error: LexerError) | OutOfFuel

  /** The tokens the stacked streams still hold, topmost stream first. */
  function Pending(stack: seq<seq<Token>>): (r: seq<Token>)
    ensures stack != [] && stack[|stack| - 1] != [] ==> r != [] && r[0] == stack[|stack| - 1][0]
  {
    if stack == [] then [] else stack[|stack| - 1] + Pending(stack[..|stack| - 1])
  }

  /**
   * The stack once exhausted streams have been popped off the top: a prefix of the stack whose
   * top, if any, still has a token.
   */
  function PopExhausted(stack: seq<seq<Token>>): (r: seq<seq<Token>>)
    ensures |r| <= |stack| && r == stack[..|r|]
    ensures r == [] || r[|r| - 1] != []
  {
    if stack == [] || stack[|stack| - 1] != [] then stack
    else
      var below := stack[..|stack| - 1];
      var r := PopExhausted(below);
      assert below[..|r|] == stack[..|r|];
      r
  }

  /** Only exhausted streams are popped, so nothing pending is lost; the stack empties only when nothing is pending. */
  lemma {:induction false} PopExhaustedKeepsPending(stack: seq<seq<Token>>)
    ensures Pending(PopExhausted(stack)) == Pending(stack)
    ensures PopExhausted(stack) == [] <==> Pending(stack) == []
  {
    if stack != [] && stack[|stack| - 1] == [] {
      var below := stack[..|stack| - 1];
      PopExhaustedKeepsPending(below);
      assert Pending(stack) == Pending(below);
    }
  }

  /** `prepare_imut_peek`: pop exhausted streams; with none left, prepare the input module. */
  function Prepare(u: UState, m: CatCodeMap): (o: (Result<(), LexerError>, UState))
    ensures o.1.stack == [] || o.1.stack[|o.1.stack| - 1] != []
    ensures o.1.stack != [] ==> o.0 == Ok(()) && o.1.input == u.input
    ensures |o.1.stack| <= |u.stack| && o.1.stack == u.stack[..|o.1.stack|]
    ensures o.1.stack == [] ==> (o.0, o.1.input) == Input.Prepare(u.input, m)
  {
    var stack := PopExhausted(u.stack);
    if stack == [] then
      var (r, input) := Input.Prepare(u.input, m);
      (r, UState([], input))
    else
      (Ok(()), UState(stack, u.input))
  }

  /** `imut_peek`: the next token of the top stream, or the input module's cached token. */
  function ImutPeek(u: UState): (r: Option<Token>)
    ensures u.stack == [] ==> r == u.input.cached
    ensures u.stack != [] ==> (r.Some? <==> u.stack[|u.stack| - 1] != [])
  {
    if u.stack == [] then u.input.cached else First(u.stack[|u.stack| - 1])
  }

  /** `next`: prepare, then take a token. */
  function Next(u: UState, m: CatCodeMap): (o: (Result<Option<Token>, LexerError>, UState))
    ensures Prepare(u, m).0.Err? ==> o == (Err(Prepare(u, m).0.error), Prepare(u, m).1)
    ensures |o.1.stack| <= |u.stack|
    ensures Prepare(u, m).0.Ok? ==> o.0 == Ok(ImutPeek(Prepare(u, m).1))
  {
    var (p, u1) := Prepare(u, m);
    if p.Err? then (Err(p.error), u1)
    else if u1.stack == [] then
      Input.PrepareIsIdempotent(u.input, m);
      NextPrepared(u1, m)
    else NextPrepared(u1, m)
  }

  /** The second half of `next`: take a token from the top stream, or from the input module. */
  function NextPrepared(u: UState, m: CatCodeMap): (o: (Result<Option<Token>, LexerError>, UState))
  {
    if u.stack == [] then
      var (r, input) := Input.Take(u.input, m);
      (r, UState([], input))
    else
      var (t, stack) := TakeTop(u.stack);
      (Ok(t), UState(stack, u.input))
  }

  /** Taking the next token from the top stream of the stack. */
  function TakeTop(stack: seq<seq<Token>>): (o: (Option<Token>, seq<seq<Token>>))
    requires stack != []
  {
    var n := |stack|;
    (First(stack[n - 1]), stack[..n - 1] + [Rest(stack[n - 1])])
  }

  /** Pushing a stream puts its tokens in front of those already pending. */
  lemma {:induction false} PendingPush(stack: seq<seq<Token>>, top: seq<Token>)
    ensures Pending(stack + [top]) == top + Pending(stack)
  {
    var t := stack + [top];
    assert t[..|t| - 1] == stack;
  }

  /** When the top stream has a token, taking it takes the first pending token and leaves the rest pending. */
  lemma {:induction false} TakeTopTakesPending(stack: seq<seq<Token>>)
    requires stack != [] && stack[|stack| - 1] != []
    ensures TakeTop(stack).0 == Some(Pending(stack)[0])
    ensures Pending(TakeTop(stack).1) == Pending(stack)[1..]
  {
    var n := |stack|;
    var top, below := stack[n - 1], stack[..n - 1];
    assert stack == below + [top];
    PendingPush(below, top);
    PendingPush(below, top[1..]);
    assert (top + Pending(below))[1..] == top[1..] + Pending(below);
  }

  /** Preparing leaves the pending tokens as they are, and pops every exhausted stream. */
  lemma {:induction false} PrepareKeepsPending(u: UState, m: CatCodeMap)
    ensures var u1 := Prepare(u, m).1;
      && Pending(u1.stack) == Pending(u.stack)
      && (u1.stack == [] || u1.stack[|u1.stack| - 1] != [])
      && (Pending(u.stack) != [] ==> Prepare(u, m) == (Ok(()), UState(PopExhausted(u.stack), u.input)))
      && (Pending(u.stack) == [] ==> u1.stack == [] && (Prepare(u, m).0, u1.input) == Input.Prepare(u.input, m))
  {
    PopExhaustedKeepsPending(u.stack);
  }

  /** Preparing twice is preparing once. */
  lemma {:induction false} PrepareIsIdempotent(u: UState, m: CatCodeMap)
    requires Prepare(u, m).0.Ok?
    ensures Prepare(Prepare(u, m).1, m) == (Ok(()), Prepare(u, m).1)
  {
    var u1 := Prepare(u, m).1;
    assert PopExhausted(u1.stack) == u1.stack;
    if u1.stack == [] {
      Input.PrepareIsIdempotent(u.input, m);
    }
  }

  /** While a stacked stream holds a token, `next` takes the first pending token and leaves the input alone. */
  lemma {:induction false} NextTakesPending(u: UState, m: CatCodeMap)
    requires Pending(u.stack) != []
    ensures Next(u, m).0 == Ok(Some(Pending(u.stack)[0]))
    ensures Pending(Next(u, m).1.stack) == Pending(u.stack)[1..]
    ensures Next(u, m).1.input == u.input
  {
    PopExhaustedKeepsPending(u.stack);
    var s := PopExhausted(u.stack);
    assert Prepare(u, m) == (Ok(()), UState(s, u.input));
    TakeTopTakesPending(s);
  }

  /** With nothing pending on the stack, `next` is the input module's `next`. */
  lemma {:induction false} NextDelegatesToInput(u: UState, m: CatCodeMap)
    requires Pending(u.stack) == []
    ensures Next(u, m) == (Input.Take(u.input, m).0, UState([], Input.Take(u.input, m).1))
  {
    PopExhaustedKeepsPending(u.stack);
    var p := Input.Prepare(u.input, m);
    if p.0.Ok? {
      Input.PrepareIsIdempotent(u.input, m);
    }
  }

  /** After a successful prepare, `imut_peek` shows the token `next` returns, and `next` is unaffected. */
  lemma {:induction false} PeekAgreesWithNext(u: UState, m: CatCodeMap)
    requires Prepare(u, m).0.Ok?
    ensures Next(Prepare(u, m).1, m) == Next(u, m)
    ensures Next(u, m).0 == Ok(ImutPeek(Prepare(u, m).1))
  {
    PrepareIsIdempotent(u, m);
    var u1 := Prepare(u, m).1;
    if u1.stack == [] {
      Input.PrepareIsIdempotent(u.input, m);
    }
  }

  /** The expansion a token calls for: the output of the primitive its name is bound to, if any. */
  function Command(t: Option<Token>, prims: map<string, seq<Token>>): (c: Option<seq<Token>>)
    ensures c.Some? <==> t.Some? && t.value.ControlSequence? && t.value.name in prims
    ensures c.Some? ==> c.value == prims[t.value.name]
  {
    match t
    case None => None
    case Some(Character(_, _)) => None
    case Some(ControlSequence(_, name)) => Lookup(prims, name)
  }

  /**
   * `expand_next`: prepare and look at the next token; if it is bound to a primitive, consume
   * it and push the primitive's output. The answer says whether an expansion took place.
   */
  function ExpandNext(u: UState, prims: map<string, seq<Token>>, m: CatCodeMap): (o: (Result<bool, LexerError>, UState))
    ensures o.0 == Ok(false) ==> o.1 == Prepare(u, m).1 && Command(ImutPeek(o.1), prims) == None
    ensures o.0 == Ok(true) ==> Prepare(u, m).0.Ok? && Command(ImutPeek(Prepare(u, m).1), prims).Some?
  {
    var (p, u1) := Prepare(u, m);
    if p.Err? then (Err(p.error), u1) else ExpandPrepared(u1, prims, m)
  }

  /** The second half of `expand_next`, once the stream has been prepared. */
  function ExpandPrepared(u: UState, prims: map<string, seq<Token>>, m: CatCodeMap): (o: (Result<bool, LexerError>, UState))
  {
    match Command(ImutPeek(u), prims)
    case None => (Ok(false), u)
    case Some(output) =>
      var (c, u1) := Next(u, m);
      if c.Err? then (Err(c.error), u1)
      else (Ok(true), UState(u1.stack + [output], u1.input))
  }

  /** No expansion: nothing is consumed (the stream is only prepared), and the next token is not bound. */
  lemma {:induction false} NoExpansionConsumesNothing(u: UState, prims: map<string, seq<Token>>, m: CatCodeMap)
    requires ExpandNext(u, prims, m).0 == Ok(false)
    ensures ExpandNext(u, prims, m).1 == Prepare(u, m).1
    ensures Pending(ExpandNext(u, prims, m).1.stack) == Pending(u.stack)
    ensures Command(ImutPeek(Prepare(u, m).1), prims) == None
    ensures Next(ExpandNext(u, prims, m).1, m) == Next(u, m)
  {
    PrepareKeepsPending(u, m);
    PeekAgreesWithNext(u, m);
  }

  /**
   * An expansion consumes exactly the bound control sequence `next` would have returned and
   * puts the primitive's output in front of what was pending.
   */
  lemma {:induction false} ExpansionReplacesToken(u: UState, prims: map<string, seq<Token>>, m: CatCodeMap)
    requires ExpandNext(u, prims, m).0 == Ok(true)
    ensures Next(u, m).0.Ok? && Next(u, m).0.value.Some?
    ensures var t := Next(u, m).0.value.value;
      && t.ControlSequence? && t.name in prims
      && ExpandNext(u, prims, m).1 == UState(Next(u, m).1.stack + [prims[t.name]], Next(u, m).1.input)
      && Pending(ExpandNext(u, prims, m).1.stack) == prims[t.name] + Pending(Next(u, m).1.stack)
  {
    var u1 := Prepare(u, m).1;
    PeekAgreesWithNext(u, m);
    var c := Command(ImutPeek(u1), prims);
    assert ExpandNext(u, prims, m) == ExpandPrepared(u1, prims, m);
    var n := Next(u1, m);
    assert ExpandPrepared(u1, prims, m) == (Ok(true), UState(n.1.stack + [c.value], n.1.input));
    PendingPush(n.1.stack, c.value);
  }

  /**
   * Expanding until the next token is not expandable, with at most `fuel` expansions: the
   * primitives' outputs are fixed, but one may contain its own name, so the loop need not end.
   */
  function Expand(u: UState, prims: map<string, seq<Token>>, m: CatCodeMap, fuel: nat): (o: (Result<(), DriverError>, UState))
    ensures o.0.Ok? ==> Command(ImutPeek(o.1), prims) == None
    decreases fuel, 1
  {
    ExpandFrom(ExpandNext(u, prims, m), prims, m, fuel)
  }

  /** The rest of the loop once `expand_next` has answered `x`: stop, give up, or expand again. */
  function ExpandFrom(x: (Result<bool, LexerError>, UState), prims: map<string, seq<Token>>, m: CatCodeMap, fuel: nat)
    : (o: (Result<(), DriverError>, UState))
    ensures x.0.Err? ==> o == (Err(Lexing(x.0.error)), x.1)
    ensures x.0 == Ok(false) ==> o == (Ok(()), x.1)
    ensures o.0.Ok? && x.0 == Ok(true) ==> Command(ImutPeek(o.1), prims) == None
    decreases fuel, 0
  {
    if x.0.Err? then (Err(Lexing(x.0.error)), x.1)
    else if !x.0.value then (Ok(()), x.1)
    else if fuel == 0 then (Err(OutOfFuel), x.1)
    else Expand(x.1, prims, m, fuel - 1)
  }

  /** One expansion, with fuel to spare, leaves the rest of the expansion to do. */
  lemma ExpandStep(u: UState, prims: map<string, seq<Token>>, m: CatCodeMap, fuel: nat, rest: nat)
    requires fuel == rest + 1 && ExpandNext(u, prims, m).0 == Ok(true)
    ensures Expand(u, prims, m, fuel) == Expand(ExpandNext(u, prims, m).1, prims, m, rest)
  {
    var x := ExpandNext(u, prims, m);
    assert Expand(u, prims, m, fuel) == ExpandFrom(x, prims, m, fuel);
  }

  /** Once expansion has stopped, there is nothing left to expand. */
  lemma {:induction false} ExpandReachesFixpoint(u: UState, prims: map<string, seq<Token>>, m: CatCodeMap, fuel: nat)
    requires Expand(u, prims, m, fuel).0.Ok?
    ensures var u1 := Expand(u, prims, m, fuel).1;
      ExpandNext(u1, prims, m) == (Ok(false), u1)
    decreases fuel
  {
    var x := ExpandNext(u, prims, m);
    if x.0 == Ok(false) {
      NoExpansionConsumesNothing(u, prims, m);
      PrepareIsIdempotent(u, m);
    } else {
      var f := fuel - 1;
      ExpandStep(u, prims, m, fuel, f);
      ExpandReachesFixpoint(x.1, prims, m, f);
    }
  }

  /** When expansion stops within `fuel` expansions, more fuel changes nothing. */
  lemma {:induction false} MoreFuelChangesNothing(u: UState, prims: map<string, seq<Token>>, m: CatCodeMap, fuel: nat, more: nat)
    requires Expand(u, prims, m, fuel).0 != Err(OutOfFuel) && fuel <= more
    ensures Expand(u, prims, m, more) == Expand(u, prims, m, fuel)
    decreases fuel
  {
    var x := ExpandNext(u, prims, m);
    if x.0 == Ok(true) {
      assert fuel != 0;
      var f, g := fuel - 1, more - 1;
      ExpandStep(u, prims, m, fuel, f);
      ExpandStep(u, prims, m, more, g);
      MoreFuelChangesNothing(x.1, prims, m, f, g);
    }
  }

  /** The expanded stream's `next`: expand, then take the next unexpanded token. */
  function ExpandedNext(u: UState, prims: map<string, seq<Token>>, m: CatCodeMap, fuel: nat)
    : (o: (Result<Option<Token>, DriverError>, UState))
    ensures o.0 == Err(OutOfFuel) <==> Expand(u, prims, m, fuel).0 == Err(OutOfFuel)
    ensures o.0.Ok? ==> Expand(u, prims, m, fuel).0.Ok? && Next(Expand(u, prims, m, fuel).1, m).0 == Ok(o.0.value)
    ensures o.0.Ok? ==> o.1 == Next(Expand(u, prims, m, fuel).1, m).1
    ensures Expand(u, prims, m, fuel).0.Ok? && Next(Expand(u, prims, m, fuel).1, m).0.Err? ==>
              o.0 == Err(Lexing(Next(Expand(u, prims, m, fuel).1, m).0.error))
  {
    var (x, u1) := Expand(u, prims, m, fuel);
    if x.Err? then (Err(x.error), u1)
    else
      var (r, u2) := Next(u1, m);
      (if r.Err? then Err(Lexing(r.error)) else Ok(r.value), u2)
  }

  /** The expanded stream's `prepare_imut_peek`: expand, then prepare. */
  function ExpandedPrepare(u: UState, prims: map<string, seq<Token>>, m: CatCodeMap, fuel: nat)
    : (o: (Result<(), DriverError>, UState))
    ensures o.0 == Err(OutOfFuel) <==> Expand(u, prims, m, fuel).0 == Err(OutOfFuel)
    ensures o.0.Ok? ==> Expand(u, prims, m, fuel).0.Ok? && o.1 == Prepare(Expand(u, prims, m, fuel).1, m).1
  {
    var (x, u1) := Expand(u, prims, m, fuel);
    if x.Err? then (Err(x.error), u1)
    else
      var (r, u2) := Prepare(u1, m);
      (if r.Err? then Err(Lexing(r.error)) else Ok(()), u2)
  }

  /** The expanded stream never hands out a control sequence bound to a primitive. */
  lemma {:induction false} ExpandedNextIsNeverBound(u: UState, prims: map<string, seq<Token>>, m: CatCodeMap, fuel: nat)
    requires ExpandedNext(u, prims, m, fuel).0.Ok?
    ensures Command(ExpandedNext(u, prims, m, fuel).0.value, prims) == None
  {
    var u1 := Expand(u, prims, m, fuel).1;
    ExpandReachesFixpoint(u, prims, m, fuel);
    NoExpansionConsumesNothing(u1, prims, m);
    PeekAgreesWithNext(u1, m);
  }

  /**
   * The expanded stream's peek: once `prepare_imut_peek` has succeeded, `imut_peek` shows the
   * token `next` returns, and `next` returns it whatever fuel it is then given.
   */
  lemma {:induction false} ExpandedPeekAgreesWithNext(u: UState, prims: map<string, seq<Token>>, m: CatCodeMap, fuel: nat, fuel2: nat)
    requires ExpandedPrepare(u, prims, m, fuel).0.Ok?
    ensures var u1 := ExpandedPrepare(u, prims, m, fuel).1;
      && ExpandedNext(u1, prims, m, fuel2) == ExpandedNext(u, prims, m, fuel)
      && ExpandedNext(u, prims, m, fuel).0 == Ok(ImutPeek(u1))
  {
    var v := Expand(u, prims, m, fuel).1;
    ExpandReachesFixpoint(u, prims, m, fuel);
    PeekAgreesWithNext(v, m);
    assert Prepare(v, m).1 == v;
  }
}
