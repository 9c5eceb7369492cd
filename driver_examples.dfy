/**
 * The execution driver at work on two primitives: `texide`, which expands to the word Texide as
 * six letters, and a primitive that expands to itself, on which expansion never stops and the
 * bound on expansions is what ends it.
 */
module DriverExamples {
  import opened Wrappers
  import opened Tokens
  import opened LexerSpec
  import opened Streams
  import opened DriverSpec
  import Input

  /** The output of the `texide` primitive. */
  function TexideOutput(): (r: seq<Token>)
    ensures |r| == 6
    ensures forall i | 0 <= i < 6 :: r[i] == NewLetter("Texide"[i])
  {
    [NewLetter('T'), NewLetter('e'), NewLetter('x'), NewLetter('i'), NewLetter('d'), NewLetter('e')]
  }

  /** `\texide`, as the input module has it cached. */
  function TexideCall(): Input.InputState {
    Input.InputState(Some(ControlSequence('\\', "texide")), None)
  }

  /**
   * With `\texide` next in the input, the expanded stream consumes it, pushes the primitive's
   * output and hands out its first letter; the other five stay on the stack.
   */
  lemma TexideExpandsToItsFirstLetter(m: CatCodeMap)
    ensures ExpandedNext(UState([], TexideCall()), map["texide" := TexideOutput()], m, 1)
              == (Ok(Some(NewLetter('T'))), UState([TexideOutput()[1..]], Input.InputState(None, None)))
  {
    var prims := map["texide" := TexideOutput()];
    var u0, u1 := UState([], TexideCall()), UState([TexideOutput()], Input.InputState(None, None));
    assert Prepare(u0, m) == (Ok(()), u0);
    assert Command(ImutPeek(u0), prims) == Some(TexideOutput());
    assert Next(u0, m) == (Ok(Some(ControlSequence('\\', "texide"))), UState([], Input.InputState(None, None)));
    assert [] + [TexideOutput()] == [TexideOutput()];
    assert ExpandNext(u0, prims, m) == (Ok(true), u1);
    assert ExpandNext(u1, prims, m) == (Ok(false), u1);
    assert Expand(u0, prims, m, 1) == (Ok(()), u1);
    assert u1.stack[..0] + [Rest(TexideOutput())] == [TexideOutput()[1..]];
    assert TakeTop(u1.stack) == (Some(NewLetter('T')), [TexideOutput()[1..]]);
  }

  /** One expansion is one unit of fuel: with none, even `\texide` runs out. */
  lemma TexideNeedsFuel(m: CatCodeMap)
    ensures ExpandedNext(UState([], TexideCall()), map["texide" := TexideOutput()], m, 0).0 == Err(OutOfFuel)
  {
    var prims := map["texide" := TexideOutput()];
    assert ExpandNext(UState([], TexideCall()), prims, m).0 == Ok(true);
  }

  /** A control sequence `\loop` ... */
  function Loop(): Token {
    ControlSequence('\\', "loop")
  }

  /** ... bound to a primitive whose output is `\loop` itself. */
  function LoopPrimitives(): map<string, seq<Token>> {
    map["loop" := [Loop()]]
  }

  /**
   * While `\loop` is next, each expansion pushes another `\loop`: expansion only stops because
   * the fuel runs out, however much there is.
   */
  lemma {:induction false} SelfExpansionRunsOutOfFuel(u: UState, m: CatCodeMap, fuel: nat)
    requires u.stack != [] && u.stack[|u.stack| - 1] == [Loop()]
    ensures Expand(u, LoopPrimitives(), m, fuel).0 == Err(OutOfFuel)
    decreases fuel
  {
    var n := |u.stack|;
    var u1 := UState(u.stack[..n - 1] + [[]] + [[Loop()]], u.input);
    assert PopExhausted(u.stack) == u.stack;
    assert ExpandNext(u, LoopPrimitives(), m) == (Ok(true), u1);
    if fuel > 0 {
      SelfExpansionRunsOutOfFuel(u1, m, fuel - 1);
    }
  }
}
