/**
 * Token streams: a stream yields tokens one at a time and can be peeked at without consuming.
 *
 * Each stream class below has a ghost `Contents()`, the tokens it has still to yield, and its
 * operations are stated against it: `Next` yields `First(Contents())` and leaves
 * `Rest(Contents())`, `Peek` and `ImutPeek` return what `Next` would yield and change nothing,
 * and `Consume` has the effect of `Next`. These streams never fail, so their results carry no
 * error.
 */
module Streams {
  import opened Wrappers
  import opened Tokens

  /** The token a stream whose remaining tokens are `ts` yields next. */
  function First(ts: seq<Token>): (r: Option<Token>)
    ensures r == None <==> ts == []
    ensures r.Some? ==> r.value == ts[0]
  {
    if ts == [] then None else Some(ts[0])
  }

  /** The tokens left once the next one has been taken; nothing happens at the end. */
  function Rest(ts: seq<Token>): (r: seq<Token>)
    ensures ts == [] ==> r == []
    ensures ts != [] ==> [ts[0]] + r == ts
  {
    if ts == [] then [] else ts[1..]
  }

  /** `s` backwards. */
  function Reverse<T>(s: seq<T>): (r: seq<T>)
    ensures |r| == |s|
    ensures forall i | 0 <= i < |s| :: r[i] == s[|s| - 1 - i]
  {
    if s == [] then [] else Reverse(s[1..]) + [s[0]]
  }

  /** Reversing twice gives back the original order. */
  lemma {:induction false} ReverseReverse<T>(s: seq<T>)
    ensures Reverse(Reverse(s)) == s
  {
    var r := Reverse(Reverse(s));
    assert |r| == |s|;
    forall i | 0 <= i < |s|
      ensures r[i] == s[i]
    {
      assert r[i] == Reverse(s)[|s| - 1 - i];
    }
  }

  /** Dropping the last element of `v` drops the first element of its reverse. */
  lemma {:induction false} ReverseDropLast<T>(v: seq<T>)
    requires v != []
    ensures Reverse(v)[0] == v[|v| - 1]
    ensures Reverse(v[..|v| - 1]) == Reverse(v)[1..]
  {
    var a, b := Reverse(v[..|v| - 1]), Reverse(v)[1..];
    assert |a| == |b|;
    forall i | 0 <= i < |a|
      ensures a[i] == b[i]
    {
      assert b[i] == Reverse(v)[i + 1];
    }
  }

  /** A stream with no tokens. */
  class EmptyStream {
    ghost function Contents(): seq<Token> {
      []
    }

    constructor() {
    }

    method Next() returns (r: Option<Token>)
      ensures r == First(Contents())
    {
      r := None;
    }

    function ImutPeek(): (r: Option<Token>)
      ensures r == First(Contents())
    {
      None
    }

    /** The default `peek`: prepare (nothing to do here), then peek immutably. */
    method Peek() returns (r: Option<Token>)
      ensures r == First(Contents())
    {
      r := ImutPeek();
    }
  }

  /** A stream of exactly one token, which the first `Next` takes out. */
  class SingletonStream {
    var t: Option<Token>

    ghost function Contents(): seq<Token>
      reads this
    {
      if t.None? then [] else [t.value]
    }

    constructor(t: Token)
      ensures Contents() == [t]
    {
      this.t := Some(t);
    }

    method Next() returns (r: Option<Token>)
      modifies this
      ensures r == First(old(Contents()))
      ensures Contents() == Rest(old(Contents()))
    {
      r := t;
      t := None;
    }

    function ImutPeek(): (r: Option<Token>)
      reads this
      ensures r == First(Contents())
    {
      t
    }

    method Peek() returns (r: Option<Token>)
      ensures r == First(Contents())
    {
      r := ImutPeek();
    }

    method Consume()
      modifies this
      ensures Contents() == Rest(old(Contents()))
    {
      var _ := Next();
    }
  }

  /**
   * A stream over a list of tokens, yielded in the list's order. The list is kept reversed so
   * that taking the next token is a pop from the end.
   */
  class VecStream {
    var vec: seq<Token>

    ghost function Contents(): seq<Token>
      reads this
    {
      Reverse(vec)
    }

    constructor(v: seq<Token>)
      ensures Contents() == v
    {
      ReverseReverse(v);
      vec := Reverse(v);
    }

    method Next() returns (r: Option<Token>)
      modifies this
      ensures r == First(old(Contents()))
      ensures Contents() == Rest(old(Contents()))
    {
      if vec == [] {
        r := None;
      } else {
        ReverseDropLast(vec);
        r := Some(vec[|vec| - 1]);
        vec := vec[..|vec| - 1];
      }
    }

    function ImutPeek(): (r: Option<Token>)
      reads this
      ensures r == First(Contents())
    {
      if vec == [] then None else Some(vec[|vec| - 1])
    }

    method Peek() returns (r: Option<Token>)
      ensures r == First(Contents())
    {
      r := ImutPeek();
    }

    method Consume()
      modifies this
      ensures Contents() == Rest(old(Contents()))
    {
      var _ := Next();
    }
  }

  /**
   * Drains `source` into a new `VecStream` with the same tokens in the same order, leaving
   * `source` empty.
   */
  method TryFrom(source: VecStream) returns (v: VecStream)
    modifies source
    ensures fresh(v)
    ensures v.Contents() == old(source.Contents())
    ensures source.Contents() == []
  {
    ghost var all := source.Contents();
    var tokens := [];
    while true
      invariant tokens + source.Contents() == all
      decreases |source.Contents()|
    {
      var token := source.Next();
      if token.None? {
        break;
      }
      tokens := tokens + [token.value];
    }
    assert tokens == all;
    v := new VecStream(tokens);
  }
}
