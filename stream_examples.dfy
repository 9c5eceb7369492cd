/** The token streams' documented behaviour, each on a fresh stream and stated as what the calls return. */
module StreamExamples {
  import opened Wrappers
  import opened Tokens
  import opened Streams

  /** A vector stream yields its tokens in order, then reports that it is exhausted. */
  method VecStreamYieldsInOrder() returns (first: Option<Token>, second: Option<Token>, third: Option<Token>, fourth: Option<Token>)
    ensures first == Some(NewLetter('a')) && second == Some(NewLetter('b')) && third == Some(NewLetter('c'))
    ensures fourth == None
  {
    var stream := new VecStream([NewLetter('a'), NewLetter('b'), NewLetter('c')]);
    first := stream.Next();
    second := stream.Next();
    third := stream.Next();
    fourth := stream.Next();
  }

  /** Peeking twice gives the same token; `Next` then takes it and the peek moves on. */
  method VecStreamPeekThenNext() returns (peeked: Option<Token>, again: Option<Token>, taken: Option<Token>, after: Option<Token>)
    ensures peeked == Some(NewLetter('a')) && again == peeked && taken == peeked
    ensures after == Some(NewLetter('b'))
  {
    var stream := new VecStream([NewLetter('a'), NewLetter('b'), NewLetter('c')]);
    peeked := stream.Peek();
    again := stream.Peek();
    taken := stream.Next();
    after := stream.Peek();
  }

  /** The empty stream has nothing to peek at. */
  method EmptyStreamPeek() returns (r: Option<Token>)
    ensures r == None
  {
    var stream := new EmptyStream();
    r := stream.Peek();
  }

  /** A singleton stream shows and yields its token once, and nothing after that. */
  method SingletonStreamYieldsOnce(t: Token) returns (peeked: Option<Token>, taken: Option<Token>, after: Option<Token>, last: Option<Token>)
    ensures peeked == Some(t) && taken == Some(t)
    ensures after == None && last == None
  {
    var stream := new SingletonStream(t);
    peeked := stream.ImutPeek();
    taken := stream.Next();
    after := stream.ImutPeek();
    last := stream.Next();
  }

  /** Draining a vector stream into a new one keeps the tokens and their order. */
  method TryFromKeepsOrder() returns (first: Option<Token>, second: Option<Token>, third: Option<Token>)
    ensures first == Some(NewLetter('x')) && second == Some(NewLetter('y')) && third == None
  {
    var source := new VecStream([NewLetter('x'), NewLetter('y')]);
    var copy := TryFrom(source);
    first := copy.Next();
    second := copy.Next();
    third := copy.Next();
  }
}
