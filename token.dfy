/** TeX tokens: a character with its category code, or a control sequence. */
module Tokens {
  import opened CatCodes

  /** The value of a token; where the token came from in the input is not modelled. */
  datatype Token =
    | Character(ch: char, code: CatCode)
    | ControlSequence(escape: char, name: string)

  /** A letter token, as the texide primitive builds them. */
  function NewLetter(c: char): (t: Token)
    ensures t.Character? && t.ch == c && t.code == Letter
  {
    Character(c, Letter)
  }
}
