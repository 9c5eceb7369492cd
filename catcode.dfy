/**
 * TeX category codes (chapter 7 of The TeXbook): the 11 codes the lexer can return,
 * the 16 raw codes, their integer encodings and the default character table.
 */
module CatCodes {
  import opened Wrappers
  import opened ScopedMaps

  /** An unsigned 8-bit integer, the Rust `u8` of the encodings. */
  type Byte = x: int | 0 <= x < 256

  /** The 11 category codes that the lexer can return. */
  datatype CatCode =
    | BeginGroup | EndGroup | MathShift | AlignmentTab | Parameter | Superscript
    | Subscript | Space | Letter | Other | Active

  /** All 16 TeX category codes: the regular ones plus those the lexer consumes itself. */
  datatype RawCatCode = Regular(code: CatCode) | Escape | EndOfLine | Ignored | Comment | Invalid

  /** The integers that encode a regular category code. */
  predicate IsCatCodeInt(n: int) {
    1 <= n <= 13 && n != 5 && n != 9
  }

  /** TeX's number for a regular category code. */
  function Int(c: CatCode): (r: Byte)
    ensures IsCatCodeInt(r)
  {
    match c
    case BeginGroup => 1
    case EndGroup => 2
    case MathShift => 3
    case AlignmentTab => 4
    case Parameter => 6
    case Superscript => 7
    case Subscript => 8
    case Space => 10
    case Letter => 11
    case Other => 12
    case Active => 13
  }

  /** Decodes a regular category code; fails exactly on the numbers `Int` never produces. */
  function FromInt(n: Byte): (r: Option<CatCode>)
    ensures r.Some? <==> IsCatCodeInt(n)
    ensures r.Some? ==> Int(r.value) == n
  {
    match n
    case 1 => Some(BeginGroup)
    case 2 => Some(EndGroup)
    case 3 => Some(MathShift)
    case 4 => Some(AlignmentTab)
    case 6 => Some(Parameter)
    case 7 => Some(Superscript)
    case 8 => Some(Subscript)
    case 10 => Some(Space)
    case 11 => Some(Letter)
    case 12 => Some(Other)
    case 13 => Some(Active)
    case _ => None
  }

  /** TeX's number for any category code. */
  function RawInt(r: RawCatCode): (n: Byte)
    ensures n <= 15
    ensures r.Regular? <==> IsCatCodeInt(n)
  {
    match r
    case Regular(c) => Int(c)
    case Escape => 0
    case EndOfLine => 5
    case Ignored => 9
    case Comment => 14
    case Invalid => 15
  }

  /** Decodes any category code; defined exactly on 0..15. */
  function RawFromInt(n: Byte): (r: Option<RawCatCode>)
    ensures r.Some? <==> n <= 15
    ensures r.Some? ==> RawInt(r.value) == n
  {
    match n
    case 0 => Some(Escape)
    case 5 => Some(EndOfLine)
    case 9 => Some(Ignored)
    case 14 => Some(Comment)
    case 15 => Some(Invalid)
    case _ =>
      match FromInt(n)
      case None => None
      case Some(c) => Some(Regular(c))
  }

  lemma CatCodeRoundTrip(c: CatCode)
    ensures FromInt(Int(c)) == Some(c)
  {
  }

  lemma RawCatCodeRoundTrip(r: RawCatCode)
    ensures RawFromInt(RawInt(r)) == Some(r)
  {
  }

  lemma IntInjective(a: CatCode, b: CatCode)
    ensures Int(a) == Int(b) ==> a == b
  {
    CatCodeRoundTrip(a);
    CatCodeRoundTrip(b);
  }

  lemma RawIntInjective(a: RawCatCode, b: RawCatCode)
    ensures RawInt(a) == RawInt(b) ==> a == b
  {
    RawCatCodeRoundTrip(a);
    RawCatCodeRoundTrip(b);
  }

  /** The category code of a character the map does not mention is Other. */
  function OrDefault(c: Option<RawCatCode>): (r: RawCatCode)
    ensures c.None? ==> r == Regular(Other)
    ensures c.Some? ==> r == c.value
  {
    match c
    case None => Regular(Other)
    case Some(code) => code
  }

  /** The 26 letters from `first` on, each with category code Letter. */
  function LetterPairs(first: char): (ps: seq<(char, RawCatCode)>)
    requires first as int + 26 <= 0xD800
    ensures |ps| == 26
    ensures forall i :: 0 <= i < 26 ==> ps[i] == ((first as int + i) as char, Regular(Letter))
  {
    seq(26, i requires 0 <= i < 26 => ((first as int + i) as char, Regular(Letter)))
  }

  /** The pairs `set_tex_defaults` inserts, in the order it inserts them. */
  function DefaultPairs(): (ps: seq<(char, RawCatCode)>)
    ensures |ps| == 64
  {
    [ ('\\', Escape),
      ('{', Regular(BeginGroup)),
      ('}', Regular(EndGroup)),
      ('$', Regular(MathShift)),
      ('&', Regular(AlignmentTab)),
      ('\n', EndOfLine),
      ('#', Regular(Parameter)),
      ('^', Regular(Superscript)),
      ('_', Regular(Subscript)),
      ('~', Regular(Active)),
      ('%', Comment),
      (' ', Regular(Space))
    ] + LetterPairs('A') + LetterPairs('a')
  }

  predicate IsAsciiLetter(c: char) {
    'A' <= c <= 'Z' || 'a' <= c <= 'z'
  }

  /** The default table as a function of the character: an independent statement of what
    * the pairs of `DefaultPairs` say. */
  function DefaultCatCode(c: char): (r: Option<RawCatCode>)
    ensures r == Some(Regular(Letter)) <==> IsAsciiLetter(c)
  {
    if c == '\\' then Some(Escape)
    else if c == '{' then Some(Regular(BeginGroup))
    else if c == '}' then Some(Regular(EndGroup))
    else if c == '$' then Some(Regular(MathShift))
    else if c == '&' then Some(Regular(AlignmentTab))
    else if c == '\n' then Some(EndOfLine)
    else if c == '#' then Some(Regular(Parameter))
    else if c == '^' then Some(Regular(Superscript))
    else if c == '_' then Some(Regular(Subscript))
    else if c == '~' then Some(Regular(Active))
    else if c == '%' then Some(Comment)
    else if c == ' ' then Some(Regular(Space))
    else if IsAsciiLetter(c) then Some(Regular(Letter))
    else None
  }

  /** Every pair inserted by the defaults agrees with `DefaultCatCode`, and every character
    * `DefaultCatCode` maps is inserted by some pair. */
  lemma DefaultPairsAgree()
    ensures forall i :: 0 <= i < |DefaultPairs()| ==>
      DefaultCatCode(DefaultPairs()[i].0) == Some(DefaultPairs()[i].1)
    ensures forall c :: DefaultCatCode(c).Some? ==> exists i :: 0 <= i < |DefaultPairs()| && DefaultPairs()[i].0 == c
  {
    var ps := DefaultPairs();
    forall i | 0 <= i < |ps|
      ensures DefaultCatCode(ps[i].0) == Some(ps[i].1)
    {
      if i >= 12 {
        assert IsAsciiLetter(ps[i].0);
      }
    }
    forall c | DefaultCatCode(c).Some?
      ensures exists i :: 0 <= i < |ps| && ps[i].0 == c
    {
      if 'A' <= c <= 'Z' {
        var i := 12 + (c as int - 'A' as int);
        assert ps[i].0 == c;
      } else if 'a' <= c <= 'z' {
        var i := 38 + (c as int - 'a' as int);
        assert ps[i].0 == c;
      } else if c == '\\' {
        assert ps[0].0 == c;
      } else if c == '{' {
        assert ps[1].0 == c;
      } else if c == '}' {
        assert ps[2].0 == c;
      } else if c == '$' {
        assert ps[3].0 == c;
      } else if c == '&' {
        assert ps[4].0 == c;
      } else if c == '\n' {
        assert ps[5].0 == c;
      } else if c == '#' {
        assert ps[6].0 == c;
      } else if c == '^' {
        assert ps[7].0 == c;
      } else if c == '_' {
        assert ps[8].0 == c;
      } else if c == '~' {
        assert ps[9].0 == c;
      } else if c == '%' {
        assert ps[10].0 == c;
      } else if c == ' ' {
        assert ps[11].0 == c;
      }
    }
  }

  /** The map after inserting the pairs one after another, as `extend` does. */
  function Extended(m: map<char, RawCatCode>, ps: seq<(char, RawCatCode)>): (r: map<char, RawCatCode>)
    ensures m.Keys <= r.Keys
    ensures forall i :: 0 <= i < |ps| ==> ps[i].0 in r
    ensures ps != [] ==> r[ps[|ps| - 1].0] == ps[|ps| - 1].1
    decreases |ps|
  {
    if ps == [] then m
    else Extended(m, ps[..|ps| - 1])[ps[|ps| - 1].0 := ps[|ps| - 1].1]
  }

  /** When every pair agrees with `DefaultCatCode`, inserting them gives each inserted
    * character its default code and leaves every other character as it was. */
  lemma {:induction false} ExtendedAgrees(m: map<char, RawCatCode>, ps: seq<(char, RawCatCode)>, c: char)
    requires forall i :: 0 <= i < |ps| ==> DefaultCatCode(ps[i].0) == Some(ps[i].1)
    ensures (exists i :: 0 <= i < |ps| && ps[i].0 == c) ==> Lookup(Extended(m, ps), c) == DefaultCatCode(c)
    ensures (forall i :: 0 <= i < |ps| ==> ps[i].0 != c) ==> Lookup(Extended(m, ps), c) == Lookup(m, c)
    decreases |ps|
  {
    if ps != [] {
      var front := ps[..|ps| - 1];
      ExtendedAgrees(m, front, c);
      if ps[|ps| - 1].0 != c {
        if exists i :: 0 <= i < |ps| && ps[i].0 == c {
          var i :| 0 <= i < |ps| && ps[i].0 == c;
          assert front[i].0 == c;
        }
      }
    }
  }

  /** The map `tex_defaults` builds gives every character exactly its `DefaultCatCode`. */
  lemma TexDefaultsTable(c: char)
    ensures Lookup(Extended(map[], DefaultPairs()), c) == DefaultCatCode(c)
  {
    DefaultPairsAgree();
    ExtendedAgrees(map[], DefaultPairs(), c);
  }

  /** Installs TeX's default category codes in the innermost scope of the map. */
  method SetTexDefaults(catCodeMap: ScopedMap<char, RawCatCode>)
    requires catCodeMap.Valid()
    modifies catCodeMap
    ensures catCodeMap.Valid()
    ensures catCodeMap.View() ==
      old(catCodeMap.View())[..|old(catCodeMap.View())| - 1] + [Extended(old(catCodeMap.Current()), DefaultPairs())]
  {
    var pairs := DefaultPairs();
    ghost var outer := old(catCodeMap.View())[..|old(catCodeMap.View())| - 1];
    for i := 0 to |pairs|
      invariant catCodeMap.Valid()
      invariant catCodeMap.View() == outer + [Extended(old(catCodeMap.Current()), pairs[..i])]
    {
      catCodeMap.Insert(pairs[i].0, pairs[i].1);
      assert pairs[..i + 1][..i] == pairs[..i];
    }
    assert pairs[..|pairs|] == pairs;
  }

  /** A new scoped map holding exactly TeX's default category codes. */
  method TexDefaults() returns (catCodeMap: ScopedMap<char, RawCatCode>)
    ensures fresh(catCodeMap) && catCodeMap.Valid()
    ensures |catCodeMap.View()| == 1
    ensures forall c :: catCodeMap.Get(c) == DefaultCatCode(c)
  {
    catCodeMap := new ScopedMap();
    SetTexDefaults(catCodeMap);
    forall c ensures catCodeMap.Get(c) == DefaultCatCode(c) {
      TexDefaultsTable(c);
    }
  }
}
