/** Moves: a from-square, a to-square and an optional promotion piece, with their text form. */
module Moves {
  import opened Wrappers
  import opened Squares

  /** The pieces a pawn can promote to. */
  datatype PromoPiece = PromoKnight | PromoBishop | PromoRook | PromoQueen

  /** A move, as the four or five characters of its text form describe it. */
  datatype Mv = Mv(from: Square, to: Square, promo: Option<PromoPiece>)

  /** The promotion letter: n, b, r or q. */
  function PromoLetter(p: PromoPiece): (c: char)
    ensures c in "nbrq"
  {
    match p
    case PromoKnight => 'n'
    case PromoBishop => 'b'
    case PromoRook => 'r'
    case PromoQueen => 'q'
  }

  /** The promotion piece a letter names; any other letter is an error. */
  function PromoOf(c: char): (r: Result<PromoPiece>)
    ensures r.Ok? <==> c in "nbrq"
    ensures r.Ok? ==> PromoLetter(r.value) == c
  {
    match c
    case 'n' => Ok(PromoKnight)
    case 'b' => Ok(PromoBishop)
    case 'r' => Ok(PromoRook)
    case 'q' => Ok(PromoQueen)
    case _ => Err("Invalid promotion character")
  }

  /**
   * `Mv::from_string`: characters 0..2 are the from-square and 2..4 the to-square; a fifth
   * character is the promotion letter, and further characters are ignored. A string shorter
   * than a slice it is cut into, a square that does not parse, or a fifth character other than
   * n, b, r or q is an error.
   */
  function FromString(s: string): (r: Result<Mv>)
    ensures r.Ok? <==>
      |s| >= 4 && Squares.FromString(s[..2]).Ok? && Squares.FromString(s[2..4]).Ok? &&
      (|s| >= 5 ==> s[4] in "nbrq")
    ensures r.Ok? ==> (r.value.promo.None? <==> |s| == 4)
  {
    if |s| < 2 then Err("byte index 2 is out of range")
    else
      var from := Squares.FromString(s[..2]);
      if from.Err? then Err(from.msg)
      else if |s| < 4 then Err("byte index 4 is out of range")
      else
        var to := Squares.FromString(s[2..4]);
        if to.Err? then Err(to.msg)
        else if |s| == 4 then Ok(Mv(from.value, to.value, None))
        else
          var promo := PromoOf(s[4]);
          if promo.Err? then Err(promo.msg)
          else Ok(Mv(from.value, to.value, Some(promo.value)))
  }

  /**
   * `Display for Mv`: the from-square, the to-square, and the promotion letter exactly when
   * there is a promotion.
   */
  function ToString(m: Mv): (s: string)
    requires m.from.x < 256 - 'a' as int && m.from.y < 256 - '1' as int
    requires m.to.x < 256 - 'a' as int && m.to.y < 256 - '1' as int
    ensures |s| == if m.promo.Some? then 5 else 4
    ensures s[..2] == Squares.ToString(m.from) && s[2..4] == Squares.ToString(m.to)
    ensures m.promo.Some? ==> s[4] == PromoLetter(m.promo.value)
  {
    var squares := Squares.ToString(m.from) + Squares.ToString(m.to);
    match m.promo
    case None => squares
    case Some(p) => squares + [PromoLetter(p)]
  }

  /** Every move whose squares `from_string` can produce reads back from its text. */
  lemma FromStringOfToString(m: Mv)
    requires m.from.x < 10 && m.from.y < 8 && m.to.x < 10 && m.to.y < 8
    ensures FromString(ToString(m)) == Ok(m)
  {
    var s := ToString(m);
    Squares.FromStringOfToString(m.from);
    Squares.FromStringOfToString(m.to);
    assert s[..2] == Squares.ToString(m.from);
    assert s[2..4] == Squares.ToString(m.to);
  }

  /** Every string that parses, cut to its four or five meaningful characters, is written back unchanged. */
  lemma ToStringOfFromString(s: string)
    requires FromString(s).Ok?
    ensures var m := FromString(s).value;
      m.from.x < 10 && m.from.y < 8 && m.to.x < 10 && m.to.y < 8 &&
      ToString(m) == s[..if |s| == 4 then 4 else 5]
  {
    var m := FromString(s).value;
    Squares.ToStringOfFromString(s[..2]);
    Squares.ToStringOfFromString(s[2..4]);
    assert Squares.ToString(m.from) == s[..2];
    assert Squares.ToString(m.to) == s[2..4];
    var t := ToString(m);
    if |s| == 4 {
      assert t == t[..2] + t[2..4];
      assert s == s[..2] + s[2..4];
    } else {
      assert t == t[..2] + t[2..4] + [t[4]];
      assert s[..5] == s[..2] + s[2..4] + [s[4]];
    }
  }

  /** The test strings: plain moves and the four promotions of each side. */
  lemma Examples()
    ensures FromString("a1a8") == Ok(Mv(Square(0, 0), Square(0, 7), None))
    ensures FromString("a7a8q") == Ok(Mv(Square(0, 6), Square(0, 7), Some(PromoQueen)))
    ensures FromString("a2a1n") == Ok(Mv(Square(0, 1), Square(0, 0), Some(PromoKnight)))
    ensures FromString("a7a8k").Err? && FromString("a7").Err? && FromString("a9a8").Err?
    ensures ToString(Mv(Square(7, 0), Square(7, 7), None)) == "h1h8"
    ensures ToString(Mv(Square(0, 1), Square(0, 0), Some(PromoRook))) == "a2a1r"
  {
    assert "a1a8"[..2] == "a1" && "a1a8"[2..4] == "a8";
    assert "a7a8q"[..2] == "a7" && "a7a8q"[2..4] == "a8";
    assert "a2a1n"[..2] == "a2" && "a2a1n"[2..4] == "a1";
    assert "a7a8k"[..2] == "a7" && "a7a8k"[2..4] == "a8";
    assert "a9a8"[..2] == "a9";
  }
}
