/**
 * The card-text parser and player names of the terminal client
 * (cli/utils.go:66-127).  A Go string is a sequence of bytes; here each
 * `char` of a `GoString` stands for one byte, so `s[0 : len(s)-1]` and
 * `s[len(s)-1:]` cut off exactly the last byte, as in Go.
 */
module CliUtils {
  import opened Wrappers
  import opened Cards
  import opened Players

  type GoString = seq<char>

  /** The two error messages of the parser. */
  datatype ParseError = InvalidRank | InvalidSuit

  /** Go's `(value, error)` pair: the parser returns a value even with an error. */
  datatype Parsed<T> = Parsed(value: T, err: Option<ParseError>)

  /** An ASCII byte. */
  predicate IsAscii(c: char)
  {
    c < '\U{80}'
  }

  /** Text all of whose bytes are ASCII. */
  predicate AsciiOnly(s: GoString)
  {
    forall i :: 0 <= i < |s| ==> IsAscii(s[i])
  }

  /** unicode.ToUpper on an ASCII byte: a-z become A-Z, every other byte stays. */
  function UpperByte(c: char): char
  {
    if 'a' <= c <= 'z' then (c as int - 'a' as int + 'A' as int) as char else c
  }

  /** Upper-casing a byte keeps it ASCII or non-ASCII. */
  lemma UpperByteAscii(c: char)
    ensures IsAscii(UpperByte(c)) <==> IsAscii(c)
  {
    if 'a' <= c <= 'z' {
      assert UpperByte(c) as int == c as int - 32;
    }
  }

  /**
   * strings.ToUpper on the bytes of UTF-8 text.  ASCII letters a-z become
   * A-Z, and the two-byte forms of the long s (C5 BF) and of the dotless i
   * (C4 B1) become S and I: these two are the only non-ASCII letters whose
   * upper case is ASCII.  Every other byte stays as it is.  Go turns the
   * other runes, and bytes that are not UTF-8, into other non-ASCII text,
   * so which ASCII text the result is, if any, comes out the same.
   */
  function ToUpper(s: GoString): (u: GoString)
    ensures |u| <= |s|
    ensures AsciiOnly(s) ==> |u| == |s| && forall i :: 0 <= i < |s| ==> u[i] == UpperByte(s[i])
    decreases |s|
  {
    if s == [] then []
    else if |s| >= 2 && s[0] == '\U{C5}' && s[1] == '\U{BF}' then ['S'] + ToUpper(s[2..])
    else if |s| >= 2 && s[0] == '\U{C4}' && s[1] == '\U{B1}' then ['I'] + ToUpper(s[2..])
    else [UpperByte(s[0])] + ToUpper(s[1..])
  }

  /** Text ending in an ASCII byte is upper-cased piece by piece: no two-byte letter straddles the cut. */
  lemma {:induction false} ToUpperAppendAscii(a: GoString, c: char)
    requires IsAscii(c)
    ensures ToUpper(a + [c]) == ToUpper(a) + [UpperByte(c)]
    decreases |a|
  {
    if a == [] {
      assert a + [c] == [c];
    } else if |a| >= 2 && ((a[0] == '\U{C5}' && a[1] == '\U{BF}') || (a[0] == '\U{C4}' && a[1] == '\U{B1}')) {
      assert (a + [c])[2..] == a[2..] + [c];
      ToUpperAppendAscii(a[2..], c);
    } else {
      assert (a + [c])[1..] == a[1..] + [c];
      ToUpperAppendAscii(a[1..], c);
    }
  }

  /** stringToRank (cli/utils.go:76-97): a failed parse gives Seven with the error. */
  function StringToRank(s: GoString): Parsed<Rank>
  {
    RankOfLabel(ToUpper(s))
  }

  /** The switch of stringToRank on the upper-cased text. */
  function RankOfLabel(u: GoString): Parsed<Rank>
  {
    match u
    case "7" => Parsed(Seven, None)
    case "8" => Parsed(Eight, None)
    case "9" => Parsed(Nine, None)
    case "10" => Parsed(Ten, None)
    case "J" => Parsed(Jack, None)
    case "Q" => Parsed(Queen, None)
    case "K" => Parsed(King, None)
    case "A" => Parsed(Ace, None)
    case _ => Parsed(Seven, Some(InvalidRank))
  }

  /** stringToSuit (cli/utils.go:99-112): a failed parse gives Hearts with the error. */
  function StringToSuit(s: GoString): Parsed<Suit>
  {
    SuitOfLetter(ToUpper(s))
  }

  /** The switch of stringToSuit on the upper-cased text. */
  function SuitOfLetter(u: GoString): Parsed<Suit>
  {
    match u
    case "H" => Parsed(Hearts, None)
    case "D" => Parsed(Diamonds, None)
    case "C" => Parsed(Clubs, None)
    case "S" => Parsed(Spades, None)
    case _ => Parsed(Hearts, Some(InvalidSuit))
  }

  /**
   * stringToCard (cli/utils.go:66-74): the rank from every byte but the
   * last, the suit from the last.  A rank error gives Go's zero Card, here
   * `None`; a suit error still gives the card with Hearts.  Go panics on the
   * empty string, where `len(s)-1` is negative.
   */
  function StringToCard(s: GoString): Parsed<Option<Card>>
    requires |s| >= 1
  {
    var rank := StringToRank(s[..|s| - 1]);
    if rank.err.Some? then Parsed(None, rank.err)
    else
      var suit := StringToSuit(s[|s| - 1..]);
      Parsed(Some(Card(suit.value, rank.value)), suit.err)
  }

  /** playerToString (cli/utils.go:114-127); Go panics on any id but the four seats. */
  function PlayerToString(p: PlayerId): GoString
    requires p in Seats
  {
    if p == Player1 then "Player 1"
    else if p == Player2 then "Player 2"
    else if p == Player3 then "Player 3"
    else "Player 4"
  }

  /** The text of a rank, as the parser reads it. */
  function RankLabel(r: Rank): GoString
  {
    match r
    case Seven => "7"
    case Eight => "8"
    case Nine => "9"
    case Ten => "10"
    case Jack => "J"
    case Queen => "Q"
    case King => "K"
    case Ace => "A"
  }

  /** The letter of a suit, as the parser reads it. */
  function SuitLetter(s: Suit): char
  {
    match s
    case Hearts => 'H'
    case Diamonds => 'D'
    case Clubs => 'C'
    case Spades => 'S'
  }

  /** ASCII letters A-Z become a-z; every other byte stays.  Used to state that case does not matter. */
  function LowerByte(c: char): char
  {
    if 'A' <= c <= 'Z' then (c as int - 'A' as int + 'a' as int) as char else c
  }

  /** ToLower on every byte. */
  function ToLower(s: GoString): (l: GoString)
    ensures |l| == |s| && forall i :: 0 <= i < |s| ==> l[i] == LowerByte(s[i])
  {
    seq(|s|, i requires 0 <= i < |s| => LowerByte(s[i]))
  }

  /**
   * stringToRank accepts exactly the eight rank labels, in either case, and
   * reads each as its rank; any other text is an error that yields Seven.
   */
  lemma RankParse(s: GoString)
    ensures StringToRank(s).err.None? <==> exists r: Rank :: ToUpper(s) == RankLabel(r)
    ensures forall r: Rank :: ToUpper(s) == RankLabel(r) ==> StringToRank(s) == Parsed(r, None)
    ensures StringToRank(s).err.Some? ==> StringToRank(s) == Parsed(Seven, Some(InvalidRank))
  {
    RankOfLabelIff(ToUpper(s));
  }

  /** The switch of stringToRank accepts exactly the eight labels. */
  lemma RankOfLabelIff(u: GoString)
    ensures RankOfLabel(u).err.None? <==> exists r: Rank :: u == RankLabel(r)
    ensures forall r: Rank :: u == RankLabel(r) ==> RankOfLabel(u) == Parsed(r, None)
    ensures RankOfLabel(u).err.Some? ==> RankOfLabel(u) == Parsed(Seven, Some(InvalidRank))
  {
    if RankOfLabel(u).err.None? {
      assert u == RankLabel(RankOfLabel(u).value);
    }
  }

  /** Every rank label, in upper or lower case, parses to its rank. */
  lemma RankLabelParses(r: Rank)
    ensures StringToRank(RankLabel(r)) == Parsed(r, None)
    ensures StringToRank(ToLower(RankLabel(r))) == Parsed(r, None)
  {
    assert ToUpper(RankLabel(r)) == RankLabel(r);
    assert ToUpper(ToLower(RankLabel(r))) == RankLabel(r);
  }

  /**
   * stringToSuit accepts exactly the letters H, D, C and S, in either case;
   * any other text is an error that yields Hearts.
   */
  lemma SuitParse(s: GoString)
    ensures StringToSuit(s).err.None? <==> exists t: Suit :: ToUpper(s) == [SuitLetter(t)]
    ensures forall t: Suit :: ToUpper(s) == [SuitLetter(t)] ==> StringToSuit(s) == Parsed(t, None)
    ensures StringToSuit(s).err.Some? ==> StringToSuit(s) == Parsed(Hearts, Some(InvalidSuit))
  {
    SuitOfLetterIff(ToUpper(s));
  }

  /** The switch of stringToSuit accepts exactly the four letters. */
  lemma SuitOfLetterIff(u: GoString)
    ensures SuitOfLetter(u).err.None? <==> exists t: Suit :: u == [SuitLetter(t)]
    ensures forall t: Suit :: u == [SuitLetter(t)] ==> SuitOfLetter(u) == Parsed(t, None)
    ensures SuitOfLetter(u).err.Some? ==> SuitOfLetter(u) == Parsed(Hearts, Some(InvalidSuit))
  {
    if SuitOfLetter(u).err.None? {
      assert u == [SuitLetter(SuitOfLetter(u).value)];
    }
  }

  /** strings.ToUpper reads the long s (C5 BF) as S, so stringToSuit takes it for Spades. */
  lemma LongSParsesAsSpades()
    ensures StringToSuit(['\U{C5}', '\U{BF}']) == Parsed(Spades, None)
    ensures StringToSuit(['\U{C5}']).err == Some(InvalidSuit)
  {
    assert ToUpper(['\U{C5}', '\U{BF}']) == ['S'];
    assert ToUpper(['\U{C5}']) == ['\U{C5}'];
  }

  /** Every suit letter, in upper or lower case, parses to its suit. */
  lemma SuitLetterParses(t: Suit)
    ensures StringToSuit([SuitLetter(t)]) == Parsed(t, None)
    ensures StringToSuit([LowerByte(SuitLetter(t))]) == Parsed(t, None)
  {
    assert ToUpper([SuitLetter(t)]) == [SuitLetter(t)];
    assert ToUpper([LowerByte(SuitLetter(t))]) == [SuitLetter(t)];
  }


  /** The text of a card: its rank label followed by its suit letter, such as "10H". */
  function CardText(c: Card): GoString
  {
    RankLabel(c.rank) + [SuitLetter(c.suit)]
  }

  /** Reading the text of a card gives back the card. */
  lemma CardTextRoundTrip(c: Card)
    ensures StringToCard(CardText(c)) == Parsed(Some(c), None)
  {
    var s := CardText(c);
    assert s[..|s| - 1] == RankLabel(c.rank);
    assert s[|s| - 1..] == [SuitLetter(c.suit)];
    RankLabelParses(c.rank);
    SuitLetterParses(c.suit);
  }

  /**
   * Conversely, a text stringToCard accepts is, up to case, the text of the
   * card it yields; a rank error yields no card, and a suit error the card
   * with Hearts.
   */
  lemma StringToCardAccepts(s: GoString)
    requires |s| >= 1
    ensures StringToCard(s).err.None? ==>
      StringToCard(s).value.Some? && ToUpper(s) == CardText(StringToCard(s).value.value)
    ensures StringToRank(s[..|s| - 1]).err.Some? ==> StringToCard(s) == Parsed(None, Some(InvalidRank))
    ensures StringToRank(s[..|s| - 1]).err.None? && StringToSuit(s[|s| - 1..]).err.Some? ==>
      StringToCard(s) == Parsed(Some(Card(Hearts, StringToRank(s[..|s| - 1]).value)), Some(InvalidSuit))
  {
    var front, last := s[..|s| - 1], s[|s| - 1..];
    RankOfLabelIff(ToUpper(front));
    SuitOfLetterIff(ToUpper(last));
    if StringToCard(s).err.None? {
      SplitLast(s);
      UpperCardText(front, s[|s| - 1], StringToCard(s).value.value);
    }
  }

  /** A non-empty text is its front followed by its last byte. */
  lemma SplitLast(s: GoString)
    requires |s| >= 1
    ensures s == s[..|s| - 1] + [s[|s| - 1]] && s[|s| - 1..] == [s[|s| - 1]]
  {
  }

  /** A rank text followed by a byte that upper-cases to a suit letter upper-cases to the card's text. */
  lemma UpperCardText(front: GoString, x: char, c: Card)
    requires ToUpper(front) == RankLabel(c.rank) && ToUpper([x]) == [SuitLetter(c.suit)]
    ensures ToUpper(front + [x]) == CardText(c)
  {
    assert ToUpper([x]) == [UpperByte(x)] by {
      assert [x][1..] == [];
    }
    UpperByteAscii(x);
    ToUpperAppendAscii(front, x);
  }

  /** The four player names are different, so a name tells the seat. */
  lemma PlayerNamesDistinct(p: PlayerId, q: PlayerId)
    requires p in Seats && q in Seats
    ensures PlayerToString(p) == PlayerToString(q) <==> p == q
  {
    if p != q {
      assert PlayerToString(p)[7] != PlayerToString(q)[7];
    }
  }
}
