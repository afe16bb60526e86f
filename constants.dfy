/** The card tables: the four suits, the thirteen ranks in their printed
    order, the strength order used when one card is compared with another,
    and the ranks that clear the pile. */
module Constants {

  datatype Suit = Spades | Hearts | Diamonds | Clubs

  datatype Rank = Two | Three | Four | Five | Six | Seven | Eight | Nine | Ten
                | Jack | Queen | King | Ace

  /** A card; the suit is shown but never consulted by the rules. */
  datatype Card = Card(suit: Suit, rank: Rank)

  const Suits: seq<Suit> := [Spades, Hearts, Diamonds, Clubs]

  const Ranks: seq<Rank> :=
    [Two, Three, Four, Five, Six, Seven, Eight, Nine, Ten, Jack, Queen, King, Ace]

  /** Strength order, weakest first: 6 and 10 are moved past the ace. */
  const RankOrder: seq<Rank> :=
    [Two, Three, Four, Five, Seven, Eight, Nine, Jack, Queen, King, Ace, Six, Ten]

  /** The ranks that clear the pile in the rules module. */
  const ClearPileRanks: seq<Rank> := [Six, Ten]

  ghost predicate Distinct<T>(s: seq<T>) {
    forall i, j :: 0 <= i < j < |s| ==> s[i] != s[j]
  }

  /** JavaScript's `indexOf`: the first position of `x`, or -1. */
  function IndexOf<T(==)>(s: seq<T>, x: T): (r: int)
    ensures -1 <= r < |s|
    ensures r == -1 <==> x !in s
    ensures 0 <= r ==> s[r] == x && forall k :: 0 <= k < r ==> s[k] != x
  {
    if s == [] then -1
    else if s[0] == x then 0
    else
      var k := IndexOf(s[1..], x);
      assert s[1..] == s[1..][..|s| - 1];
      if k == -1 then -1
      else
        assert s[..k + 1] == [s[0]] + s[1..][..k];
        k + 1
  }

  lemma IndexOfDistinct<T>(s: seq<T>, k: nat)
    requires Distinct(s) && k < |s|
    ensures IndexOf(s, s[k]) == k
  {
  }

  /** The position of each suit in Suits. */
  function SuitPosition(s: Suit): nat {
    match s
    case Spades => 0
    case Hearts => 1
    case Diamonds => 2
    case Clubs => 3
  }

  lemma SuitsTable()
    ensures |Suits| == 4 && Distinct(Suits)
    ensures forall s: Suit :: SuitPosition(s) < 4 && Suits[SuitPosition(s)] == s
  {
    assert forall i :: 0 <= i < |Suits| ==> SuitPosition(Suits[i]) == i;
  }

  lemma RanksTable()
    ensures |Ranks| == 13 && Distinct(Ranks)
    ensures forall r: Rank :: Face(r) < 13 && Ranks[Face(r)] == r
  {
    assert forall i :: 0 <= i < |Ranks| ==> Face(Ranks[i]) == i;
  }

  /** RankOrder holds the same thirteen ranks as Ranks, each exactly once:
      it is a permutation of Ranks. */
  lemma RankOrderIsPermutation()
    ensures |RankOrder| == |Ranks| && Distinct(RankOrder)
    ensures forall r: Rank :: RankIndex(r) < 13 && RankOrder[RankIndex(r)] == r
  {
    assert forall i :: 0 <= i < |RankOrder| ==> RankIndex(RankOrder[i]) == i;
  }

  /** `RANK_ORDER.indexOf(rank)`, the strength of a rank, as a table;
      RankIndexIsIndexOf shows it is the position the search finds. */
  function RankIndex(r: Rank): nat {
    match r
    case Two => 0
    case Three => 1
    case Four => 2
    case Five => 3
    case Seven => 4
    case Eight => 5
    case Nine => 6
    case Jack => 7
    case Queen => 8
    case King => 9
    case Ace => 10
    case Six => 11
    case Ten => 12
  }

  /** `RANK_ORDER.indexOf` finds every rank, at its table position, so it
      never answers -1. */
  lemma {:induction false} RankIndexIsIndexOf(r: Rank)
    ensures IndexOf(RankOrder, r) == RankIndex(r) && 0 <= IndexOf(RankOrder, r) < 13
  {
    RankOrderIsPermutation();
    IndexOfDistinct(RankOrder, RankIndex(r));
  }

  /** The printed position of each rank. */
  function Face(r: Rank): nat {
    match r
    case Two => 0
    case Three => 1
    case Four => 2
    case Five => 3
    case Six => 4
    case Seven => 5
    case Eight => 6
    case Nine => 7
    case Ten => 8
    case Jack => 9
    case Queen => 10
    case King => 11
    case Ace => 12
  }

  lemma {:induction false} RanksIndexIsFace(r: Rank)
    ensures IndexOf(Ranks, r) == Face(r)
  {
    RanksTable();
    IndexOfDistinct(Ranks, Face(r));
  }

  /** 6 and 10 are the two strongest ranks, at positions 11 and 12. */
  lemma SixAndTenOnTop()
    ensures IndexOf(RankOrder, Six) == 11
    ensures IndexOf(RankOrder, Ten) == 12
  {
    RankIndexIsIndexOf(Six);
    RankIndexIsIndexOf(Ten);
  }

  /** Every other rank is weaker than both. */
  lemma OtherRanksBelowSix()
    ensures forall r: Rank :: r != Six && r != Ten ==> 0 <= IndexOf(RankOrder, r) < 11
  {
    forall r: Rank | r != Six && r != Ten ensures 0 <= IndexOf(RankOrder, r) < 11 {
      RankIndexIsIndexOf(r);
    }
  }

  /** Apart from 6 and 10, the strength order is the printed order
      (RanksIndexIsFace: Face is the position in Ranks). */
  lemma {:induction false} RankOrderKeepsPrintedOrder(r1: Rank, r2: Rank)
    requires r1 != Six && r1 != Ten && r2 != Six && r2 != Ten
    ensures RankIndex(r1) < RankIndex(r2) <==> Face(r1) < Face(r2)
  {
    RankIndexFromFace(r1);
    RankIndexFromFace(r2);
  }

  /** Off 6 and 10, the strength is the printed position less the number of
      those two ranks printed before it. */
  lemma RankIndexFromFace(r: Rank)
    requires r != Six && r != Ten
    ensures RankIndex(r) == Face(r) - (if Face(r) > 8 then 2 else if Face(r) > 4 then 1 else 0)
    ensures Face(r) != 4 && Face(r) != 8
  {
  }

  lemma ClearPileIsSixAndTen()
    ensures forall r: Rank :: r in ClearPileRanks <==> r == Six || r == Ten
    ensures |ClearPileRanks| == 2
  {
  }
}
