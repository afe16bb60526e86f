/** Building, shuffling and dealing the deck, and the three card zones each
    participant owns. The deck and the zones are arrays in the game and are
    changed in place, so they are objects here. */
module Decks {
  import opened Constants

  /** The contents of a participant's three zones at one moment. */
  datatype Zones = Zones(hand: seq<Card>, faceUp: seq<Card>, faceDown: seq<Card>)

  /** Every card a participant holds, in any zone. */
  function Holding(z: Zones): (m: multiset<Card>)
    ensures |m| == |z.hand| + |z.faceUp| + |z.faceDown|
  {
    multiset(z.hand) + multiset(z.faceUp) + multiset(z.faceDown)
  }

  /** A participant (the human or the bot) and its three card arrays. */
  class Player {
    var hand: seq<Card>
    var faceUp: seq<Card>
    var faceDown: seq<Card>

    /** A participant with three empty zones. */
    constructor ()
      ensures hand == [] && faceUp == [] && faceDown == []
    {
      hand, faceUp, faceDown := [], [], [];
    }

    function View(): Zones
      reads this
    {
      Zones(hand, faceUp, faceDown)
    }
  }

  /** The draw pile: an array that is only ever consumed from its end. */
  class Deck {
    var cards: seq<Card>

    constructor (cards: seq<Card>)
      ensures this.cards == cards
    {
      this.cards := cards;
    }

    /** `deck.pop()`: removes and returns the last card. */
    method Pop() returns (c: Card)
      requires cards != []
      modifies this
      ensures c == old(cards)[|old(cards)| - 1] && cards == old(cards)[..|old(cards)| - 1]
    {
      c := cards[|cards| - 1];
      cards := cards[..|cards| - 1];
    }
  }

  // ---------------------------------------------------------------------
  // Building the deck

  /** The deck before shuffling: suit by suit, each suit in printed rank
      order. */
  function OrderedDeck(): (d: seq<Card>)
    ensures |d| == 52
  {
    seq(52, k requires 0 <= k < 52 => Card(Suits[k / 13], Ranks[k % 13]))
  }

  lemma OrderedDeckAt(s: nat, r: nat)
    requires s < 4 && r < 13
    ensures 13 * s + r < 52 && OrderedDeck()[13 * s + r] == Card(Suits[s], Ranks[r])
  {
    var k := 13 * s + r;
    assert k / 13 == s && k % 13 == r;
  }

  /** The ordered deck is built one card at a time. */
  lemma OrderedDeckGrows(s: nat, r: nat)
    requires s < 4 && r < 13
    ensures OrderedDeck()[..13 * s + r + 1] == OrderedDeck()[..13 * s + r] + [Card(Suits[s], Ranks[r])]
  {
    OrderedDeckAt(s, r);
    var d := OrderedDeck();
    assert d[..13 * s + r + 1] == d[..13 * s + r] + [d[13 * s + r]];
  }

  /** The ordered deck holds every one of the 52 suit-rank pairs, once. */
  lemma OrderedDeckComplete()
    ensures Distinct(OrderedDeck())
    ensures forall c: Card :: c in OrderedDeck()
  {
    SuitsTable();
    RanksTable();
    var d := OrderedDeck();
    forall i, j | 0 <= i < j < |d| ensures d[i] != d[j] {
      if i / 13 == j / 13 {
        assert i % 13 != j % 13;
      }
    }
    forall c: Card ensures c in d {
      var k := 13 * SuitPosition(c.suit) + Face(c.rank);
      assert k / 13 == SuitPosition(c.suit) && k % 13 == Face(c.rank);
      assert d[k] == c;
    }
  }

  /** In a sequence without repeats every element occurs exactly once. */
  lemma {:induction false} DistinctCount<T>(s: seq<T>, x: T)
    requires Distinct(s)
    ensures multiset(s)[x] == if x in s then 1 else 0
  {
    if s != [] {
      assert Distinct(s[1..]);
      DistinctCount(s[1..], x);
      assert s == [s[0]] + s[1..];
      assert s[0] !in s[1..];
    }
  }

  /** `createDeck`: pushes every suit-rank pair, suit by suit, then shuffles
      the result. */
  method CreateDeck(rolls: seq<nat>) returns (deck: seq<Card>)
    requires ValidRolls(rolls, 52)
    ensures deck == Shuffled(OrderedDeck(), rolls)
    ensures |deck| == 52
    ensures forall c: Card :: multiset(deck)[c] == 1
  {
    ghost var full := OrderedDeck();
    var ordered: seq<Card> := [];
    for s := 0 to |Suits|
      invariant ordered == full[..13 * s]
    {
      for r := 0 to |Ranks|
        invariant ordered == full[..13 * s + r]
      {
        OrderedDeckGrows(s, r);
        ordered := ordered + [Card(Suits[s], Ranks[r])];
      }
    }
    assert ordered == full;
    deck := ShuffleDeck(ordered, rolls);
    OrderedDeckOnce();
  }

  /** Every card occurs in the ordered deck exactly once. */
  lemma OrderedDeckOnce()
    ensures forall c: Card :: multiset(OrderedDeck())[c] == 1
  {
    OrderedDeckComplete();
    forall c: Card ensures multiset(OrderedDeck())[c] == 1 {
      DistinctCount(OrderedDeck(), c);
    }
  }

  // ---------------------------------------------------------------------
  // Shuffling

  /** The random draws of a Fisher-Yates shuffle of `n` cards: when the loop
      is at index `i`, `Math.floor(Math.random() * (i + 1))` is `rolls[i]`,
      so it lies in 0..i. */
  ghost predicate ValidRolls(rolls: seq<nat>, n: nat) {
    |rolls| >= n && forall i :: 0 < i < n ==> rolls[i] <= i
  }

  function Swap(s: seq<Card>, i: nat, j: nat): (r: seq<Card>)
    requires i < |s| && j < |s|
    ensures |r| == |s| && multiset(r) == multiset(s)
  {
    s[i := s[j]][j := s[i]]
  }

  /** The swaps the loop still has to make when it is at index `i`: swap
      position `i` with `rolls[i]`, then go on with `i - 1`, down to 1. */
  function ShuffleSteps(s: seq<Card>, rolls: seq<nat>, i: int): (r: seq<Card>)
    requires i < |s| && ValidRolls(rolls, |s|)
    ensures |r| == |s| && multiset(r) == multiset(s)
    decreases i
  {
    if i <= 0 then s else ShuffleSteps(Swap(s, i, rolls[i]), rolls, i - 1)
  }

  /** The whole shuffle: the loop starts at the last index. */
  function Shuffled(s: seq<Card>, rolls: seq<nat>): seq<Card>
    requires ValidRolls(rolls, |s|)
  {
    ShuffleSteps(s, rolls, |s| - 1)
  }

  /** `shuffleDeck`: Fisher-Yates on a copy of the deck, from the last index
      down to 1, swapping each position with a drawn partner at or below it. */
  method ShuffleDeck(deck: seq<Card>, rolls: seq<nat>) returns (shuffled: seq<Card>)
    requires ValidRolls(rolls, |deck|)
    ensures shuffled == Shuffled(deck, rolls)
    ensures multiset(shuffled) == multiset(deck)
  {
    var a := new Card[|deck|](k requires 0 <= k < |deck| => deck[k]);
    assert a[..] == deck;
    var i := |deck| - 1;
    while i > 0
      invariant -1 <= i < a.Length == |deck|
      invariant ShuffleSteps(a[..], rolls, i) == Shuffled(deck, rolls)
    {
      ghost var before := a[..];
      var j := rolls[i];
      var t := a[i];
      a[i] := a[j];
      a[j] := t;
      assert a[..] == Swap(before, i, j);
      i := i - 1;
    }
    shuffled := a[..];
  }

  // ---------------------------------------------------------------------
  // Dealing

  /** `count` cards taken from `d` at every other position, going down from
      index `top`. */
  function Picks(d: seq<Card>, top: int, count: nat): (r: seq<Card>)
    requires count > 0 ==> 2 * (count - 1) <= top < |d|
    ensures |r| == count
  {
    seq(count, k requires 0 <= k < count => d[top - 2 * k])
  }

  /** The deck and both participants' zones together. */
  datatype Table = Table(deck: seq<Card>, player: Zones, bot: Zones)

  /** What `dealCards` leaves: the last 18 cards of the deck are handed out
      alternately, the player first, three rounds to faceDown, then three to
      faceUp, then three to hand. */
  function Dealt(d: seq<Card>, player: Zones, bot: Zones): Table
    requires |d| >= 18
  {
    var n := |d|;
    Table(
      d[..n - 18],
      Zones(player.hand + Picks(d, n - 13, 3), player.faceUp + Picks(d, n - 7, 3),
            player.faceDown + Picks(d, n - 1, 3)),
      Zones(bot.hand + Picks(d, n - 14, 3), bot.faceUp + Picks(d, n - 8, 3),
            bot.faceDown + Picks(d, n - 2, 3)))
  }

  /** The deal takes exactly 18 cards and gives each zone of each side 3. */
  lemma DealtSizes(d: seq<Card>, player: Zones, bot: Zones)
    requires |d| >= 18
    ensures var t := Dealt(d, player, bot);
      && |t.deck| == |d| - 18
      && |t.player.hand| == |player.hand| + 3 && |t.bot.hand| == |bot.hand| + 3
      && |t.player.faceUp| == |player.faceUp| + 3 && |t.bot.faceUp| == |bot.faceUp| + 3
      && |t.player.faceDown| == |player.faceDown| + 3 && |t.bot.faceDown| == |bot.faceDown| + 3
  {
  }

  /** The order in which the deck's last 18 cards reach the zones. */
  lemma DealtOrder(d: seq<Card>)
    requires |d| >= 18
    ensures var n := |d|;
      var t := Dealt(d, Zones([], [], []), Zones([], [], []));
      && t.player.faceDown == [d[n - 1], d[n - 3], d[n - 5]]
      && t.bot.faceDown == [d[n - 2], d[n - 4], d[n - 6]]
      && t.player.faceUp == [d[n - 7], d[n - 9], d[n - 11]]
      && t.bot.faceUp == [d[n - 8], d[n - 10], d[n - 12]]
      && t.player.hand == [d[n - 13], d[n - 15], d[n - 17]]
      && t.bot.hand == [d[n - 14], d[n - 16], d[n - 18]]
  {
  }

  /** Six consecutive cards of the deck go to two zones, three each,
      alternating. */
  lemma {:induction false} RoundConserves(d: seq<Card>, b: nat)
    requires b + 6 <= |d|
    ensures multiset(d[b..b + 6]) == multiset(Picks(d, b + 5, 3)) + multiset(Picks(d, b + 4, 3))
  {
    var r := d[b..b + 6];
    assert r == [r[0]] + [r[1]] + [r[2]] + [r[3]] + [r[4]] + [r[5]];
    assert Picks(d, b + 5, 3) == [r[5], r[3], r[1]];
    assert Picks(d, b + 4, 3) == [r[4], r[2], r[0]];
    MultisetOfThree(r[5], r[3], r[1]);
    MultisetOfThree(r[4], r[2], r[0]);
  }

  lemma MultisetOfThree<T>(a: T, b: T, c: T)
    ensures multiset([a, b, c]) == multiset{a} + multiset{b} + multiset{c}
  {
    assert [a, b, c] == [a] + [b] + [c];
  }

  /** No card is lost or made by the deal: what was handed out plus what is
      left is the deck the deal started from. */
  lemma {:induction false} DealtConserves(d: seq<Card>, player: Zones, bot: Zones)
    requires |d| >= 18
    ensures var t := Dealt(d, player, bot);
      multiset(t.deck) + Holding(t.player) + Holding(t.bot)
        == multiset(d) + Holding(player) + Holding(bot)
  {
    var n := |d|;
    var t := Dealt(d, player, bot);
    assert d == d[..n - 18] + d[n - 18..n - 12] + d[n - 12..n - 6] + d[n - 6..n];
    RoundConserves(d, n - 18);
    RoundConserves(d, n - 12);
    RoundConserves(d, n - 6);
    ZonesGain(player, Picks(d, n - 13, 3), Picks(d, n - 7, 3), Picks(d, n - 1, 3));
    ZonesGain(bot, Picks(d, n - 14, 3), Picks(d, n - 8, 3), Picks(d, n - 2, 3));
    DealtSum(multiset(d), multiset(d[..n - 18]),
      multiset(d[n - 18..n - 12]), multiset(d[n - 12..n - 6]), multiset(d[n - 6..n]),
      Holding(player), Holding(bot), Holding(t.player), Holding(t.bot),
      multiset(Picks(d, n - 13, 3)), multiset(Picks(d, n - 14, 3)),
      multiset(Picks(d, n - 7, 3)), multiset(Picks(d, n - 8, 3)),
      multiset(Picks(d, n - 1, 3)), multiset(Picks(d, n - 2, 3)));
  }

  lemma ZonesGain(z: Zones, h: seq<Card>, u: seq<Card>, w: seq<Card>)
    ensures Holding(Zones(z.hand + h, z.faceUp + u, z.faceDown + w))
         == Holding(z) + multiset(h) + multiset(u) + multiset(w)
  {
  }

  /** The bookkeeping of DealtConserves on plain multisets: the deck is the
      rest plus three rounds, each round split between the two sides. */
  lemma DealtSum<T>(all: multiset<T>, rest: multiset<T>, hands: multiset<T>, ups: multiset<T>,
                    downs: multiset<T>, p: multiset<T>, b: multiset<T>, tp: multiset<T>, tb: multiset<T>,
                    ph: multiset<T>, bh: multiset<T>, pu: multiset<T>, bu: multiset<T>,
                    pd: multiset<T>, bd: multiset<T>)
    requires all == rest + hands + ups + downs
    requires hands == ph + bh && ups == pu + bu && downs == pd + bd
    requires tp == p + ph + pu + pd && tb == b + bh + bu + bd
    ensures rest + tp + tb == all + p + b
  {
    assert forall x :: (rest + tp + tb)[x] == (all + p + b)[x];
  }

  lemma PicksStep(d: seq<Card>, top: int, i: nat)
    requires 2 * i <= top < |d|
    ensures Picks(d, top, i + 1) == Picks(d, top, i) + [d[top - 2 * i]]
  {
  }

  /** `dealCards`: three rounds of two pops into faceDown, three into faceUp,
      three into hand, the player before the bot each time. */
  method DealCards(deck: Deck, player: Player, bot: Player)
    requires |deck.cards| >= 18 && player != bot
    modifies deck, player, bot
    ensures Table(deck.cards, player.View(), bot.View())
         == Dealt(old(deck.cards), old(player.View()), old(bot.View()))
  {
    ghost var d := deck.cards;
    ghost var n := |d|;
    DealFaceDown(deck, player, bot, d, n);
    DealFaceUp(deck, player, bot, d, n - 6);
    DealHand(deck, player, bot, d, n - 12);
  }

  /** The first loop of `dealCards`, on a deck that is the prefix `d[..m]`. */
  method DealFaceDown(deck: Deck, player: Player, bot: Player, ghost d: seq<Card>, ghost m: nat)
    requires 6 <= m <= |d| && deck.cards == d[..m] && player != bot
    modifies deck, player, bot
    ensures deck.cards == d[..m - 6]
    ensures player.View() == old(player.View()).(faceDown := old(player.faceDown) + Picks(d, m - 1, 3))
    ensures bot.View() == old(bot.View()).(faceDown := old(bot.faceDown) + Picks(d, m - 2, 3))
  {
    ghost var p0, b0 := player.faceDown, bot.faceDown;
    for i := 0 to 3
      invariant deck.cards == d[..m - 2 * i]
      invariant player.faceDown == p0 + Picks(d, m - 1, i)
      invariant bot.faceDown == b0 + Picks(d, m - 2, i)
      invariant unchanged(player`hand, player`faceUp, bot`hand, bot`faceUp)
    {
      PicksStep(d, m - 1, i);
      PicksStep(d, m - 2, i);
      var c := deck.Pop();
      player.faceDown := player.faceDown + [c];
      c := deck.Pop();
      bot.faceDown := bot.faceDown + [c];
    }
  }

  /** The second loop of `dealCards`. */
  method DealFaceUp(deck: Deck, player: Player, bot: Player, ghost d: seq<Card>, ghost m: nat)
    requires 6 <= m <= |d| && deck.cards == d[..m] && player != bot
    modifies deck, player, bot
    ensures deck.cards == d[..m - 6]
    ensures player.View() == old(player.View()).(faceUp := old(player.faceUp) + Picks(d, m - 1, 3))
    ensures bot.View() == old(bot.View()).(faceUp := old(bot.faceUp) + Picks(d, m - 2, 3))
  {
    ghost var p0, b0 := player.faceUp, bot.faceUp;
    for i := 0 to 3
      invariant deck.cards == d[..m - 2 * i]
      invariant player.faceUp == p0 + Picks(d, m - 1, i)
      invariant bot.faceUp == b0 + Picks(d, m - 2, i)
      invariant unchanged(player`hand, player`faceDown, bot`hand, bot`faceDown)
    {
      PicksStep(d, m - 1, i);
      PicksStep(d, m - 2, i);
      var c := deck.Pop();
      player.faceUp := player.faceUp + [c];
      c := deck.Pop();
      bot.faceUp := bot.faceUp + [c];
    }
  }

  /** The third loop of `dealCards`. */
  method DealHand(deck: Deck, player: Player, bot: Player, ghost d: seq<Card>, ghost m: nat)
    requires 6 <= m <= |d| && deck.cards == d[..m] && player != bot
    modifies deck, player, bot
    ensures deck.cards == d[..m - 6]
    ensures player.View() == old(player.View()).(hand := old(player.hand) + Picks(d, m - 1, 3))
    ensures bot.View() == old(bot.View()).(hand := old(bot.hand) + Picks(d, m - 2, 3))
  {
    ghost var p0, b0 := player.hand, bot.hand;
    for i := 0 to 3
      invariant deck.cards == d[..m - 2 * i]
      invariant player.hand == p0 + Picks(d, m - 1, i)
      invariant bot.hand == b0 + Picks(d, m - 2, i)
      invariant unchanged(player`faceUp, player`faceDown, bot`faceUp, bot`faceDown)
    {
      PicksStep(d, m - 1, i);
      PicksStep(d, m - 2, i);
      var c := deck.Pop();
      player.hand := player.hand + [c];
      c := deck.Pop();
      bot.hand := bot.hand + [c];
    }
  }
}
