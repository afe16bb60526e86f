/** The move rules shared by the human and the bot (card comparison, the
    last-card exception, four of a kind, the per-zone move list) and the
    bot's greedy policy. */
module Rules {
  import opened Options
  import opened Constants
  import opened Decks

  predicate IsClearRank(r: Rank) {
    r in ClearPileRanks
  }

  // ---------------------------------------------------------------------
  // Comparing cards

  /** May `card1` go on `card2`? With no `card2` (an empty pile) or a
      clearing `card1` always; otherwise by strength, ignoring suits. */
  function CompareCards(card1: Card, card2: Option<Card>): (r: bool)
    ensures card2.None? ==> r
    ensures card1.rank == Six || card1.rank == Ten ==> r
  {
    if card2.None? then true
    else if IsClearRank(card1.rank) then true
    else RankIndex(card1.rank) >= RankIndex(card2.value.rank)
  }

  /** The comparison in terms of `RANK_ORDER.indexOf`: a 6 or a 10 goes on
      anything, any other card on a card at most as far along the order. */
  lemma {:induction false} CompareCardsByIndexOf(card1: Card, card2: Card)
    ensures CompareCards(card1, Some(card2))
        <==> (card1.rank == Six || card1.rank == Ten
              || IndexOf(RankOrder, card1.rank) >= IndexOf(RankOrder, card2.rank))
  {
    CompareByRankIndex(card1, card2);
    RankIndexIsIndexOf(card1.rank);
    RankIndexIsIndexOf(card2.rank);
  }

  /** The same with the strength table. */
  lemma CompareByRankIndex(card1: Card, card2: Card)
    ensures CompareCards(card1, Some(card2))
        <==> (card1.rank == Six || card1.rank == Ten || RankIndex(card1.rank) >= RankIndex(card2.rank))
  {
  }

  /** Since 6 and 10 are the two strongest ranks, only a 6 or a 10 may go on
      a 6 or a 10. */
  lemma {:induction false} OnlyClearRanksOnClearRanks(card1: Card, card2: Card)
    requires card2.rank == Six || card2.rank == Ten
    ensures CompareCards(card1, Some(card2)) <==> card1.rank == Six || card1.rank == Ten
  {
    CompareByRankIndex(card1, card2);
  }

  /** Suits are never read. */
  lemma CompareIgnoresSuits(card1: Card, card2: Card, s1: Suit, s2: Suit)
    ensures CompareCards(card1, Some(card2))
        == CompareCards(Card(s1, card1.rank), Some(Card(s2, card2.rank)))
  {
  }

  /** The comparison is a total preorder on cards: every card goes on its
      own rank, of two cards one always goes on the other, and it chains. */
  lemma {:induction false} CompareIsTotalPreorder(a: Card, b: Card, c: Card)
    ensures CompareCards(a, Some(a))
    ensures CompareCards(a, Some(b)) || CompareCards(b, Some(a))
    ensures CompareCards(a, Some(b)) && CompareCards(b, Some(c)) ==> CompareCards(a, Some(c))
  {
    CompareCardsByIndexOf(a, a);
    CompareCardsByIndexOf(a, b);
    CompareCardsByIndexOf(b, a);
    CompareCardsByIndexOf(b, c);
    CompareCardsByIndexOf(a, c);
  }

  /** `canPlayCard`: a jack is always playable as a participant's last card;
      anything goes on an empty pile; otherwise the comparison decides. */
  function CanPlayCard(card: Card, topCard: Option<Card>, isLastCard: bool): (r: bool)
    ensures isLastCard && card.rank == Jack ==> r
    ensures topCard.None? ==> r
    ensures !(isLastCard && card.rank == Jack) ==> r == CompareCards(card, topCard)
  {
    if isLastCard && card.rank == Jack then true
    else topCard.None? || CompareCards(card, topCard)
  }

  lemma {:induction false} CanPlayCardExamples(s: Suit, t: Suit)
    ensures !CanPlayCard(Card(s, Two), Some(Card(t, Three)), false)
    ensures CanPlayCard(Card(s, Three), Some(Card(t, Two)), false)
    ensures CanPlayCard(Card(s, Jack), Some(Card(t, Ace)), true)
    ensures !CanPlayCard(Card(s, Jack), Some(Card(t, Ace)), false)
  {
  }

  // ---------------------------------------------------------------------
  // Clearing the pile

  /** `checkForFourOfAKind`: the last four cards of the pile share a rank. */
  function CheckForFourOfAKind(pile: seq<Card>): (r: bool)
    ensures r <==> |pile| >= 4 && pile[|pile| - 1].rank == pile[|pile| - 2].rank
                              == pile[|pile| - 3].rank == pile[|pile| - 4].rank
  {
    if |pile| < 4 then false
    else
      var lastFour := pile[|pile| - 4..];
      assert lastFour == [lastFour[0], lastFour[1], lastFour[2], lastFour[3]];
      forall c | c in lastFour :: c.rank == lastFour[0].rank
  }

  /** Playing `card` completes four of a kind exactly when the three cards
      under it already have its rank. */
  lemma FourOfAKindAfterPlay(pile: seq<Card>, card: Card)
    ensures CheckForFourOfAKind(pile + [card])
        <==> |pile| >= 3 && forall k :: |pile| - 3 <= k < |pile| ==> pile[k].rank == card.rank
  {
    var p := pile + [card];
    if |pile| >= 3 && forall k :: |pile| - 3 <= k < |pile| ==> pile[k].rank == card.rank {
      assert p[|p| - 2] == pile[|pile| - 1] && p[|p| - 3] == pile[|pile| - 2] && p[|p| - 4] == pile[|pile| - 3];
    }
  }

  /** Only the last four cards matter: what lies under them never does. */
  lemma FourOfAKindLooksAtLastFour(under: seq<Card>, top: seq<Card>)
    requires |top| >= 4
    ensures CheckForFourOfAKind(under + top) == CheckForFourOfAKind(top)
  {
    var p := under + top;
    assert p[|p| - 1] == top[|top| - 1] && p[|p| - 2] == top[|top| - 2];
    assert p[|p| - 3] == top[|top| - 3] && p[|p| - 4] == top[|top| - 4];
  }

  /** `shouldClearPile`: a 6 or a 10 was played, or four of a kind lies on
      top. */
  function ShouldClearPile(card: Card, pile: seq<Card>): (r: bool)
    ensures r <==> card.rank == Six || card.rank == Ten || CheckForFourOfAKind(pile)
  {
    IsClearRank(card.rank) || CheckForFourOfAKind(pile)
  }

  // ---------------------------------------------------------------------
  // The move list shown for a participant

  datatype Move = Move(card: Card, index: nat, valid: bool)

  datatype ValidMoves = ValidMoves(hand: seq<Move>, faceUp: seq<Move>, faceDown: bool)

  /** `cards.map((card, index) => ({card, index, valid}))`, without the
      last-card exception. */
  function MovesOf(cards: seq<Card>, topCard: Option<Card>): (m: seq<Move>)
    ensures |m| == |cards|
    ensures forall i :: 0 <= i < |m| ==>
      m[i].card == cards[i] && m[i].index == i && m[i].valid == CanPlayCard(cards[i], topCard, false)
  {
    seq(|cards|, i requires 0 <= i < |cards| => Move(cards[i], i, CanPlayCard(cards[i], topCard, false)))
  }

  /** `getValidMoves`: the moves of the zone that is in play, hand first,
      then faceUp, and a flag for a blind faceDown play. */
  function GetValidMoves(player: Zones, topCard: Option<Card>): (v: ValidMoves)
    ensures v.faceDown <==> player.faceDown != [] && player.hand == [] && player.faceUp == []
    ensures v.hand != [] <==> player.hand != []
    ensures v.faceUp != [] <==> player.hand == [] && player.faceUp != []
    ensures v.hand != [] ==> v.hand == MovesOf(player.hand, topCard)
    ensures v.faceUp != [] ==> v.faceUp == MovesOf(player.faceUp, topCard)
  {
    var faceDown := |player.faceDown| > 0 && |player.hand| == 0 && |player.faceUp| == 0;
    if |player.hand| > 0 then ValidMoves(MovesOf(player.hand, topCard), [], faceDown)
    else if |player.faceUp| > 0 then ValidMoves([], MovesOf(player.faceUp, topCard), faceDown)
    else ValidMoves([], [], faceDown)
  }

  /** At most one zone is offered, and a participant holding any card is
      offered exactly one. */
  lemma OneZoneOffered(player: Zones, topCard: Option<Card>)
    ensures var v := GetValidMoves(player, topCard);
      var offered := (if v.hand != [] then 1 else 0) + (if v.faceUp != [] then 1 else 0)
                   + (if v.faceDown then 1 else 0);
      offered == if Holding(player) == multiset{} then 0 else 1
  {
  }

  // ---------------------------------------------------------------------
  // Finding a card for the bot

  /** The position of the first playable card, if any. */
  function FirstPlayable(cards: seq<Card>, topCard: Option<Card>, isLastCard: bool): (r: Option<nat>)
    ensures r.None? <==> forall i :: 0 <= i < |cards| ==> !CanPlayCard(cards[i], topCard, isLastCard)
    ensures r.Some? ==> r.value < |cards| && CanPlayCard(cards[r.value], topCard, isLastCard)
    ensures r.Some? ==> forall i :: 0 <= i < r.value ==> !CanPlayCard(cards[i], topCard, isLastCard)
  {
    if cards == [] then None
    else if CanPlayCard(cards[0], topCard, isLastCard) then Some(0)
    else
      match FirstPlayable(cards[1..], topCard, isLastCard)
      case None => None
      case Some(k) => Some(k + 1)
  }

  datatype Found = Found(card: Card, index: nat)

  /** `findPlayableCard`: scans the cards in order and stops at the first
      playable one. */
  method FindPlayableCard(cards: seq<Card>, topCard: Option<Card>, isLastCard: bool)
    returns (result: Option<Found>)
    ensures result.Some? ==> result.value.index < |cards| && result.value.card == cards[result.value.index]
    ensures FirstPlayable(cards, topCard, isLastCard)
         == if result.Some? then Some(result.value.index) else None
  {
    var i := 0;
    while i < |cards|
      invariant 0 <= i <= |cards|
      invariant forall k :: 0 <= k < i ==> !CanPlayCard(cards[k], topCard, isLastCard)
    {
      if CanPlayCard(cards[i], topCard, isLastCard) {
        FirstPlayableIsFirst(cards, topCard, isLastCard, i);
        return Some(Found(cards[i], i));
      }
      i := i + 1;
    }
    return None;
  }

  lemma FirstPlayableIsFirst(cards: seq<Card>, topCard: Option<Card>, isLastCard: bool, i: nat)
    requires i < |cards| && CanPlayCard(cards[i], topCard, isLastCard)
    requires forall k :: 0 <= k < i ==> !CanPlayCard(cards[k], topCard, isLastCard)
    ensures FirstPlayable(cards, topCard, isLastCard) == Some(i)
  {
  }

  // ---------------------------------------------------------------------
  // Drawing and the bot's move

  datatype Drawn = Drawn(hand: seq<Card>, deck: seq<Card>)

  /** `if (deck.length > 0 && hand.length < 3) hand.push(deck.pop())`. */
  function Draw(hand: seq<Card>, deck: seq<Card>): (r: Drawn)
    ensures multiset(r.hand) + multiset(r.deck) == multiset(hand) + multiset(deck)
    ensures deck != [] && |hand| < 3 ==> r.hand == hand + [deck[|deck| - 1]] && r.deck + [deck[|deck| - 1]] == deck
    ensures !(deck != [] && |hand| < 3) ==> r.hand == hand && r.deck == deck
  {
    if |deck| > 0 && |hand| < 3 then
      assert deck == deck[..|deck| - 1] + [deck[|deck| - 1]];
      Drawn(hand + [deck[|deck| - 1]], deck[..|deck| - 1])
    else
      Drawn(hand, deck)
  }

  /** The card drawn is the last one of the deck, which loses it. */
  lemma DrawTakesLast(hand: seq<Card>, deck: seq<Card>)
    requires deck != [] && |hand| < 3
    ensures Draw(hand, deck) == Drawn(hand + [deck[|deck| - 1]], deck[..|deck| - 1])
  {
  }

  datatype BotOutcome = BotOutcome(played: Option<Card>, bot: Zones, deck: seq<Card>)

  predicate IsLastCard(z: Zones) {
    |z.hand| + |z.faceUp| + |z.faceDown| == 1
  }

  /** What `botPlay` does: play the first playable hand card and draw, or
      if the hand is empty the first playable faceUp card, or if both are
      empty the last faceDown card unseen. */
  function BotMove(bot: Zones, pile: seq<Card>, deck: seq<Card>): BotOutcome {
    var topCard := Last(pile);
    var isLastCard := IsLastCard(bot);
    if |bot.hand| > 0 then
      match FirstPlayable(bot.hand, topCard, isLastCard)
      case None => BotOutcome(None, bot, deck)
      case Some(i) =>
        var drawn := Draw(RemoveAt(bot.hand, i), deck);
        BotOutcome(Some(bot.hand[i]), bot.(hand := drawn.hand), drawn.deck)
    else if |bot.faceUp| > 0 then
      match FirstPlayable(bot.faceUp, topCard, isLastCard)
      case None => BotOutcome(None, bot, deck)
      case Some(i) => BotOutcome(Some(bot.faceUp[i]), bot.(faceUp := RemoveAt(bot.faceUp, i)), deck)
    else if |bot.faceDown| > 0 then
      var n := |bot.faceDown|;
      BotOutcome(Some(bot.faceDown[n - 1]), bot.(faceDown := bot.faceDown[..n - 1]), deck)
    else
      BotOutcome(None, bot, deck)
  }

  /** Zone priority: a non-empty hand is the only zone looked at, even when
      none of its cards can be played; faceUp only with an empty hand; the
      last faceDown card only when both are empty, and then unconditionally. */
  lemma BotMoveZonePriority(bot: Zones, pile: seq<Card>, deck: seq<Card>)
    ensures var o := BotMove(bot, pile, deck);
      var playable := (cards: seq<Card>) =>
        exists i :: 0 <= i < |cards| && CanPlayCard(cards[i], Last(pile), IsLastCard(bot));
      && (bot.hand != [] ==>
            o.bot.faceUp == bot.faceUp && o.bot.faceDown == bot.faceDown
            && (o.played.Some? <==> playable(bot.hand)))
      && (bot.hand == [] && bot.faceUp != [] ==>
            o.bot.hand == bot.hand && o.bot.faceDown == bot.faceDown && o.deck == deck
            && (o.played.Some? <==> playable(bot.faceUp)))
      && (bot.hand == [] && bot.faceUp == [] && bot.faceDown != [] ==>
            o.played == Some(bot.faceDown[|bot.faceDown| - 1])
            && o.bot == bot.(faceDown := bot.faceDown[..|bot.faceDown| - 1]) && o.deck == deck)
      && (Holding(bot) == multiset{} ==> o.played.None?)
  {
  }

  /** When the bot finds nothing to play, nothing changes. */
  lemma BotMoveNothingChangesWithoutPlay(bot: Zones, pile: seq<Card>, deck: seq<Card>)
    ensures var o := BotMove(bot, pile, deck);
      o.played.None? ==> o.bot == bot && o.deck == deck
  {
  }

  /** A card the bot picks from hand or faceUp is legal, the last-card
      exception included; it came from the zone in play. */
  lemma BotMovePlaysLegally(bot: Zones, pile: seq<Card>, deck: seq<Card>)
    ensures var o := BotMove(bot, pile, deck);
      o.played.Some? && (bot.hand != [] || bot.faceUp != []) ==>
        && CanPlayCard(o.played.value, Last(pile), IsLastCard(bot))
        && o.played.value in (if bot.hand != [] then bot.hand else bot.faceUp)
  {
  }

  /** The deck loses at most its last card, and only to a hand play that
      left fewer than three cards in hand. */
  lemma BotMoveDrawsAtMostOne(bot: Zones, pile: seq<Card>, deck: seq<Card>)
    ensures var o := BotMove(bot, pile, deck);
      || o.deck == deck
      || (&& bot.hand != [] && o.played.Some? && deck != []
          && |bot.hand| - 1 < 3
          && o.deck + [deck[|deck| - 1]] == deck
          && o.bot.hand[|o.bot.hand| - 1] == deck[|deck| - 1])
  {
  }

  /** The bot's cards and the deck lose exactly the card it plays. */
  lemma BotMoveConserves(bot: Zones, pile: seq<Card>, deck: seq<Card>)
    ensures var o := BotMove(bot, pile, deck);
      Holding(o.bot) + multiset(o.deck)
        + (if o.played.Some? then multiset{o.played.value} else multiset{})
        == Holding(bot) + multiset(deck)
  {
    var o := BotMove(bot, pile, deck);
    var topCard := Last(pile);
    var isLastCard := IsLastCard(bot);
    if |bot.hand| > 0 {
      var f := FirstPlayable(bot.hand, topCard, isLastCard);
      if f.Some? {
        var drawn := Draw(RemoveAt(bot.hand, f.value), deck);
        assert o == BotOutcome(Some(bot.hand[f.value]), bot.(hand := drawn.hand), drawn.deck);
        HandPlayConserves(bot, f.value, deck);
      } else {
        assert o == BotOutcome(None, bot, deck);
      }
    } else if |bot.faceUp| > 0 {
      var f := FirstPlayable(bot.faceUp, topCard, isLastCard);
      if f.Some? {
        assert o == BotOutcome(Some(bot.faceUp[f.value]), bot.(faceUp := RemoveAt(bot.faceUp, f.value)), deck);
        FaceUpPlayConserves(bot, f.value);
      } else {
        assert o == BotOutcome(None, bot, deck);
      }
    } else if |bot.faceDown| > 0 {
      var n := |bot.faceDown|;
      assert o == BotOutcome(Some(bot.faceDown[n - 1]), bot.(faceDown := bot.faceDown[..n - 1]), deck);
      FaceDownPlayConserves(bot);
    } else {
      assert o == BotOutcome(None, bot, deck);
    }
  }

  lemma HandPlayConserves(bot: Zones, i: nat, deck: seq<Card>)
    requires i < |bot.hand|
    ensures var drawn := Draw(RemoveAt(bot.hand, i), deck);
      Holding(bot.(hand := drawn.hand)) + multiset(drawn.deck) + multiset{bot.hand[i]}
        == Holding(bot) + multiset(deck)
  {
    var rest := RemoveAt(bot.hand, i);
    var drawn := Draw(rest, deck);
    assert multiset(rest) + multiset{bot.hand[i]} == multiset(bot.hand);
  }

  lemma FaceUpPlayConserves(bot: Zones, i: nat)
    requires i < |bot.faceUp|
    ensures Holding(bot.(faceUp := RemoveAt(bot.faceUp, i))) + multiset{bot.faceUp[i]} == Holding(bot)
  {
    var rest := RemoveAt(bot.faceUp, i);
    assert multiset(rest) + multiset{bot.faceUp[i]} == multiset(bot.faceUp);
  }

  lemma FaceDownPlayConserves(bot: Zones)
    requires bot.faceDown != []
    ensures var n := |bot.faceDown|;
      Holding(bot.(faceDown := bot.faceDown[..n - 1])) + multiset{bot.faceDown[n - 1]} == Holding(bot)
  {
    var n := |bot.faceDown|;
    assert bot.faceDown == bot.faceDown[..n - 1] + [bot.faceDown[n - 1]];
  }

  /** `botPlay`: the bot's move, made in place on its zones and the deck. */
  method BotPlay(bot: Player, pile: seq<Card>, deck: Deck) returns (playedCard: Option<Card>)
    modifies bot, deck
    ensures BotOutcome(playedCard, bot.View(), deck.cards) == BotMove(old(bot.View()), pile, old(deck.cards))
  {
    var topCard := Last(pile);
    var isLastCard := |bot.hand| + |bot.faceUp| + |bot.faceDown| == 1;
    ghost var z, d := bot.View(), deck.cards;
    assert isLastCard == IsLastCard(z);
    playedCard := None;

    if |bot.hand| > 0 {
      var result := FindPlayableCard(bot.hand, topCard, isLastCard);
      if result.Some? {
        var i := result.value.index;
        playedCard := Some(result.value.card);
        bot.hand := RemoveAt(bot.hand, i);
        if |deck.cards| > 0 && |bot.hand| < 3 {
          var c := deck.Pop();
          bot.hand := bot.hand + [c];
        }
        assert Draw(RemoveAt(z.hand, i), d) == Drawn(bot.hand, deck.cards);
        BotMovePlays(z, pile, d, i);
      } else {
        BotMovePasses(z, pile, d);
      }
    } else if |bot.faceUp| > 0 {
      var result := FindPlayableCard(bot.faceUp, topCard, isLastCard);
      if result.Some? {
        playedCard := Some(result.value.card);
        bot.faceUp := RemoveAt(bot.faceUp, result.value.index);
        BotMovePlays(z, pile, d, result.value.index);
      } else {
        BotMovePasses(z, pile, d);
      }
    } else if |bot.faceDown| > 0 {
      var n := |bot.faceDown|;
      playedCard := Some(bot.faceDown[n - 1]);
      bot.faceDown := bot.faceDown[..n - 1];
    }
  }

  /** BotMove once the first playable card of the zone in play is known. */
  lemma BotMovePlays(bot: Zones, pile: seq<Card>, deck: seq<Card>, i: nat)
    requires bot.hand != [] ==> FirstPlayable(bot.hand, Last(pile), IsLastCard(bot)) == Some(i)
    requires bot.hand == [] ==> bot.faceUp != [] && FirstPlayable(bot.faceUp, Last(pile), IsLastCard(bot)) == Some(i)
    ensures bot.hand != [] ==>
      var drawn := Draw(RemoveAt(bot.hand, i), deck);
      BotMove(bot, pile, deck) == BotOutcome(Some(bot.hand[i]), bot.(hand := drawn.hand), drawn.deck)
    ensures bot.hand == [] ==>
      BotMove(bot, pile, deck) == BotOutcome(Some(bot.faceUp[i]), bot.(faceUp := RemoveAt(bot.faceUp, i)), deck)
  {
  }

  /** BotMove when the zone in play has no playable card. */
  lemma BotMovePasses(bot: Zones, pile: seq<Card>, deck: seq<Card>)
    requires bot.hand != [] ==> FirstPlayable(bot.hand, Last(pile), IsLastCard(bot)).None?
    requires bot.hand == [] ==> bot.faceUp != [] && FirstPlayable(bot.faceUp, Last(pile), IsLastCard(bot)).None?
    ensures BotMove(bot, pile, deck) == BotOutcome(None, bot, deck)
  {
  }
}
