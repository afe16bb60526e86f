/** The offline game page: one human against the bot. The page keeps the
    whole game in one state object whose card arrays it changes in place;
    its handlers are the card play, the card selection (legality check in
    front of the play), the bot's turn, picking up the pile, the win check
    and the special-card effects. */
module Offline {
  import opened Options
  import opened Constants
  import opened Decks
  import opened Rules

  /** `currentPlayer`: 'player' or 'bot'. */
  datatype Side = PlayerSide | BotSide

  /** The `from` argument of a play: 'hand', 'faceUp', and everything else,
      which the page treats as faceDown ('faceDown' itself, and 'pile' when
      a pile card is clicked). */
  datatype Zone = Hand | FaceUp | FaceDown

  /** The status line, one constructor per text the page shows. */
  datatype Message =
    | NewGamePrompt        // "Your turn. Click a card to play or pick up if you can't play."
    | YourTurn             // "Your turn."
    | BotsTurn             // "Bot's turn."
    | InvalidMove          // "Invalid move. Pick up the pile if you can't play."
    | PileReset(rank: Rank)    // "Played a 6. Pile reset. Play any card."
    | PileCleared(rank: Rank)  // "Played a 10. Pile cleared. Play again."
    | FourOfAKindCleared   // "Four identical cards. Pile cleared. Play again."
    | NoMessage            // ''
    | BotPickedUp          // "Bot picked up the pile."
    | PlayerPickedUp       // "You picked up the pile. Bot's turn."
    | PlayerWins           // "Congratulations! You win!"
    | BotWins              // "Game over. Bot wins!"

  /** The page's own special ranks: 6 resets, 10 clears. */
  const ResetRanks: seq<Rank> := [Six]
  const ClearRanks: seq<Rank> := [Ten]

  // ---------------------------------------------------------------------
  // Special cards

  datatype Effect = Effect(clearPile: bool, extraTurn: bool, message: Message)

  /** `handleSpecialCards`: a 6 clears the pile without an extra turn, a 10
      or four of a kind on top clears it with one; this is the clearing rule
      of the rules module, and only a 6 denies the extra turn. */
  function HandleSpecialCards(card: Card, newPile: seq<Card>): (e: Effect)
    ensures e.clearPile <==> ShouldClearPile(card, newPile)
    ensures e.extraTurn <==> e.clearPile && card.rank != Six
    ensures !e.clearPile <==> e.message == NoMessage
  {
    if card.rank in ResetRanks then Effect(true, false, PileReset(card.rank))
    else if card.rank in ClearRanks then Effect(true, true, PileCleared(card.rank))
    else if CheckForFourOfAKind(newPile) then Effect(true, true, FourOfAKindCleared)
    else Effect(false, false, NoMessage)
  }

  // ---------------------------------------------------------------------
  // The page's own legality check

  predicate IsFaceRank(r: Rank) {
    r == Jack || r == Queen || r == King || r == Ace
  }

  /** `Number.parseInt(rank)`: the number ranks give their value, the face
      ranks 'J', 'Q', 'K', 'A' give NaN. */
  function ParseInt(r: Rank): (n: Option<int>)
    ensures n.None? <==> IsFaceRank(r)
    ensures n.Some? ==> n.value == Face(r) + 2 && 2 <= n.value <= 10
  {
    match r
    case Two => Some(2)
    case Three => Some(3)
    case Four => Some(4)
    case Five => Some(5)
    case Six => Some(6)
    case Seven => Some(7)
    case Eight => Some(8)
    case Nine => Some(9)
    case Ten => Some(10)
    case _ => None
  }

  /** `NaN >= x` and `x >= NaN` are both false in JavaScript. */
  function ParsedAtLeast(a: Option<int>, b: Option<int>): (r: bool)
    ensures r <==> a.Some? && b.Some? && a.value >= b.value
  {
    match (a, b)
    case (Some(x), Some(y)) => x >= y
    case _ => false
  }

  /** The page's `canPlayCard`: anything on an empty pile, a 6 or a 10 on
      anything, otherwise the parsed numbers compare, so a face card is
      never playable and nothing but a 6 or a 10 goes on a face card. */
  function LocalCanPlayCard(card: Card, topCard: Option<Card>): (r: bool)
    ensures r <==> || topCard.None?
                   || card.rank == Six || card.rank == Ten
                   || (&& !IsFaceRank(card.rank) && !IsFaceRank(topCard.value.rank)
                       && Face(card.rank) >= Face(topCard.value.rank))
  {
    if topCard.None? then true
    else if card.rank in ResetRanks || card.rank in ClearRanks then true
    else ParsedAtLeast(ParseInt(card.rank), ParseInt(topCard.value.rank))
  }

  /** On number cards, and with no 6 or 10 on top, the page's check and the
      rules module's agree (without the last-card jack, which is a face
      card). */
  lemma {:induction false} LocalRuleAgreesOnNumbers(card: Card, top: Card)
    requires !IsFaceRank(card.rank) && !IsFaceRank(top.rank)
    requires top.rank != Six && top.rank != Ten
    ensures LocalCanPlayCard(card, Some(top)) == CanPlayCard(card, Some(top), false)
  {
    if card.rank != Six && card.rank != Ten {
      RankOrderKeepsPrintedOrder(card.rank, top.rank);
    }
  }

  /** A face card is never playable by the human on a non-empty pile, and
      on a face card only a 6 or a 10 is, unlike the rules module's order
      where an ace beats a king. */
  lemma LocalRuleRejectsFaceCards(card: Card, top: Card)
    ensures IsFaceRank(card.rank) ==> !LocalCanPlayCard(card, Some(top))
    ensures IsFaceRank(top.rank) ==>
      (LocalCanPlayCard(card, Some(top)) <==> card.rank == Six || card.rank == Ten)
  {
  }

  /** The page's check is not total: of a queen and a king neither may go
      on the other, while the rules module lets the king go on the queen. */
  lemma {:induction false} LocalRuleIsNotTotal(s: Suit, t: Suit)
    ensures !LocalCanPlayCard(Card(s, King), Some(Card(t, Queen)))
    ensures !LocalCanPlayCard(Card(t, Queen), Some(Card(s, King)))
    ensures CanPlayCard(Card(s, King), Some(Card(t, Queen)), false)
  {
  }

  // ---------------------------------------------------------------------
  // Winning

  /** `checkWinCondition`: all three zones are empty. */
  function CheckWinCondition(z: Zones): (r: bool)
    ensures r <==> Holding(z) == multiset{}
  {
    |z.hand| == 0 && |z.faceUp| == 0 && |z.faceDown| == 0
  }

  // ---------------------------------------------------------------------
  // The game state and its transitions

  datatype GameState = GameState(
    deck: seq<Card>,
    player: Zones,
    bot: Zones,
    pile: seq<Card>,
    currentPlayer: Side,
    gameOver: bool,
    message: Message)

  /** Every card in the game: deck, both participants and the pile. */
  function Total(s: GameState): (m: multiset<Card>)
    ensures |m| == |s.deck| + |Holding(s.player)| + |Holding(s.bot)| + |s.pile|
  {
    multiset(s.deck) + Holding(s.player) + Holding(s.bot) + multiset(s.pile)
  }

  /** No card is in the game twice. */
  ghost predicate AtMostOnce(s: GameState) {
    forall c: Card :: Total(s)[c] <= 1
  }

  /** A 6 or a 10 never stays on the pile: each clears it when played. */
  ghost predicate PileHasNoClearRank(s: GameState) {
    forall i :: 0 <= i < |s.pile| ==> s.pile[i].rank != Six && s.pile[i].rank != Ten
  }

  /** `startNewGame`: a shuffled deck dealt to a fresh player and bot, an
      empty pile, the human to move. */
  function NewGame(rolls: seq<nat>): GameState
    requires ValidRolls(rolls, 52)
  {
    var t := Dealt(Shuffled(OrderedDeck(), rolls), Zones([], [], []), Zones([], [], []));
    GameState(t.deck, t.player, t.bot, [], PlayerSide, false, NewGamePrompt)
  }

  /** A new game holds each of the 52 cards exactly once: 34 in the deck
      and three in every zone of each side; the pile is empty and the human
      moves first. */
  lemma {:induction false} NewGameDeals(rolls: seq<nat>)
    requires ValidRolls(rolls, 52)
    ensures var s := NewGame(rolls);
      && |s.deck| == 34 && s.pile == [] && s.currentPlayer == PlayerSide && !s.gameOver
      && |s.player.hand| == |s.player.faceUp| == |s.player.faceDown| == 3
      && |s.bot.hand| == |s.bot.faceUp| == |s.bot.faceDown| == 3
      && (forall c: Card :: Total(s)[c] == 1)
      && AtMostOnce(s) && PileHasNoClearRank(s)
  {
    var d := Shuffled(OrderedDeck(), rolls);
    var empty := Zones([], [], []);
    DealtSizes(d, empty, empty);
    DealtConserves(d, empty, empty);
    OrderedDeckOnce();
    var s := NewGame(rolls);
    assert Total(s) == multiset(d);
  }

  /** The cards of one zone. */
  function ZoneCards(z: Zones, from: Zone): seq<Card> {
    match from
    case Hand => z.hand
    case FaceUp => z.faceUp
    case FaceDown => z.faceDown
  }

  /** `player[from].splice(cardIndex, 1)`. */
  function Spliced(z: Zones, index: nat, from: Zone): Zones {
    match from
    case Hand => z.(hand := RemoveAt(z.hand, index))
    case FaceUp => z.(faceUp := RemoveAt(z.faceUp, index))
    case FaceDown => z.(faceDown := RemoveAt(z.faceDown, index))
  }

  /** The splice takes exactly the indexed card out of its zone, or nothing
      when the index is past the end. */
  lemma SplicedTakesOne(z: Zones, index: nat, from: Zone)
    ensures index < |ZoneCards(z, from)| ==>
      Holding(Spliced(z, index, from)) + multiset{ZoneCards(z, from)[index]} == Holding(z)
    ensures index >= |ZoneCards(z, from)| ==> Spliced(z, index, from) == z
  {
  }

  /** The cards a play removes from the game: the pile and the played card
      when the play clears the pile, none otherwise. */
  function Discarded(pile: seq<Card>, card: Card): multiset<Card> {
    if ShouldClearPile(card, pile + [card]) then multiset(pile + [card]) else multiset{}
  }

  /** The middle of `handleCardPlay`: the card goes on the pile and takes
      its effect; unless it cleared the pile with an extra turn the bot
      moves next. */
  function PlayerPlacesCard(s: GameState, card: Card): GameState {
    var newPile := s.pile + [card];
    var e := HandleSpecialCards(card, newPile);
    if e.clearPile then
      s.(pile := [], message := e.message,
         currentPlayer := if e.extraTurn then s.currentPlayer else BotSide)
    else
      s.(pile := newPile, currentPlayer := BotSide, message := BotsTurn)
  }

  /** The human draws up to three cards. */
  function PlayerDraws(s: GameState): GameState {
    var drawn := Draw(s.player.hand, s.deck);
    s.(player := s.player.(hand := drawn.hand), deck := drawn.deck)
  }

  /** The human's win check. */
  function PlayerWinCheck(s: GameState): GameState {
    if CheckWinCondition(s.player) then s.(gameOver := true, message := PlayerWins) else s
  }

  /** `handleCardPlay`: the card at the index leaves the named zone, `card`
      goes on the pile and takes its effect, the human draws and the win is
      checked, in that order. */
  function AfterCardPlay(s: GameState, card: Card, index: nat, from: Zone): GameState {
    PlayerWinCheck(PlayerDraws(PlayerPlacesCard(s.(player := Spliced(s.player, index, from)), card)))
  }

  /** `handleCardSelection`: only on the human's turn, and only a card the
      page's check accepts is played; otherwise only the message changes. */
  function AfterSelection(s: GameState, card: Card, index: nat, from: Zone): GameState {
    if s.currentPlayer != PlayerSide then s
    else if LocalCanPlayCard(card, Last(s.pile)) then AfterCardPlay(s, card, index, from)
    else s.(message := InvalidMove)
  }

  /** The bot draws up to three cards. */
  function BotDraws(s: GameState): GameState {
    var drawn := Draw(s.bot.hand, s.deck);
    s.(bot := s.bot.(hand := drawn.hand), deck := drawn.deck)
  }

  /** The bot's win check. */
  function BotWinCheck(s: GameState): GameState {
    if CheckWinCondition(s.bot) then s.(gameOver := true, message := BotWins) else s
  }

  /** The end of the bot's turn: the human moves, the bot draws up to three
      and its win is checked. */
  function EndBotTurn(s: GameState): GameState {
    BotWinCheck(BotDraws(s.(currentPlayer := PlayerSide, message := YourTurn)))
  }

  /** The middle of `botTurn` once its card is known: a clearing play
      empties the pile, any other goes on it; the bot takes the pile when it
      has nothing to play. */
  function BotPlacesCard(s: GameState, played: Option<Card>): GameState {
    match played
    case Some(card) =>
      var newPile := s.pile + [card];
      var e := HandleSpecialCards(card, newPile);
      if e.clearPile then s.(pile := [], message := e.message) else s.(pile := newPile)
    case None =>
      s.(bot := s.bot.(hand := s.bot.hand + s.pile), pile := [], message := BotPickedUp)
  }

  /** Does the bot's play keep the turn: it cleared the pile with an extra
      turn? */
  predicate BotKeepsTurn(pile: seq<Card>, played: Option<Card>) {
    && played.Some?
    && var e := HandleSpecialCards(played.value, pile + [played.value]);
       e.clearPile && e.extraTurn
  }

  /** `botTurn`: the bot plays by its policy; a play that clears the pile
      with an extra turn returns at once (no hand-off, no draw, no win
      check), anything else ends the bot's turn. */
  function AfterBotTurn(s: GameState): GameState {
    AfterBotMove(s, BotMove(s.bot, s.pile, s.deck))
  }

  /** The rest of `botTurn` once `botPlay` has returned. */
  function AfterBotMove(s: GameState, o: BotOutcome): GameState {
    var s1 := BotPlacesCard(s.(bot := o.bot, deck := o.deck), o.played);
    if BotKeepsTurn(s.pile, o.played) then s1 else EndBotTurn(s1)
  }

  /** `handlePickUp`: the human takes the pile into hand and the bot moves. */
  function AfterPickUp(s: GameState): GameState {
    s.(player := s.player.(hand := s.player.hand + s.pile), pile := [],
       message := PlayerPickedUp, currentPlayer := BotSide)
  }

  // ---------------------------------------------------------------------
  // What the transitions keep

  lemma PlayerPlacesCardMoves(s: GameState, card: Card)
    ensures Total(PlayerPlacesCard(s, card)) + Discarded(s.pile, card) == Total(s) + multiset{card}
  {
  }

  lemma PlayerDrawsConserves(s: GameState)
    ensures Total(PlayerDraws(s)) == Total(s)
  {
    var t := PlayerDraws(s);
    assert Holding(t.player) + multiset(t.deck) == Holding(s.player) + multiset(s.deck);
  }

  lemma BotDrawsConserves(s: GameState)
    ensures Total(BotDraws(s)) == Total(s)
  {
    var t := BotDraws(s);
    assert Holding(t.bot) + multiset(t.deck) == Holding(s.bot) + multiset(s.deck);
  }

  /** A play moves the indexed card out of the named zone and `card` onto
      the pile; a clearing play removes the pile and the card from the game. */
  lemma {:induction false} CardPlayMovesCards(s: GameState, card: Card, index: nat, from: Zone)
    requires index < |ZoneCards(s.player, from)|
    ensures Total(AfterCardPlay(s, card, index, from)) + Discarded(s.pile, card)
              + multiset{ZoneCards(s.player, from)[index]}
         == Total(s) + multiset{card}
  {
    var c := ZoneCards(s.player, from)[index];
    var s1 := s.(player := Spliced(s.player, index, from));
    SpliceMoves(s, index, from);
    var s2 := PlayerPlacesCard(s1, card);
    PlayerPlacesCardMoves(s1, card);
    var s3 := PlayerDraws(s2);
    PlayerDrawsConserves(s2);
    WinChecksConserve(s3);
    MultisetChain(Total(s), Total(s1), Total(s2), Total(PlayerWinCheck(s3)),
                  Discarded(s.pile, card), multiset{c}, multiset{card});
  }

  lemma SpliceMoves(s: GameState, index: nat, from: Zone)
    requires index < |ZoneCards(s.player, from)|
    ensures Total(s.(player := Spliced(s.player, index, from))) + multiset{ZoneCards(s.player, from)[index]}
         == Total(s)
  {
    SplicedTakesOne(s.player, index, from);
  }

  lemma WinChecksConserve(s: GameState)
    ensures Total(PlayerWinCheck(s)) == Total(s) && Total(BotWinCheck(s)) == Total(s)
  {
  }

  /** Bookkeeping of a card moving through the steps of a play. */
  lemma MultisetChain<T>(a: multiset<T>, b: multiset<T>, c: multiset<T>, t: multiset<T>,
                         d: multiset<T>, x: multiset<T>, y: multiset<T>)
    requires b + x == a && c + d == b + y && t == c
    ensures t + d + x == a + y
  {
  }

  /** Playing the card at the index itself loses only what a clearing play
      discards. */
  lemma {:induction false} OwnCardPlayConserves(s: GameState, index: nat, from: Zone)
    requires index < |ZoneCards(s.player, from)|
    ensures var card := ZoneCards(s.player, from)[index];
      Total(AfterCardPlay(s, card, index, from)) + Discarded(s.pile, card) == Total(s)
  {
    var card := ZoneCards(s.player, from)[index];
    CardPlayMovesCards(s, card, index, from);
    MultisetCancel(Total(AfterCardPlay(s, card, index, from)) + Discarded(s.pile, card), Total(s), card);
  }

  lemma MultisetCancel<T>(a: multiset<T>, b: multiset<T>, x: T)
    requires a + multiset{x} == b + multiset{x}
    ensures a == b
  {
    assert forall y :: a[y] == (a + multiset{x})[y] - multiset{x}[y];
  }

  /** After the human's play the bot moves, unless the play was a 10 or
      made four of a kind; a 6 clears the pile but hands the turn over. The
      game is over exactly when it was, or the human holds no card. The
      bot's cards are untouched. */
  lemma CardPlayTurn(s: GameState, card: Card, index: nat, from: Zone)
    ensures var t := AfterCardPlay(s, card, index, from);
      && t.currentPlayer
           == (if card.rank == Ten || (card.rank != Six && CheckForFourOfAKind(s.pile + [card]))
               then s.currentPlayer else BotSide)
      && (t.gameOver <==> s.gameOver || Holding(t.player) == multiset{})
      && (t.pile == [] <==> ShouldClearPile(card, s.pile + [card]))
      && (!ShouldClearPile(card, s.pile + [card]) ==> t.pile == s.pile + [card])
      && t.bot == s.bot
  {
  }

  /** The human refills the hand from the end of the deck, one card, and
      only below three cards; the other zones are as the splice left them. */
  lemma CardPlayDraws(s: GameState, card: Card, index: nat, from: Zone)
    ensures var t := AfterCardPlay(s, card, index, from);
      var z := Spliced(s.player, index, from);
      && t.player.faceUp == z.faceUp && t.player.faceDown == z.faceDown
      && (s.deck != [] && |z.hand| < 3 ==>
            && t.player.hand == z.hand + [s.deck[|s.deck| - 1]]
            && t.deck == s.deck[..|s.deck| - 1])
      && (s.deck == [] || |z.hand| >= 3 ==> t.player.hand == z.hand && t.deck == s.deck)
  {
    var z := Spliced(s.player, index, from);
    var s2 := PlayerPlacesCard(s.(player := z), card);
    assert s2.player == z && s2.deck == s.deck;
    var s3 := PlayerDraws(s2);
    var t := AfterCardPlay(s, card, index, from);
    assert t.player == s3.player && t.deck == s3.deck;
    if s.deck != [] && |z.hand| < 3 {
      assert s3.deck + [s.deck[|s.deck| - 1]] == s.deck;
    }
  }

  /** While it is the bot's turn a click changes nothing; a card the page's
      check refuses only changes the message. */
  lemma SelectionGuards(s: GameState, card: Card, index: nat, from: Zone)
    ensures s.currentPlayer == BotSide ==> AfterSelection(s, card, index, from) == s
    ensures s.currentPlayer == PlayerSide && !LocalCanPlayCard(card, Last(s.pile)) ==>
      var t := AfterSelection(s, card, index, from);
      && t.message == InvalidMove
      && t.(message := s.message) == s
  {
  }

  /** The cards the bot's move removes from the game: the pile and the card
      when its play clears the pile. */
  function BotDiscarded(s: GameState): multiset<Card> {
    var o := BotMove(s.bot, s.pile, s.deck);
    if o.played.Some? then Discarded(s.pile, o.played.value) else multiset{}
  }

  lemma BotPlacesCardMoves(s: GameState, played: Option<Card>)
    ensures Total(BotPlacesCard(s, played))
              + (if played.Some? then Discarded(s.pile, played.value) else multiset{})
         == Total(s) + (if played.Some? then multiset{played.value} else multiset{})
  {
    match played
    case Some(card) =>
      var t := BotPlacesCard(s, played);
      if ShouldClearPile(card, s.pile + [card]) {
        assert t == s.(pile := [], message := HandleSpecialCards(card, s.pile + [card]).message);
      } else {
        assert t == s.(pile := s.pile + [card]);
      }
    case None =>
      var t := BotPlacesCard(s, played);
      assert Holding(t.bot) == Holding(s.bot) + multiset(s.pile);
  }

  lemma EndBotTurnConserves(s: GameState)
    ensures Total(EndBotTurn(s)) == Total(s)
  {
    var s1 := s.(currentPlayer := PlayerSide, message := YourTurn);
    BotDrawsConserves(s1);
    WinChecksConserve(BotDraws(s1));
  }

  /** The bot's turn loses only what a clearing play discards; taking up the
      pile loses nothing. */
  lemma {:induction false} BotTurnConserves(s: GameState)
    ensures Total(AfterBotTurn(s)) + BotDiscarded(s) == Total(s)
  {
    var o := BotMove(s.bot, s.pile, s.deck);
    BotMoveConserves(s.bot, s.pile, s.deck);
    AfterBotMoveConserves(s, o);
  }

  lemma {:induction false} AfterBotMoveConserves(s: GameState, o: BotOutcome)
    requires Holding(o.bot) + multiset(o.deck)
               + (if o.played.Some? then multiset{o.played.value} else multiset{})
          == Holding(s.bot) + multiset(s.deck)
    ensures Total(AfterBotMove(s, o))
              + (if o.played.Some? then Discarded(s.pile, o.played.value) else multiset{})
         == Total(s)
  {
    var s0 := s.(bot := o.bot, deck := o.deck);
    var played := if o.played.Some? then multiset{o.played.value} else multiset{};
    var rest := Holding(s.player) + multiset(s.pile);
    assert Total(s0) == Holding(o.bot) + multiset(o.deck) + rest;
    assert Total(s) == Holding(s.bot) + multiset(s.deck) + rest;
    assert Total(s0) + played == Total(s);
    var s1 := BotPlacesCard(s0, o.played);
    BotPlacesCardMoves(s0, o.played);
    EndBotTurnConserves(s1);
    var t := AfterBotMove(s, o);
    assert t == s1 || t == EndBotTurn(s1);
    assert Total(t) == Total(s1);
    var d := if o.played.Some? then Discarded(s.pile, o.played.value) else multiset{};
    MultisetSettle(Total(s), Total(s0), Total(s1), Total(AfterBotMove(s, o)), d, played);
  }

  /** Bookkeeping of a card that leaves one place and may be discarded. */
  lemma MultisetSettle<T>(a: multiset<T>, b: multiset<T>, c: multiset<T>, t: multiset<T>,
                          d: multiset<T>, x: multiset<T>)
    requires b + x == a && c + d == b + x && t == c
    ensures t + d == a
  {
  }

  /** A bot play of a 10, or one that makes four of a kind, keeps the turn
      with the bot: the turn, the game-over flag and the bot's hand stay as
      the play left them. Any other outcome hands the turn to the human, and
      the game is then over exactly when it was or the bot holds no card. */
  lemma BotTurnHandsOff(s: GameState)
    ensures var o := BotMove(s.bot, s.pile, s.deck);
      var t := AfterBotTurn(s);
      if o.played.Some? && (o.played.value.rank == Ten
           || (o.played.value.rank != Six && CheckForFourOfAKind(s.pile + [o.played.value])))
      then t.currentPlayer == s.currentPlayer && t.gameOver == s.gameOver
           && t.pile == [] && t.bot == o.bot && t.deck == o.deck
      else t.currentPlayer == PlayerSide
           && (t.gameOver <==> s.gameOver || Holding(t.bot) == multiset{})
           && (o.played.Some? && !ShouldClearPile(o.played.value, s.pile + [o.played.value]) ==>
                 t.pile == s.pile + [o.played.value])
  {
  }

  /** The bot refills twice in one turn: `botPlay` draws after a hand play,
      and the end of the turn draws again. After a play that keeps no extra
      turn, the hand and deck are the second draw applied to what the move
      left; after taking up the pile, the draw comes behind the pile. */
  lemma BotTurnRefills(s: GameState)
    ensures var o := BotMove(s.bot, s.pile, s.deck);
      var t := AfterBotTurn(s);
      && (o.played.Some? && !BotKeepsTurn(s.pile, o.played) ==>
            var d := Draw(o.bot.hand, o.deck);
            t.bot == o.bot.(hand := d.hand) && t.deck == d.deck)
      && (o.played.None? ==>
            var d := Draw(s.bot.hand + s.pile, s.deck);
            t.bot == s.bot.(hand := d.hand) && t.deck == d.deck)
  {
    var o := BotMove(s.bot, s.pile, s.deck);
    var s1 := BotPlacesCard(s.(bot := o.bot, deck := o.deck), o.played);
    if o.played.Some? && !BotKeepsTurn(s.pile, o.played) {
      assert s1.bot == o.bot && s1.deck == o.deck;
      assert AfterBotTurn(s) == EndBotTurn(s1);
    } else if o.played.None? {
      BotMoveNothingChangesWithoutPlay(s.bot, s.pile, s.deck);
      assert s1.bot == s.bot.(hand := s.bot.hand + s.pile) && s1.deck == s.deck;
      assert AfterBotTurn(s) == EndBotTurn(s1);
    }
  }

  /** The bot refills twice in one turn: holding two cards on an empty pile
      with two cards left in the deck, it plays its first card (3 onto an
      empty pile, say), draws the deck's last card inside `botPlay`, draws
      the other when its turn ends, and leaves the deck empty. */
  lemma BotTurnDrawsTwice(s: GameState)
    requires s.pile == [] && |s.bot.hand| == 2 && |s.deck| == 2
    requires s.bot.hand[0].rank != Six && s.bot.hand[0].rank != Ten
    ensures var t := AfterBotTurn(s);
      && t.bot.hand == [s.bot.hand[1], s.deck[1], s.deck[0]]
      && t.deck == [] && t.pile == [s.bot.hand[0]]
  {
    BotOpensWithFirstCard(s.bot, s.deck);
    EndOfTurnDraws(s, s.bot.hand[0], s.bot, s.bot.hand[1], s.deck[1], s.deck[0]);
  }

  /** The second half: a card that does not clear the empty pile stays on
      it, and the end of the turn draws the last deck card. */
  lemma EndOfTurnDraws(s: GameState, played: Card, bot: Zones, kept: Card, drawn: Card, last: Card)
    requires s.pile == [] && played.rank != Six && played.rank != Ten
    ensures var t := AfterBotMove(s, BotOutcome(Some(played), bot.(hand := [kept, drawn]), [last]));
      && t.bot.hand == [kept, drawn, last]
      && t.deck == [] && t.pile == [played]
  {
    var o := BotOutcome(Some(played), bot.(hand := [kept, drawn]), [last]);
    assert !ShouldClearPile(played, s.pile + [played]) by {
      assert s.pile + [played] == [played];
      assert !CheckForFourOfAKind([played]);
    }
    NonClearingPlayEndsTurn(s, o);
    EndBotTurnDraws(s.(bot := o.bot, deck := o.deck, pile := [played]));
    assert Draw([kept, drawn], [last]) == Drawn([kept, drawn, last], []) by {
      DrawTakesLast([kept, drawn], [last]);
      assert [kept, drawn] + [last] == [kept, drawn, last];
    }
  }

  /** A bot play that does not clear the pile stays on it and ends the
      bot's turn. */
  lemma NonClearingPlayEndsTurn(s: GameState, o: BotOutcome)
    requires o.played.Some? && !ShouldClearPile(o.played.value, s.pile + [o.played.value])
    ensures AfterBotMove(s, o) == EndBotTurn(s.(bot := o.bot, deck := o.deck, pile := s.pile + [o.played.value]))
  {
  }

  /** The end of the bot's turn leaves the pile alone and draws for the
      bot. */
  lemma EndBotTurnDraws(s: GameState)
    ensures var t := EndBotTurn(s);
      var d := Draw(s.bot.hand, s.deck);
      t.bot.hand == d.hand && t.deck == d.deck && t.pile == s.pile
  {
  }

  /** On an empty pile every card can be played, so the bot plays the first
      card of a non-empty hand and draws. */
  lemma BotOpensWithFirstCard(bot: Zones, deck: seq<Card>)
    requires bot.hand != []
    ensures var drawn := Draw(RemoveAt(bot.hand, 0), deck);
      BotMove(bot, [], deck) == BotOutcome(Some(bot.hand[0]), bot.(hand := drawn.hand), drawn.deck)
    ensures |bot.hand| == 2 && |deck| == 2 ==>
      BotMove(bot, [], deck) == BotOutcome(Some(bot.hand[0]), bot.(hand := [bot.hand[1], deck[1]]), [deck[0]])
  {
    FirstPlayableIsFirst(bot.hand, Last([]), IsLastCard(bot), 0);
    BotMovePlays(bot, [], deck, 0);
    if |bot.hand| == 2 && |deck| == 2 {
      assert RemoveAt(bot.hand, 0) == [bot.hand[1]];
      DrawTakesLast([bot.hand[1]], deck);
    }
  }

  /** With nothing to play the bot takes the whole pile into its hand,
      behind the cards it held. */
  lemma BotPicksUpWhenStuck(s: GameState)
    ensures var t := AfterBotTurn(s);
      BotMove(s.bot, s.pile, s.deck).played.None? ==>
        && t.pile == [] && t.player == s.player
        && |t.bot.hand| >= |s.bot.hand| + |s.pile|
        && t.bot.hand[..|s.bot.hand| + |s.pile|] == s.bot.hand + s.pile
  {
    BotMoveNothingChangesWithoutPlay(s.bot, s.pile, s.deck);
    var t := AfterBotTurn(s);
    var h := s.bot.hand + s.pile;
    if BotMove(s.bot, s.pile, s.deck).played.None? {
      assert t.bot.hand[..|h|] == h;
    }
  }

  /** `handlePickUp` moves the pile, card for card, to the end of the
      human's hand and loses nothing. */
  lemma PickUpConserves(s: GameState)
    ensures var t := AfterPickUp(s);
      && Total(t) == Total(s) && t.pile == [] && t.currentPlayer == BotSide
      && t.player.hand == s.player.hand + s.pile
      && t.deck == s.deck && t.bot == s.bot && t.gameOver == s.gameOver
  {
  }

  /** The steps after a card is placed never touch the pile or clear the
      game-over flag. */
  lemma LaterStepsKeepPileAndFlag(s: GameState)
    ensures PlayerWinCheck(PlayerDraws(s)).pile == s.pile
    ensures s.gameOver ==> PlayerWinCheck(PlayerDraws(s)).gameOver
    ensures EndBotTurn(s).pile == s.pile
    ensures s.gameOver ==> EndBotTurn(s).gameOver
  {
  }

  /** A finished game stays finished whatever handler runs. */
  lemma {:induction false} GameOverSticks(s: GameState, card: Card, index: nat, from: Zone)
    requires s.gameOver
    ensures AfterSelection(s, card, index, from).gameOver
    ensures AfterPickUp(s).gameOver
  {
    LaterStepsKeepPileAndFlag(PlayerPlacesCard(s.(player := Spliced(s.player, index, from)), card));
  }

  lemma {:induction false} GameOverSticksForBot(s: GameState)
    requires s.gameOver
    ensures AfterBotTurn(s).gameOver
  {
    var o := BotMove(s.bot, s.pile, s.deck);
    LaterStepsKeepPileAndFlag(BotPlacesCard(s.(bot := o.bot, deck := o.deck), o.played));
  }

  /** Removing cards from the game keeps every card at most once. */
  lemma AtMostOnceShrinks(s: GameState, t: GameState, gone: multiset<Card>)
    requires AtMostOnce(s) && Total(t) + gone == Total(s)
    ensures AtMostOnce(t)
  {
    forall c: Card ensures Total(t)[c] <= 1 {
      assert Total(t)[c] + gone[c] == Total(s)[c];
    }
  }

  /** A card stays on the pile only if it is neither a 6 nor a 10. */
  lemma PlayerPlacingKeepsClearRanksOff(s: GameState, card: Card)
    requires PileHasNoClearRank(s)
    ensures PileHasNoClearRank(PlayerPlacesCard(s, card))
  {
  }

  lemma BotPlacingKeepsClearRanksOff(s: GameState, played: Option<Card>)
    requires PileHasNoClearRank(s)
    ensures PileHasNoClearRank(BotPlacesCard(s, played))
  {
  }

  /** No 6 or 10 is ever left on the pile, whoever plays. */
  lemma {:induction false} PileNeverHoldsClearRank(s: GameState, card: Card, index: nat, from: Zone)
    requires PileHasNoClearRank(s)
    ensures PileHasNoClearRank(AfterSelection(s, card, index, from))
    ensures PileHasNoClearRank(AfterPickUp(s))
  {
    var s1 := s.(player := Spliced(s.player, index, from));
    PlayerPlacingKeepsClearRanksOff(s1, card);
    LaterStepsKeepPileAndFlag(PlayerPlacesCard(s1, card));
  }

  lemma {:induction false} PileNeverHoldsClearRankForBot(s: GameState)
    requires PileHasNoClearRank(s)
    ensures PileHasNoClearRank(AfterBotTurn(s))
  {
    var o := BotMove(s.bot, s.pile, s.deck);
    var s0 := s.(bot := o.bot, deck := o.deck);
    BotPlacingKeepsClearRanksOff(s0, o.played);
    LaterStepsKeepPileAndFlag(BotPlacesCard(s0, o.played));
  }

  /** Hence on every pile a game reaches, the page's check and the rules
      module's agree for number cards. */
  lemma {:induction false} ReachedPilesCompareAlike(s: GameState, card: Card)
    requires PileHasNoClearRank(s) && s.pile != []
    requires !IsFaceRank(card.rank) && !IsFaceRank(s.pile[|s.pile| - 1].rank)
    ensures LocalCanPlayCard(card, Last(s.pile)) == CanPlayCard(card, Last(s.pile), false)
  {
    LocalRuleAgreesOnNumbers(card, s.pile[|s.pile| - 1]);
  }

  // ---------------------------------------------------------------------
  // Clicking a card that is not the human's

  /** The page also wires clicks on the bot's faceUp cards ('faceUp') and
      on the top pile cards ('pile', which takes the faceDown branch). The
      clicked card goes on the pile while the human's own card at that
      index is spliced out: here the human, holding one faceDown 4, clicks
      the 3 on the pile, which is accepted as a 3 on a 3. The 3 is then in
      the game twice, the 4 is gone, and the human has won. */
  lemma PileClickDuplicatesCard()
    ensures var three, four := Card(Spades, Three), Card(Hearts, Four);
      var s := GameState([], Zones([], [], [four]), Zones([Card(Clubs, Two)], [], []),
                         [three], PlayerSide, false, YourTurn);
      var t := AfterSelection(s, three, 0, FaceDown);
      && AtMostOnce(s) && Total(s)[three] == 1
      && Total(t)[three] == 2 && Total(t)[four] == 0
      && t.gameOver && t.message == PlayerWins
  {
    var three, four, two := Card(Spades, Three), Card(Hearts, Four), Card(Clubs, Two);
    var s := GameState([], Zones([], [], [four]), Zones([two], [], []),
                       [three], PlayerSide, false, YourTurn);
    assert Total(s) == multiset{four} + multiset{two} + multiset{three};
    assert LocalCanPlayCard(three, Last(s.pile));
    var s1 := s.(player := Zones([], [], []));
    assert Spliced(s.player, 0, FaceDown) == s1.player;
    assert !CheckForFourOfAKind([three, three]);
    var s2 := s1.(pile := [three, three], currentPlayer := BotSide, message := BotsTurn);
    assert PlayerPlacesCard(s1, three) == s2;
    assert PlayerDraws(s2) == s2;
    var t := s2.(gameOver := true, message := PlayerWins);
    assert PlayerWinCheck(s2) == t;
    assert AfterSelection(s, three, 0, FaceDown) == t;
    assert Total(t) == multiset{two} + multiset{three, three};
  }

  /** The selection with the card read from the human's own zone at the
      index, as the three zones of the human pass it. */
  function AfterOwnSelection(s: GameState, index: nat, from: Zone): GameState {
    var cards := ZoneCards(s.player, from);
    if index < |cards| then AfterSelection(s, cards[index], index, from) else s
  }

  /** Selecting one's own card loses only what a clearing play discards, so
      no card is ever in the game twice. */
  lemma OwnSelectionKeepsCardsUnique(s: GameState, index: nat, from: Zone)
    requires AtMostOnce(s)
    ensures AtMostOnce(AfterOwnSelection(s, index, from))
    ensures Total(AfterOwnSelection(s, index, from)) <= Total(s)
  {
    var cards := ZoneCards(s.player, from);
    var t := AfterOwnSelection(s, index, from);
    if index < |cards| && s.currentPlayer == PlayerSide && LocalCanPlayCard(cards[index], Last(s.pile)) {
      OwnCardPlayConserves(s, index, from);
      AtMostOnceShrinks(s, t, Discarded(s.pile, cards[index]));
    } else {
      assert Total(t) == Total(s);
    }
  }

  /** The bot's turn and picking up keep every card at most once. */
  lemma TurnsKeepCardsUnique(s: GameState)
    requires AtMostOnce(s)
    ensures AtMostOnce(AfterBotTurn(s)) && AtMostOnce(AfterPickUp(s))
  {
    BotTurnConserves(s);
    AtMostOnceShrinks(s, AfterBotTurn(s), BotDiscarded(s));
    PickUpConserves(s);
  }

  // ---------------------------------------------------------------------
  // The page's state object and its handlers

  /** `p[from].splice(index, 1)` on the participant object. */
  method SpliceZone(p: Player, index: nat, from: Zone)
    modifies p
    ensures p.View() == Spliced(old(p.View()), index, from)
  {
    match from
    case Hand => p.hand := RemoveAt(p.hand, index);
    case FaceUp => p.faceUp := RemoveAt(p.faceUp, index);
    case FaceDown => p.faceDown := RemoveAt(p.faceDown, index);
  }

  /** `if (deck.length > 0 && p.hand.length < 3) p.hand.push(deck.pop())`,
      the refill both handlers end with. */
  method DrawUpToThree(p: Player, deck: Deck)
    modifies p, deck
    ensures p.View() == old(p.View()).(hand := Draw(old(p.hand), old(deck.cards)).hand)
    ensures deck.cards == Draw(old(p.hand), old(deck.cards)).deck
  {
    if |deck.cards| > 0 && |p.hand| < 3 {
      DrawTakesLast(p.hand, deck.cards);
      var c := deck.Pop();
      p.hand := p.hand + [c];
    }
  }

  /** The page's game state. The deck and the two participants are the
      objects the handlers change in place; a new game makes new ones. */
  class Game {
    const deck: Deck
    const player: Player
    const bot: Player
    var pile: seq<Card>
    var currentPlayer: Side
    var gameOver: bool
    var message: Message

    /** The human and the bot are different objects. */
    predicate Valid()
      reads this
    {
      player != bot
    }

    function State(): GameState
      reads this, deck, player, bot
    {
      GameState(deck.cards, player.View(), bot.View(), pile, currentPlayer, gameOver, message)
    }

    /** `startNewGame`. */
    constructor StartNewGame(rolls: seq<nat>)
      requires ValidRolls(rolls, 52)
      ensures Valid() && State() == NewGame(rolls)
      ensures fresh(deck) && fresh(player) && fresh(bot)
    {
      var cards := CreateDeck(rolls);
      var newDeck := new Deck(cards);
      var newPlayer := new Player();
      var newBot := new Player();
      DealCards(newDeck, newPlayer, newBot);
      deck, player, bot := newDeck, newPlayer, newBot;
      pile := [];
      currentPlayer := PlayerSide;
      gameOver := false;
      message := NewGamePrompt;
    }

    /** `handleCardPlay`. */
    method HandleCardPlay(card: Card, index: nat, from: Zone)
      requires Valid()
      modifies this, player, deck
      ensures State() == AfterCardPlay(old(State()), card, index, from)
    {
      ghost var s := State();
      SpliceZone(player, index, from);
      assert State() == s.(player := Spliced(s.player, index, from));
      ghost var placed := PlayerPlacesCard(State(), card);
      assert AfterCardPlay(s, card, index, from) == PlayerWinCheck(PlayerDraws(placed));

      var newPile := pile + [card];
      var effect := HandleSpecialCards(card, newPile);
      if effect.clearPile {
        pile := [];
        message := effect.message;
        if !effect.extraTurn {
          currentPlayer := BotSide;
        }
      } else {
        pile := newPile;
        currentPlayer := BotSide;
        message := BotsTurn;
      }
      assert State() == placed;
      RefillAndCheckWin();
    }

    /** The end of `handleCardPlay`: the human refills and the win is
        checked. */
    method RefillAndCheckWin()
      requires Valid()
      modifies this, player, deck
      ensures State() == PlayerWinCheck(PlayerDraws(old(State())))
    {
      ghost var placed := State();
      DrawUpToThree(player, deck);
      assert State() == PlayerDraws(placed);
      ghost var drawn := State();
      if CheckWinCondition(player.View()) {
        gameOver := true;
        message := PlayerWins;
      }
      assert State() == PlayerWinCheck(drawn);
    }

    /** `handleCardSelection`. */
    method HandleCardSelection(card: Card, index: nat, from: Zone)
      requires Valid()
      modifies this, player, deck
      ensures State() == AfterSelection(old(State()), card, index, from)
    {
      if currentPlayer != PlayerSide {
        return;
      }
      var topCard := Last(pile);
      if LocalCanPlayCard(card, topCard) {
        HandleCardPlay(card, index, from);
      } else {
        message := InvalidMove;
      }
    }

    /** A click on one of the human's own cards: the card handed to
        `handleCardSelection` is the one at the index of the named zone. */
    method SelectOwnCard(index: nat, from: Zone)
      requires Valid()
      modifies this, player, deck
      ensures State() == AfterOwnSelection(old(State()), index, from)
    {
      var cards := match from
        case Hand => player.hand
        case FaceUp => player.faceUp
        case FaceDown => player.faceDown;
      assert cards == ZoneCards(State().player, from);
      if index < |cards| {
        HandleCardSelection(cards[index], index, from);
      }
    }

    /** `botTurn`. */
    method BotTurn()
      requires Valid()
      modifies this, bot, deck
      ensures State() == AfterBotTurn(old(State()))
    {
      ghost var s := State();
      var cardPlayed := BotPlay(bot, pile, deck);
      ghost var o := BotOutcome(cardPlayed, bot.View(), deck.cards);
      assert o == BotMove(s.bot, s.pile, s.deck);
      assert AfterBotTurn(s) == AfterBotMove(s, o);
      ghost var placed := BotPlacesCard(s.(bot := o.bot, deck := o.deck), cardPlayed);

      if cardPlayed.Some? {
        var newPile := pile + [cardPlayed.value];
        var effect := HandleSpecialCards(cardPlayed.value, newPile);
        if effect.clearPile {
          pile := [];
          message := effect.message;
          if effect.extraTurn {
            assert State() == placed;
            return;
          }
        } else {
          pile := newPile;
        }
      } else {
        bot.hand := bot.hand + pile;
        pile := [];
        message := BotPickedUp;
      }
      assert State() == placed;
      EndBotTurnStep();
    }

    /** The end of `botTurn` after a play that keeps no extra turn: the turn
        passes to the human, the bot refills and its win is checked. */
    method EndBotTurnStep()
      requires Valid()
      modifies this, bot, deck
      ensures State() == EndBotTurn(old(State()))
    {
      currentPlayer := PlayerSide;
      message := YourTurn;
      ghost var handedOff := State();
      DrawUpToThree(bot, deck);
      assert State() == BotDraws(handedOff);
      ghost var drawn := State();
      if CheckWinCondition(bot.View()) {
        gameOver := true;
        message := BotWins;
      }
      assert State() == BotWinCheck(drawn);
    }

    /** `handlePickUp`. */
    method HandlePickUp()
      requires Valid()
      modifies this, player
      ensures State() == AfterPickUp(old(State()))
    {
      player.hand := player.hand + pile;
      pile := [];
      message := PlayerPickedUp;
      currentPlayer := BotSide;
    }
  }
}
