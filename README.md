# Shithead (Palace) rules engine: a verified Dafny model

This project models the rules engine of a two-player Shithead card game:
one human plays against a bot on the offline game page. It covers:

- the card tables (`constants.js`);
- building, shuffling and dealing the deck (`deck.js`);
- the rules: card comparison, legality with the last-card jack, four of a kind, clearing the pile, the move list and the bot's play policy (`game.js`);
- the offline page's state object and its handlers: new game, card play, card selection, the bot's turn, picking up the pile, the win check and the special-card effects (`Offline.jsx`).

The project has five modules, one per source concern:

- `Options` (options.dfy): an optional value, `splice(i, 1)` and "the last element".
- `Constants` (constants.dfy): suits, ranks, `RANK_ORDER`, `SPECIAL_RANKS` and `indexOf`, with a table `RankIndex` proved equal to the search.
- `Decks` (deck.dfy): a participant and the deck as classes whose arrays change in place, with:
  - `createDeck` as a method with nested loops;
  - `shuffleDeck` as a Fisher-Yates loop over a Dafny `array`;
  - `dealCards` as its three loops.
- `Rules` (game.js's rules, game.dfy):
  - pure functions for the rules;
  - `findPlayableCard` and `botPlay` as methods, proved against the specification functions `FirstPlayable` and `BotMove`.
- `Offline` (offline.dfy):
  - the page's own `canPlayCard` (with `Number.parseInt`), `handleSpecialCards` and `checkWinCondition`;
  - a value `GameState` with one transition function per handler;
  - the lemmas about those transitions;
  - a class `Game` whose methods change the deck, participant and pile objects in place, each proved to end in `After…(old(State()))`.

The page's `setGameState(prev => …)` updaters mutate `prev`'s arrays and then return a shallow copy. The model treats each handler as one in-place step on the state, as if each updater ran exactly once.

Where the game's written rule description and the code differ, the model follows the code:

- The human's plays go through the page's own `canPlayCard` (`Offline.jsx:181-189`), which compares `Number.parseInt` of the ranks. It does not use the strength order in `game.js`.
- The human's plays are not held to zone priority: any zone may be played from, and no "wrong zone" error exists.
- A card play moves one card. There is no multi-card play.
- A bot play that clears the pile with an extra turn returns at once. It skips the hand-off, the refill and the win check (`Offline.jsx:137-140`).
- The bot's "picked up the pile" message is overwritten by "Your turn." (`Offline.jsx:148-152`).
- The pile cleared by a 6, a 10 or four of a kind leaves the game: it is discarded, not kept.

## Model

| member | source | states |
|---|---|---|
| Options.RemoveAt | resources/js/utils/game.js:73 | `splice(i, 1)` removes exactly the element at `i`: one shorter, multiset minus that element; an index past the end changes nothing |
| Options.RemoveAtShifts | resources/js/utils/game.js:73 | after the splice, elements before `i` stay and later ones move down one place |
| Options.Last | resources/js/utils/game.js:64 | `pile[pile.length - 1]` is absent exactly on an empty pile, else the last card |
| Constants.IndexOf | resources/js/utils/game.js:6 | `indexOf` is -1 exactly when the element is absent, else the first position holding it |
| Constants.IndexOfDistinct | resources/js/utils/game.js:6 | in a sequence without repeats `indexOf` finds each element at its own position |
| Constants.SuitsTable | resources/js/utils/constants.js:1 | the four suits are distinct, each at its table position |
| Constants.RanksTable | resources/js/utils/constants.js:3-17 | the thirteen ranks are distinct, in printed order |
| Constants.RankOrderIsPermutation | resources/js/utils/constants.js:19-33 | `RANK_ORDER` holds each of the thirteen ranks exactly once |
| Constants.RankIndexIsIndexOf | resources/js/utils/constants.js:19-33 | `RANK_ORDER.indexOf(r)` never answers -1 and equals the strength table |
| Constants.RanksIndexIsFace | resources/js/utils/constants.js:3-17 | `RANKS.indexOf(r)` is the printed position of `r` |
| Constants.SixAndTenOnTop | resources/js/utils/constants.js:31-32 | 6 and 10 are the two strongest ranks, at positions 11 and 12 |
| Constants.OtherRanksBelowSix | resources/js/utils/constants.js:19-30 | every other rank lies below position 11 |
| Constants.RankOrderKeepsPrintedOrder | resources/js/utils/constants.js:19-33 | apart from 6 and 10 the strength order is the printed order, in both directions |
| Constants.RankIndexFromFace | resources/js/utils/constants.js:19-33 | off 6 and 10, strength is the printed position less the number of 6/10 printed before it |
| Constants.ClearPileIsSixAndTen | resources/js/utils/constants.js:35-37 | `SPECIAL_RANKS.CLEAR_PILE` holds exactly 6 and 10 |
| Decks.Holding | resources/js/utils/deck.js:22-28 | the cards a participant holds number the sum of the three zone sizes |
| Decks.Player.constructor | resources/js/utils/deck.js:22-28 | `createPlayer`: a participant with three empty zones |
| Decks.Deck.Pop | resources/js/utils/deck.js:32 | `deck.pop()` returns the last card and the deck loses exactly it |
| Decks.OrderedDeck | resources/js/utils/deck.js:3-9 | the unshuffled deck has 52 cards |
| Decks.OrderedDeckAt | resources/js/utils/deck.js:5-8 | position 13·s + r holds suit s with rank r |
| Decks.OrderedDeckGrows | resources/js/utils/deck.js:7 | each push extends the ordered deck by its next card |
| Decks.OrderedDeckComplete | resources/js/utils/deck.js:3-9 | the ordered deck has no repeats and holds every suit-rank pair |
| Decks.OrderedDeckOnce | resources/js/utils/deck.js:3-9 | every card occurs in the ordered deck exactly once |
| Decks.CreateDeck | resources/js/utils/deck.js:3-11 | `createDeck` returns the shuffle of the ordered deck: 52 cards, each card exactly once |
| Decks.Swap | resources/js/utils/deck.js:17 | the swap keeps length and multiset |
| Decks.ShuffleSteps | resources/js/utils/deck.js:15-18 | the remaining swaps of the shuffle keep length and multiset |
| Decks.ShuffleDeck | resources/js/utils/deck.js:13-20 | the in-place Fisher-Yates loop computes `Shuffled(deck, rolls)`, a permutation of the input |
| Decks.Shuffled | resources/js/utils/deck.js:13-20 | definition of the shuffle as a function of the rolls; `ShuffleSteps` states that it keeps length and multiset |
| Decks.DealtSizes | resources/js/utils/deck.js:30-45 | the deal takes 18 cards and gives every zone of both sides 3 |
| Decks.Dealt | resources/js/utils/deck.js:30-45 | definition of the deal on values; its properties are stated by `DealtSizes`, `DealtOrder` and `DealtConserves` |
| Decks.DealtOrder | resources/js/utils/deck.js:30-45 | which of the deck's last 18 cards reaches which zone, alternating player and bot from the top |
| Decks.RoundConserves | resources/js/utils/deck.js:31-34 | one round of six pops splits those six cards between the two sides |
| Decks.DealtConserves | resources/js/utils/deck.js:30-45 | the deal loses and makes no card: dealt plus remaining equals the original deck |
| Decks.DealCards | resources/js/utils/deck.js:30-45 | `dealCards` leaves the deck and both participants exactly as `Dealt` says |
| Decks.DealFaceDown | resources/js/utils/deck.js:31-34 | the first loop: six pops alternately onto the player's and the bot's faceDown |
| Decks.DealFaceUp | resources/js/utils/deck.js:36-39 | the second loop: the next six onto faceUp |
| Decks.DealHand | resources/js/utils/deck.js:41-44 | the third loop: the next six into hand |
| Rules.CompareCards | resources/js/utils/game.js:3-7 | with no top card, or a 6 or 10 played, the card may always go |
| Rules.CompareCardsByIndexOf | resources/js/utils/game.js:3-7 | `compareCards` is true exactly for a 6/10 or when `RANK_ORDER.indexOf` of card1 is at least that of card2 |
| Rules.CompareByRankIndex | resources/js/utils/game.js:3-7 | the same iff stated with the strength table |
| Rules.OnlyClearRanksOnClearRanks | resources/js/utils/game.js:5-6 | on a 6 or a 10 only a 6 or a 10 may be played |
| Rules.CompareIgnoresSuits | resources/js/utils/game.js:3-7 | the comparison never depends on suits |
| Rules.CompareIsTotalPreorder | resources/js/utils/game.js:6 | the comparison is reflexive, total and transitive |
| Rules.CanPlayCard | resources/js/utils/game.js:9-12 | a last-card jack and anything on an empty pile may be played; otherwise exactly what `compareCards` allows |
| Rules.CanPlayCardExamples | resources/js/utils/game.js:9-12 | 2 not on 3, 3 on 2, the last-card jack on an ace, and not an ordinary jack on an ace |
| Rules.CheckForFourOfAKind | resources/js/utils/game.js:14-18 | true exactly when the pile has at least four cards and the top four share a rank |
| Rules.FourOfAKindAfterPlay | resources/js/utils/game.js:14-18 | a play completes four of a kind exactly when the three cards under it have its rank |
| Rules.FourOfAKindLooksAtLastFour | resources/js/utils/game.js:16-17 | cards under the top four never matter |
| Rules.ShouldClearPile | resources/js/utils/game.js:20-25 | the pile clears exactly on a 6, a 10, or four of a kind on top |
| Rules.MovesOf | resources/js/utils/game.js:38-42 | one move per card: that card, its index, and whether it may be played |
| Rules.GetValidMoves | resources/js/utils/game.js:27-52 | only the zone in play is listed (hand, else faceUp); the faceDown flag holds exactly when only faceDown cards remain |
| Rules.OneZoneOffered | resources/js/utils/game.js:27-52 | a participant holding any card is offered exactly one zone, and one holding none is offered none |
| Rules.FirstPlayable | resources/js/utils/game.js:54-61 | absent exactly when no card is playable; else a playable position with no playable card before it |
| Rules.FindPlayableCard | resources/js/utils/game.js:54-61 | the loop returns the first playable card and its index, or nothing when none is playable |
| Rules.FirstPlayableIsFirst | resources/js/utils/game.js:55-58 | a playable card with none playable before it is the one found |
| Rules.Draw | resources/js/utils/game.js:75-77 | below three cards in hand and with a non-empty deck, the deck's last card moves to hand; otherwise nothing changes; no card is lost |
| Rules.DrawTakesLast | resources/js/utils/game.js:76 | the drawn card is the deck's last and the deck keeps the rest |
| Rules.BotMoveZonePriority | resources/js/utils/game.js:63-90 | the bot's move respects zone priority: <br>• with a hand it looks only at the hand, playing iff a hand card is playable; <br>• with an empty hand it looks only at faceUp; <br>• with only faceDown cards it plays the last one unseen; <br>• holding nothing it plays nothing |
| Rules.BotMoveNothingChangesWithoutPlay | resources/js/utils/game.js:63-90 | when the bot plays nothing its zones and the deck are untouched |
| Rules.BotMovePlaysLegally | resources/js/utils/game.js:69-84 | a hand or faceUp card the bot plays is legal (last-card jack included) and comes from the zone in play |
| Rules.BotMoveDrawsAtMostOne | resources/js/utils/game.js:75-77 | the deck is unchanged, or it lost exactly its last card to a hand play, and that card is now last in the bot's hand |
| Rules.BotMoveConserves | resources/js/utils/game.js:63-90 | the bot's cards and the deck together lose exactly the card played |
| Rules.HandPlayConserves | resources/js/utils/game.js:69-78 | a hand play with its refill loses only the played card |
| Rules.FaceUpPlayConserves | resources/js/utils/game.js:79-84 | a faceUp play loses only the played card |
| Rules.FaceDownPlayConserves | resources/js/utils/game.js:85-87 | a faceDown play loses only the popped card |
| Rules.BotPlay | resources/js/utils/game.js:63-90 | `botPlay`, changing the bot and deck objects in place, returns the card and leaves the state `BotMove` describes |
| Rules.BotMovePlays | resources/js/utils/game.js:69-84 | the bot's move once the first playable card of the zone in play is known |
| Rules.BotMovePasses | resources/js/utils/game.js:69-84 | with nothing playable in the zone in play, the bot plays nothing and nothing changes |
| Rules.BotMove | resources/js/utils/game.js:63-90 | definition of `botPlay` on values; its properties are stated by `BotMoveZonePriority`, `BotMovePlaysLegally`, `BotMoveDrawsAtMostOne`, `BotMoveConserves` and `BotMovePlays` |
| Rules.IsLastCard | resources/js/utils/game.js:65-66 | definition: the bot holds exactly one card; it decides the last-card jack in `CanPlayCard` |
| Offline.HandleSpecialCards | resources/js/Pages/Offline.jsx:449-472 | the pile clears exactly when the rules module says so; only a 6 denies the extra turn; a message is set exactly when the pile clears |
| Offline.ParseInt | resources/js/Pages/Offline.jsx:188 | `Number.parseInt(rank)` is NaN exactly for J, Q, K, A, and the rank's number (2..10) otherwise |
| Offline.ParsedAtLeast | resources/js/Pages/Offline.jsx:188 | `>=` on parsed ranks is true only when both are numbers and the first is at least the second |
| Offline.LocalCanPlayCard | resources/js/Pages/Offline.jsx:181-189 | the page's check allows: <br>• anything on an empty pile; <br>• a 6 or a 10; <br>• otherwise exactly a number card on a number card of no higher printed rank |
| Offline.LocalRuleAgreesOnNumbers | resources/js/Pages/Offline.jsx:181-189 | on number cards with no 6 or 10 on top, the page's check equals the rules module's |
| Offline.LocalRuleRejectsFaceCards | resources/js/Pages/Offline.jsx:188 | a face card is never playable on a non-empty pile, and on a face card only a 6 or a 10 is |
| Offline.LocalRuleIsNotTotal | resources/js/Pages/Offline.jsx:188 | K and Q are each refused on the other, while the rules module lets K go on Q |
| Offline.CheckWinCondition | resources/js/Pages/Offline.jsx:203-209 | a participant wins exactly when holding no card |
| Offline.Total | resources/js/Pages/Offline.jsx:16-26 | the game's cards number deck plus both participants plus pile |
| Offline.NewGameDeals | resources/js/Pages/Offline.jsx:42-60 | a new game has: <br>• 34 cards in the deck and 3 in every zone; <br>• every one of the 52 cards exactly once; <br>• an empty pile, the human to move, the game not over |
| Offline.NewGame | resources/js/Pages/Offline.jsx:42-60 | definition of `startNewGame` on values; its properties are stated by `NewGameDeals` |
| Offline.SplicedTakesOne | resources/js/Pages/Offline.jsx:70-76 | the splice takes exactly the indexed card out of the named zone, or nothing past the end |
| Offline.AfterCardPlay | resources/js/Pages/Offline.jsx:62-111 | definition of `handleCardPlay` on values; its properties are stated by `CardPlayMovesCards`, `CardPlayTurn` and `CardPlayDraws` |
| Offline.PlayerPlacesCard | resources/js/Pages/Offline.jsx:78-96 | definition of placing the human's card; its properties are stated by `PlayerPlacesCardMoves` and `CardPlayTurn` |
| Offline.PlayerDraws | resources/js/Pages/Offline.jsx:98-100 | definition of the human's refill; its properties are stated by `PlayerDrawsConserves` and `CardPlayDraws` |
| Offline.PlayerWinCheck | resources/js/Pages/Offline.jsx:102-105 | definition of the human's win check; its properties are stated by `WinChecksConserve` and `GameOverSticks` |
| Offline.PlayerPlacesCardMoves | resources/js/Pages/Offline.jsx:78-96 | placing the card adds it and loses only what a clear discards |
| Offline.PlayerDrawsConserves | resources/js/Pages/Offline.jsx:98-100 | the human's refill loses no card |
| Offline.BotDrawsConserves | resources/js/Pages/Offline.jsx:154-156 | the bot's refill loses no card |
| Offline.CardPlayMovesCards | resources/js/Pages/Offline.jsx:62-111 | `handleCardPlay` splices out the indexed card, adds the played card, and loses only what a clear discards |
| Offline.SpliceMoves | resources/js/Pages/Offline.jsx:70-76 | the splice removes the indexed card from the game's total |
| Offline.WinChecksConserve | resources/js/Pages/Offline.jsx:102-105 | the win checks move no card |
| Offline.OwnCardPlayConserves | resources/js/Pages/Offline.jsx:62-111 | playing one's own card at the index loses exactly what a clear discards |
| Offline.CardPlayTurn | resources/js/Pages/Offline.jsx:84-105 | after a play: <br>• the bot moves unless a 10 or four of a kind was played; <br>• the game is over iff it was, or the human holds nothing; <br>• the pile is empty iff it cleared; <br>• the bot is untouched; <br>• a play that does not clear goes on top of the pile |
| Offline.CardPlayDraws | resources/js/Pages/Offline.jsx:98-100 | the human refills one card from the end of the deck, only below three cards in hand; the other zones stay as spliced |
| Offline.SelectionGuards | resources/js/Pages/Offline.jsx:167-179 | on the bot's turn a selection changes nothing; a refused card only sets the invalid-move message |
| Offline.AfterSelection | resources/js/Pages/Offline.jsx:167-179 | definition of `handleCardSelection` on values; its properties are stated by `SelectionGuards` and `OwnSelectionKeepsCardsUnique` |
| Offline.BotPlacesCardMoves | resources/js/Pages/Offline.jsx:127-149 | placing the bot's card adds it and loses only what a clear discards; taking up the pile moves it to the bot's hand |
| Offline.EndBotTurnConserves | resources/js/Pages/Offline.jsx:151-161 | the hand-off, refill and win check lose no card |
| Offline.BotTurnConserves | resources/js/Pages/Offline.jsx:116-165 | the bot's turn loses exactly what its clearing play discards |
| Offline.AfterBotMoveConserves | resources/js/Pages/Offline.jsx:127-163 | the rest of `botTurn` after `botPlay` loses only what a clear discards |
| Offline.BotTurnHandsOff | resources/js/Pages/Offline.jsx:134-161 | after a bot play of a 10 or four of a kind: <br>• the turn, the flag and the bot's zones stay as the play left them. <br>After anything else: <br>• the human moves; <br>• the game is over iff it was, or the bot holds nothing; <br>• a bot play that does not clear goes on top of the pile |
| Offline.BotPicksUpWhenStuck | resources/js/Pages/Offline.jsx:144-149 | with nothing to play the bot's hand gains the whole pile, in order, behind its cards; the pile empties |
| Offline.AfterBotTurn | resources/js/Pages/Offline.jsx:116-165 | definition of `botTurn` on values; its properties are stated by `BotTurnConserves`, `BotTurnHandsOff`, `BotTurnRefills` and `BotPicksUpWhenStuck` |
| Offline.AfterBotMove | resources/js/Pages/Offline.jsx:127-163 | definition of the rest of `botTurn` once `botPlay` has returned; its properties are stated by `AfterBotMoveConserves` |
| Offline.BotPlacesCard | resources/js/Pages/Offline.jsx:127-149 | definition of placing the bot's card or taking the pile; its properties are stated by `BotPlacesCardMoves` and `BotPlacingKeepsClearRanksOff` |
| Offline.BotKeepsTurn | resources/js/Pages/Offline.jsx:134-140 | definition: the bot keeps the turn exactly when its play cleared the pile with an extra turn; `BotTurnHandsOff` states what then stays |
| Offline.EndBotTurn | resources/js/Pages/Offline.jsx:151-161 | definition of the hand-off, refill and win check; its properties are stated by `EndBotTurnConserves`, `EndBotTurnDraws` and `GameOverSticksForBot` |
| Offline.BotTurnRefills | resources/js/Pages/Offline.jsx:116-156 | the bot refills twice in one turn: after a play that ends the turn its hand is `Draw` applied to the hand `botPlay` already refilled (resources/js/utils/game.js:75-77); after taking the pile it draws once from the unchanged deck |
| Offline.BotTurnDrawsTwice | resources/js/Pages/Offline.jsx:116-156 | holding two cards on an empty pile with two in the deck, and not playing a 6 or 10, the bot ends holding its second card and both deck cards, last one first; the deck is empty and its card is alone on the pile (3 and 4 in hand, 5 and 7 in the deck: hand 4, 7, 5) |
| Offline.BotOpensWithFirstCard | resources/js/utils/game.js:63-78 | on an empty pile the bot plays the first card of a non-empty hand and draws |
| Offline.EndOfTurnDraws | resources/js/Pages/Offline.jsx:141-156 | a non-clearing card on an empty pile stays there alone, and the end of the turn draws the deck's one card behind the two the bot holds |
| Offline.NonClearingPlayEndsTurn | resources/js/Pages/Offline.jsx:141-152 | a bot play that does not clear the pile goes on top of it and the turn passes to the human |
| Offline.EndBotTurnDraws | resources/js/Pages/Offline.jsx:151-161 | the end of the bot's turn leaves the pile alone and its hand and the deck are those of `Draw` |
| Offline.PickUpConserves | resources/js/Pages/Offline.jsx:191-201 | `handlePickUp` appends the pile to the human's hand, empties the pile, passes the turn and loses no card |
| Offline.AfterPickUp | resources/js/Pages/Offline.jsx:191-201 | definition of `handlePickUp` on values; its properties are stated by `PickUpConserves`, `PileNeverHoldsClearRank` and `TurnsKeepCardsUnique` |
| Offline.LaterStepsKeepPileAndFlag | resources/js/Pages/Offline.jsx:98-105 | refill and win check never touch the pile or clear the game-over flag |
| Offline.GameOverSticks | resources/js/Pages/Offline.jsx:102-105 | a finished game stays finished through a selection or a pick-up |
| Offline.GameOverSticksForBot | resources/js/Pages/Offline.jsx:158-161 | a finished game stays finished through the bot's turn |
| Offline.AtMostOnceShrinks | resources/js/Pages/Offline.jsx:84-86 | discarding cards keeps every card in the game at most once |
| Offline.PlayerPlacingKeepsClearRanksOff | resources/js/Pages/Offline.jsx:84-96 | the human's play never leaves a 6 or 10 on the pile |
| Offline.BotPlacingKeepsClearRanksOff | resources/js/Pages/Offline.jsx:127-149 | the bot's play never leaves a 6 or 10 on the pile |
| Offline.PileNeverHoldsClearRank | resources/js/Pages/Offline.jsx:84-96 | selections and pick-ups keep the pile free of 6s and 10s |
| Offline.PileNeverHoldsClearRankForBot | resources/js/Pages/Offline.jsx:134-143 | the bot's turn keeps the pile free of 6s and 10s |
| Offline.ReachedPilesCompareAlike | resources/js/Pages/Offline.jsx:181-189 | on any such pile, for number cards, the page's check and the rules module's agree |
| Offline.PileClickDuplicatesCard | resources/js/Pages/Offline.jsx:316-321 | clicking a pile card plays that card while splicing the human's own faceDown card: a card ends up in the game twice |
| Offline.OwnSelectionKeepsCardsUnique | resources/js/Pages/Offline.jsx:167-179 | selecting one's own card loses only discards, so no card is ever in the game twice |
| Offline.TurnsKeepCardsUnique | resources/js/Pages/Offline.jsx:116-201 | the bot's turn and a pick-up keep every card in the game at most once |
| Offline.SpliceZone | resources/js/Pages/Offline.jsx:70-76 | the splice on the participant object is `Spliced` on its zones |
| Offline.DrawUpToThree | resources/js/Pages/Offline.jsx:98-100 | the in-place refill is `Draw` on the hand and the deck |
| Offline.Game.StartNewGame | resources/js/Pages/Offline.jsx:42-60 | `startNewGame` builds fresh objects whose state is `NewGame(rolls)` |
| Offline.Game.HandleCardPlay | resources/js/Pages/Offline.jsx:62-111 | the in-place handler ends in `AfterCardPlay` of the old state |
| Offline.Game.RefillAndCheckWin | resources/js/Pages/Offline.jsx:98-105 | refill then win check, in place |
| Offline.Game.HandleCardSelection | resources/js/Pages/Offline.jsx:167-179 | the in-place handler ends in `AfterSelection` of the old state |
| Offline.Game.SelectOwnCard | resources/js/Pages/Offline.jsx:359-387 | a click on the human's own card at an index ends in `AfterOwnSelection` |
| Offline.Game.BotTurn | resources/js/Pages/Offline.jsx:116-165 | the in-place handler ends in `AfterBotTurn` of the old state |
| Offline.Game.EndBotTurnStep | resources/js/Pages/Offline.jsx:151-161 | hand-off, refill and win check, in place, end in `EndBotTurn` |
| Offline.Game.HandlePickUp | resources/js/Pages/Offline.jsx:191-201 | the in-place handler ends in `AfterPickUp` of the old state |

## Left out

- Rendering, styling and React's hooks are not modelled. Each `setGameState` updater is treated as running exactly once on the current state.
- `setTimeout(() => botTurn(), 1000)` is not modelled. `Game.BotTurn` is a separate handler, and scheduling and timing are outside the model.
- `Math.random` in `shuffleDeck` becomes a parameter `rolls`, where `rolls[i]` is the partner index drawn at loop index `i` (0..i). `ValidRolls` is the only assumption about the randomness.
- The status line's strings are modelled as one `Message` constructor per text. The text of each is in a comment next to its constructor.
- The state before the first deal (`player: null`) and the `if (!gameState.player) return` guards are not modelled: `Game.StartNewGame` always deals.
- `selectedCard` is not a field: it is always null. `validMoves` is not a field either: it is derived by an effect from `getValidMoves`, which is modelled as `Rules.GetValidMoves`.
- Offline.Game.HandlePickUp has no precondition for the pick-up button being disabled (not the human's turn, or an empty pile) (`Offline.jsx:397-402`). That is a rendering guard, and the handler itself works on any state.
- Rules.FindPlayableCard states its result through `FirstPlayable`, whose own contract gives the "first playable" property. The method's ensures does not repeat those quantifiers.
- Face-down cards are not hidden from the caller. The model has no notion of what the human can see.

## Findings

| source | as written | input that shows it | evidently intended | confidence | as-written member | corrected member |
|---|---|---|---|---|---|---|
| resources/js/Pages/Offline.jsx:316-321 | A pile card and a bot faceUp card are rendered with the same click handler as the human's cards, tagged 'pile' or 'faceUp'. The play splices the human's own card at that index, taking the faceDown branch for 'pile', while the clicked card goes on the pile. | The human holds only a faceDown 4 and the pile is [3♠]. Clicking the 3♠ on the pile is accepted as a 3 on a 3. Afterwards the 3♠ is in the game twice, the 4 is gone, and the human is declared the winner. | Only the human's own cards are selectable, and the card played is the one at the index of the named zone. | not executed | Offline.PileClickDuplicatesCard | Offline.OwnSelectionKeepsCardsUnique |
| resources/js/Pages/Offline.jsx:188 | The page's `canPlayCard` compares `Number.parseInt` of the ranks. J, Q, K and A parse to NaN, and every comparison with NaN is false. | A king on a queen is refused, and so is a queen on a king. A face card is never playable on a non-empty pile. | Strength as in the rules module's `compareCards` over `RANK_ORDER`: a total preorder, in which a king goes on a queen. | not executed | Offline.LocalRuleIsNotTotal | Rules.CompareIsTotalPreorder |

The corrected selection is `AfterOwnSelection`, which the class offers as `Game.SelectOwnCard`: the card is read from the named zone of the human's own cards. The corrected comparison is `Rules.CanPlayCard`, which the bot's moves use. `Game.HandleCardSelection` keeps the page's check as written.
