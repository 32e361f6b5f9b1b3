# Belot engine: a verified model

This project models the rules engine of a four-player Belot card game (the
Bulgarian trick-taking game played with a 32-card deck) in Dafny and proves
properties of it. The engine's own code is JavaScript under `src/game/`.
The model follows that code file by file:

| Dafny file | module | models |
|---|---|---|
| `cards.dfy` | `Cards` | `src/game/cards.js`: suits, ranks, card values, rankings, `isHigherThan`, `createDeck`, `shuffleDeck` |
| `combinations.dfy` | `Combinations` | `src/game/combinations.js`: sequences (tierce, quarte, quint), four-of-a-kind, belot, `getAllCombinations` |
| `rules.dfy` | `GameRules` | the rules `gameLogic.js` applies, stated as predicates and functions over values: contract ranks, admissible calls, the end of the bidding, the trick winner, the legal-play rules of `isValidCardPlay`, the announcement filter of `playCard` |
| `scoring.dfy` | `Scoring` | the arithmetic of `endRound`: card points with the last-trick bonus, valat, combinations, doubling, rounding, hanging points, the game winner |
| `game.dfy` | `GameLogic` | the `BelotGame` class of `gameLogic.js`: a Dafny `class` whose fields are updated in place by `Reset`, `Deal`, `MakeBid`, `PlayCard`, `CompleteTrick` and `EndRound` |
| `aiplayer.dfy` | `AIPlayer` | the integer heuristics of `src/game/aiplayer.js`: `evaluateCardPoints`, `makeAIBid`, ranking arrays and distances, the strongest card of a colour, the requested suit, and the partner-announce and trump-elimination bonuses |

Conventions used throughout:

- Players are numbered 0 to 3. Team `p % 2`: players 0 and 2 are team 0, players 1 and 3 are team 1.
- The next player is `(p + 3) % 4` and the partner is `(p + 2) % 4`.
- JavaScript `null` is `None` of an `Option`. A contract is `SuitContract(s)`, `NoTrump` or `AllTrump`.
- The `BelotGame` class groups its JavaScript fields into six record-valued fields:
  - `phase` and `dealer`;
  - `table`: the deck and the four hands;
  - `auction`: the bidder, the bids, the contract, the trump suit, double and redouble;
  - `round`: the current player, the current trick, the tricks, the round score and the announced combinations;
  - `scores`: the totals, the last round's scores, breakdown and rounded points, the hanging points and the winner.
- The game invariant (`Valid()`, on values `GameLogic.GameValid`) holds the following:
  - there are four hands and the dealer and current bidder are players of the table;
  - a redouble implies a double, and a double implies a standing contract bid;
  - a contract was bid by someone;
  - every trick's winner and team agree, and every completed trick has a winner;
  - the team arrays have two entries and the hanging points are never negative.
- A method either states its new state outright (through value-level functions such as `DealtAfter`, `AfterCall`, `AfterTrick` or `Settle`), or is proved against a specification function whose properties are lemmas.
- Card conservation is proved about those value functions. Dealing moves cards from the deck to the hands. Playing moves a card from a hand to the trick. Completing a trick moves it to the tricks. A fresh deal holds each of the 32 cards once.

### Behaviour of the code worth noting

The model follows the code. The points below are behaviour of the code that
a reader might not expect, and in two cases behaviour that the repository's
own tests or comments contradict. Each is stated as a lemma about the model.

- **Sequences overlap.** `findSequences` reports the longest run starting at *every* position of a suit, so overlapping sub-runs are reported as well. J-Q-K-A of hearts gives a quarte and a tierce (`Combinations.JackToAceGivesQuarteAndTierce`). The repository's tests at `src/game/__tests__/combinations.test.js:22-53` expect `toHaveLength(1)` for such hands.
- **Sequences are filtered only when announced.** `endRound` adds every announced combination of both teams; the only filtering happens at announcement time (`GameRules.Admits`):
  - a quarte is dropped when the opponents have announced a quint;
  - a tierce is dropped when they have announced a quint or a quarte.
- **Rounding fix-up.**
  - No-trump never gets the fix-up.
  - All-trump adds one point to the opponents when their points end in 4, and otherwise takes one from the contract team when the opponents' points end in 6.
  - The comment at `src/game/gameLogic.js:554-555` says the fix-up makes the rounded points add up to the total round points divided by ten. They do not always: 85/77 in a suit contract gives 9 + 8 = 17, not 16 (`Scoring.RoundingGapExample`).
- **Hanging points.**
  - After a win of the contract team, doubled or not, they are added to team 0 whatever the contract team (`Scoring.UndoubledWinKeepsBoth`, `Scoring.LeaderTakesAll`).
  - After a loss they go to the opponents.
  - After a tie the previously hanging points are first added to the opponents, and then overwritten by their normally rounded points, so they are lost. The contract team's rounded points hang in their place (`Scoring.TieHangsContractPoints`).
- **Contract bids after a double.** A contract bid made after a double or a redouble is accepted at any rank, because the last non-pass call then has no `CONTRACT_RANK` entry (`GameRules.ContractBidAdmissibility`).
- **Who bids first.** `deal()` sets the current bidder to 0 whatever the dealer: the assignment on line 79 is overwritten on line 84. After a redeal inside `makeBid`, the next bidder is therefore player 3.
- **`isHigherThan` under all-trump.** The trump suit is `null` under all-trump, so of two cards of different suits the one that did not lead never wins (`Cards.OffSuitWinsOnlyAsTrump`).
- **Valat with no tricks.** An empty list of tricks counts as a valat for team 0 (`Scoring.ValatTeam`).
- **Partner bids.** `makeAIBid` never uses partner bids for player 0, because of the `!playerId` guard. Its only call, at `src/App.jsx:162`, passes just the hand, so the defaults `bids = []`, `players = []` and `playerId = null` apply and the partner shortcut never fires for any player. That call is `MakeAIBid(hand, [], p)` here (`AIPlayer.PartnerShortcutReadsPartnerOnly`). The model's players table is the fixed four-player table, so the `players.length === 0` guard at `src/game/aiplayer.js:82` has no counterpart: with no bids, as at that call, the result is the same.

## Model

| member | source | states |
|---|---|---|
| Cards.TrumpIndex | src/game/cards.js:18-21 | the position of a rank in the trump ranking array: below 8 and the array holds the rank there |
| Cards.NonTrumpIndex | src/game/cards.js:18-21 | the same for the non-trump ranking array |
| Cards.SequenceIndex | src/game/cards.js:24 | the position of a rank in SEQUENCE_ORDER: below 8 and the order holds the rank there |
| Cards.SuitIndex | src/game/cards.js:2 | the position of a suit in SUITS: below 4 and SUITS holds the suit there |
| Cards.ValueAndRankingFollowTrump | src/game/cards.js:33-54 | getValue and getRanking use the trump tables exactly for trumps: every card under all-trump, the trump suit's cards under a suit contract, none under no-trump |
| Cards.RankingIsPositionInOrder | src/game/cards.js:44-54 | getRanking is the card's position in the ranking array its trump status selects |
| Cards.SameSuitStrictOrder | src/game/cards.js:56-65 | within one suit isHigherThan is a strict order: irreflexive, asymmetric, and total on distinct ranks |
| Cards.OffSuitWinsOnlyAsTrump | src/game/cards.js:66-68 | of two cards of different suits the first is higher exactly when it is of the trump suit; with no trump suit (null, as under all-trump) it never is |
| Cards.HigherIsTransitive | src/game/cards.js:56-69 | isHigherThan is transitive |
| Cards.TrumpIndexInjective | src/game/cards.js:18-21 | distinct ranks have distinct trump positions |
| Cards.NonTrumpIndexInjective | src/game/cards.js:18-21 | distinct ranks have distinct non-trump positions |
| Cards.IdInjective | src/game/cards.js:26-31 | the card id `suit-rank` determines the card: equal ids mean equal cards |
| Cards.SuitBlock | src/game/cards.js:75-77 | the eight cards the inner loop of createDeck pushes for one suit, all of that suit, ranks in RANKS order |
| Cards.BlocksUpTo | src/game/cards.js:73-78 | the deck after the first n suits: 8n cards |
| Cards.FullDeck | src/game/cards.js:72-80 | the deck createDeck builds: 32 cards |
| Cards.BlocksUpToContents | src/game/cards.js:73-78 | a card is among the first n suits' cards exactly when its suit is one of the first n |
| Cards.SuitBlockContents | src/game/cards.js:75-77 | a suit's block holds exactly the cards of that suit, each once |
| Cards.FullDeckHasEachCardOnce | src/game/cards.js:72-80 | the full deck holds every one of the 32 cards exactly once |
| Cards.CreateDeck | src/game/cards.js:72-80 | the nested loops build the full deck and shuffle it: 32 cards, each of the 32 cards exactly once |
| Cards.ShuffleDeck | src/game/cards.js:82-89 | Fisher-Yates swaps on an array copy: the result has the same length and is a permutation of the input, whatever random indices are picked |
| Cards.SumValuesAppend | src/game/cards.js:33-42 | the value of a concatenation of cards is the sum of the values of the parts |
| Cards.SuitBlockTotal | src/game/cards.js:6-15 | one suit is worth 62 as trump and 30 otherwise |
| Cards.DeckTotals | src/game/cards.js:6-15 | the whole deck is worth 152 in a suit contract, 248 in all-trump and 120 in no-trump |
| Combinations.OfSuitCount | src/game/combinations.js:16 | the filter keeps exactly the hand's cards of the suit, with their multiplicities |
| Combinations.SortedSuitIsSortedPermutation | src/game/combinations.js:16-18 | the modelled sort of a suit's cards is sorted by SEQUENCE_ORDER, all of that suit, and a permutation of the suit's cards |
| Combinations.SortedUnique | src/game/combinations.js:16-18 | two sorted permutations of the same cards are equal, so the sort's result is determined |
| Combinations.SortedSuitIsTheSort | src/game/combinations.js:16-18 | every sorted permutation of the suit's cards is the modelled sort |
| Combinations.IsConsecutive | src/game/combinations.js:43-52 | the loop returns true exactly when each card's sequence index is one above the previous card's |
| Combinations.FindSequences | src/game/combinations.js:11-41 | the method's pushes produce Sequences(cards), the specification the lemmas below describe |
| Combinations.PushSuitRuns | src/game/combinations.js:15-37 | for one suit, the outer loop appends the runs of that suit's sorted cards |
| Combinations.LongestRunAt | src/game/combinations.js:23-35 | the inner loop with its break returns the record TryLength describes: the longest run of 3 to 5 cards starting at i |
| Combinations.TryLengthIsLongest | src/game/combinations.js:23-35 | a record found at i is a run of n consecutive cards, 3 <= n <= 5, and no longer run of at most five cards starts at i; nothing is found exactly when no run of 3 to 5 cards starts at i |
| Combinations.SortedSuitMembers | src/game/combinations.js:16-18 | the sorted cards of a suit are the hand's cards of that suit |
| Combinations.RunsBeforeWellFormed | src/game/combinations.js:22-36 | every reported run is consecutive, of one type among tierce/quarte/quint with its points, and taken from the sorted cards |
| Combinations.TryLengthWellFormed | src/game/combinations.js:23-35 | a run found at one position is well formed |
| Combinations.SequencesWellFormed | src/game/combinations.js:11-41 | every sequence findSequences reports is three to five consecutive cards of one suit, all held, with the type and points of its length |
| Combinations.SequencesUpToWellFormed | src/game/combinations.js:13-38 | the same for the suits scanned so far |
| Combinations.FewerThanThreeNoRun | src/game/combinations.js:20 | a suit with fewer than three cards contributes nothing |
| Combinations.SequencesOfOneSuit | src/game/combinations.js:13-38 | a hand of one suit gives the runs of that suit's sorted cards only |
| Combinations.SequencesBySuit | src/game/combinations.js:13-15 | the sequences are those of clubs, then diamonds, then hearts, then spades |
| Combinations.OtherSuitHasNoRun | src/game/combinations.js:16-20 | a suit the hand does not hold contributes nothing |
| Combinations.SortedOneSuit | src/game/combinations.js:16-18 | a hand of one suit already in sequence order sorts to itself |
| Combinations.SequencesOfSortedSuit | src/game/combinations.js:13-38 | for such a hand the sequences are the runs found in the hand itself |
| Combinations.JackToAceGivesQuarteAndTierce | src/game/combinations.js:22-36 | J-Q-K-A of hearts gives a quarte of all four cards and a tierce of Q-K-A |
| Combinations.JackToAceRuns | src/game/combinations.js:22-36 | the runs found in J-Q-K-A: a quarte at the jack, a tierce at the queen |
| Combinations.GapGivesNoSequence | src/game/combinations.js:11-41 | A-K-J-10 of hearts, with the queen missing, gives no sequence |
| Combinations.GapHandSorts | src/game/combinations.js:16-18 | the sort of the gap hand is 10-J-K-A |
| Combinations.GapRuns | src/game/combinations.js:22-36 | 10-J-K-A holds no run of three |
| Combinations.GroupByRank | src/game/combinations.js:59-64 | the grouping loop yields, for each rank, that rank's cards in hand order, and the ranks are listed in first-insertion order |
| Combinations.FindEquals | src/game/combinations.js:54-80 | the method produces Equals(cards), the specification the lemmas below describe |
| Combinations.PushEqual | src/game/combinations.js:68-76 | one key of the Object.keys loop: a rank held four times is pushed as an equal of those four cards with its points, and any other count pushes nothing |
| Combinations.RankGroupRanks | src/game/combinations.js:59-64 | every card in a rank's group has that rank |
| Combinations.InsertionOrderMembers | src/game/combinations.js:59-64 | the insertion order lists exactly the ranks the hand holds, each once |
| Combinations.KeepHeldMembers | src/game/combinations.js:67 | keeping the held ranks of a list keeps exactly the listed ranks that are held |
| Combinations.NamedKeysMembers | src/game/combinations.js:67 | the named keys (J, Q, K, A) in insertion order are exactly the held named ranks, each once |
| Combinations.ObjectKeysMembers | src/game/combinations.js:67 | Object.keys order, with the integer-like keys 7, 8, 9, 10 ascending first and then J, Q, K, A in insertion order, lists exactly the held ranks, each once |
| Combinations.EqualsOverSound | src/game/combinations.js:67-77 | every reported four-of-a-kind is exactly the hand's cards of one rank, four of them, with that rank's points |
| Combinations.EqualsOverComplete | src/game/combinations.js:67-77 | every listed rank that the hand holds four times is reported |
| Combinations.EqualsOverDistinct | src/game/combinations.js:67-77 | no rank is reported twice |
| Combinations.EqualsOverEmpty | src/game/combinations.js:67-77 | scanning no keys reports nothing |
| Combinations.EqualsCharacterization | src/game/combinations.js:54-80 | a four-of-a-kind of a rank is reported exactly when the hand holds four cards of that rank (sevens and eights included); no rank is reported twice; nothing is reported when no rank is held four times |
| Combinations.EqualPointsTable | src/game/combinations.js:4-9 | a four-of-a-kind scores 200 for jacks, 150 for nines and 100 otherwise, the `|| 100` default covering sevens and eights |
| Combinations.FindBelot | src/game/combinations.js:82-95 | a belot is found exactly when there is a trump suit and the hand holds its queen and king; it is then those two cards for 20 points |
| Combinations.GetAllCombinations | src/game/combinations.js:97-106 | the method produces AllCombinations(cards, trumpSuit), described by AllCombinationsOrder |
| Combinations.AllCombinationsOrder | src/game/combinations.js:97-106 | the combinations are the sequences, then the four-of-a-kinds, then the belot if any |
| Combinations.SequencesKinds | src/game/combinations.js:26-31 | every sequence record is a tierce, a quarte or a quint |
| Combinations.EqualsKinds | src/game/combinations.js:70-75 | every four-of-a-kind record has kind equal |
| Combinations.RunGivesThreeRun | src/game/combinations.js:22-36 | a well-formed run taken from the hand means the hand holds three consecutive cards of one suit |
| Combinations.NoCombinationsWhenNothingHeld | src/game/combinations.js:97-106 | a hand with no three consecutive cards of a suit, no rank held four times and no queen and king of the trump suit has no combinations |
| GameRules.Team | src/game/gameLogic.js:30-35 | the team of a player: 0 exactly for the even ids of the players table |
| GameRules.Next | src/game/gameLogic.js:160 | the next player is a player of the table and of the other team |
| GameRules.ContractRank | src/game/gameLogic.js:4-12 | CONTRACT_RANK: suits 1 to 4 in SUITS order, no-trump 5, all-trump 6 |
| GameRules.ContractRankInjective | src/game/gameLogic.js:4-12 | distinct contracts have distinct ranks |
| GameRules.LastBid | src/game/gameLogic.js:108-110 | the latest contract bid: every later call is a pass, double or redouble |
| GameRules.LastNonPass | src/game/gameLogic.js:146-153 | the latest call that is not a pass: every later call is a pass |
| GameRules.ContractBidAdmissibility | src/game/gameLogic.js:146-157 | a contract bid is admitted exactly when there is no non-pass call yet, or the latest non-pass call is a double or redouble, or the bid outranks it; an admitted bid outranks the standing contract when that contract is the latest non-pass call |
| GameRules.DoubleAndRedoubleTeams | src/game/gameLogic.js:106-145 | a double needs a standing contract of the other team; a redouble needs a double and a standing contract of the caller's team; no call is both; no contract bid is admissible while the latest non-pass call is an all-trump bid |
| GameRules.BiddingEndCharacterization | src/game/gameLogic.js:165-194 | the bidding closes exactly when some contract was bid and the last three calls are passes; it closes on the latest contract bid, at least four calls back; a redeal means four passes with no bid |
| GameRules.WinnerOf | src/game/gameLogic.js:467-478 | the winning play is an index of the trick |
| GameRules.WinnerIsUnbeaten | src/game/gameLogic.js:467-478 | no card of the trick isHigherThan the winner's, and the winner is the lead or beats the lead |
| GameRules.WinnerIsUnique | src/game/gameLogic.js:467-478 | with distinct cards the only unbeaten play that is the lead or beats it is the winner |
| GameRules.SomeCardIsLegal | src/game/gameLogic.js:309-446 | whatever the trick and contract, a non-empty hand always holds a card isValidCardPlay accepts |
| GameRules.LegalWitness | src/game/gameLogic.js:309-446 | the same, with the legal card constructed |
| GameRules.NoTrumpOnlyFollowsSuit | src/game/gameLogic.js:359-364 | under no-trump a card is legal after a lead exactly when the hand has no card of the lead suit or the card follows suit; any card may lead |
| GameRules.AllTrumpMustRaise | src/game/gameLogic.js:318-357 | under all-trump a player holding the lead suit must follow it, and must raise above every card of that suit in the trick when the hand can |
| GameRules.MustOvertrumpWhenAble | src/game/gameLogic.js:403-434 | in a suit contract a player void in the lead suit, after an opponent has trumped, must overtrump every opponent trump when the hand can, and may play any held card when it cannot |
| GameRules.AdmittedCharacterization | src/game/gameLogic.js:234-267 | a record is announced exactly when it is one of the player's combinations, credited to that player, and the filter admits its kind against the opponents' quints and quartes; there are never more records than combinations |
| Scoring.Round10 | src/game/gameLogic.js:546-547 | Math.round(x / 10): the result r satisfies 10r - 5 <= x < 10r + 5 |
| Scoring.CardPoints | src/game/gameLogic.js:481-499 | each team's card points plus 10 for the team that won the last trick, all doubled under no-trump |
| Scoring.ValatTeam | src/game/gameLogic.js:501-511 | team 0 has valat exactly when it won every trick (including when there are none), team 1 exactly when it won every trick of a non-empty list, and otherwise nobody does |
| Scoring.RawScores | src/game/gameLogic.js:481-521 | each team's round score is its card points plus its 90 of valat, if any, plus its combination points |
| Scoring.RawScoresTotal | src/game/gameLogic.js:481-521 | the two raw scores add up to the trick points and the last 10 (doubled under no-trump), plus 90 for a valat and every combination |
| Scoring.FullRoundTotals | src/game/gameLogic.js:481-499 | with every card played the card points total 162 in a suit contract, 258 in all-trump and 260 in no-trump, where the points are doubled |
| Scoring.Multiplier | src/game/gameLogic.js:533-538 | 1, 2 or 4, and 1 whenever the round is a valat, a tie, or neither doubled nor redoubled |
| Scoring.NormalRounding | src/game/gameLogic.js:545-557 | both teams rounded; only the opponents' score can gain the all-trump fix-up and only the contract team's can lose the 6-ending one (see NormalRoundingNearRound10) |
| Scoring.TakeAll | src/game/gameLogic.js:558-562 | one team receives the points it is given (at the call sites, the total times the multiplier, divided by ten and rounded: `Math.round(total·m/10)`) and the other nothing |
| Scoring.Settle | src/game/gameLogic.js:527-610 | the rounded points and hanging points of the round for win, loss and tie |
| Scoring.SettleExamples | src/game/gameLogic.js:543-557 | 255/106 in hearts gives 25/11, 86/76 in spades gives 8/8, 204/54 in all-trump gives 20/6 |
| Scoring.RedoubledWinExample | src/game/gameLogic.js:558-562 | a redoubled suit-contract win at 100/62 scores `Math.round(162·4/10)` = 65 for the winner and 0 for the other team, not 4 · 16 = 64 |
| Scoring.SuitFixupKeepsTotal | src/game/gameLogic.js:553-557 | in a suit contract with the opponents ending in 6 and a total ending in 2, the rounded halves add up to the rounded total |
| Scoring.AllTrumpFixupKeepsTotal | src/game/gameLogic.js:550-552 | in all-trump with the opponents ending in 4 and a total ending in 8, the rounded halves add up to the rounded total |
| Scoring.RoundingGapExample | src/game/gameLogic.js:545-557 | 85/77 in a suit contract rounds to 9 + 8 = 17 while the total rounds to 16 |
| Scoring.SettleNonNegative | src/game/gameLogic.js:527-610 | rounded points and hanging points are never negative |
| Scoring.NormalRoundingNonNegative | src/game/gameLogic.js:545-557 | the fix-up never takes a rounded score below zero |
| Scoring.LeaderTakesAll | src/game/gameLogic.js:558-578 | after a doubled or redoubled win, or any loss, the leading team gets the total times the multiplier, divided by ten and rounded (`Math.round(total·m/10)`, so a redoubled 100/62 win scores 65, not 4 · 16, by `Scoring.RedoubledWinExample`); the other team gets nothing but the hanging points, which go to team 0 on a win and to the opponents on a loss |
| Scoring.UndoubledWinKeepsBoth | src/game/gameLogic.js:543-568 | after an undoubled win both teams keep their rounded points, the hanging points go to team 0, and nothing hangs afterwards |
| Scoring.TieHangsContractPoints | src/game/gameLogic.js:579-610 | on a tie the contract team gets nothing, its rounded points become the hanging points, the opponents get their rounded points, and the previously hanging points play no part |
| Scoring.NormalRoundingNearRound10 | src/game/gameLogic.js:545-557 | each rounded score is within one of Math.round(score / 10); the contract team loses one exactly outside no-trump with the opponents ending in 6, and the opponents gain one exactly in all-trump with their score ending in 4 |
| Scoring.GameWinner | src/game/gameLogic.js:616-623 | the game is won once a team reaches 151: by team 0 whenever team 0 has reached it, by team 1 only when team 0 has not |
| GameLogic.FindById | src/game/gameLogic.js:201-202 | findIndex by card id: the first index holding that id, or none when no card has it |
| GameLogic.FirstBidOf | src/game/gameLogic.js:528-530 | bids.find for the contract: the first bid naming it, or none when there is none |
| GameLogic.EachCardOnceMeans | src/game/cards.js:72-80 | a multiset equal to the full deck holds each of the 32 cards once and nothing else |
| GameLogic.NewDealCards | src/game/gameLogic.js:56-77 | after a deal the hands and the remaining deck hold each of the 32 cards once |
| GameLogic.BelotGame.constructor | src/game/gameLogic.js:22-25 | a new game is in the initial state of reset(), with no cards on the table |
| GameLogic.BelotGame.Reset | src/game/gameLogic.js:27-54 | reset() restores the initial state: the dealing phase, dealer 0, an empty deck and empty hands, no bids and no contract, and every score zero |
| GameLogic.BelotGame.DealPasses | src/game/gameLogic.js:61-76 | the dealing loops give each player in turn, player 0 first, one card from the end of the deck, while cards remain |
| GameLogic.BelotGame.DealCards | src/game/gameLogic.js:56-77 | a freshly created and shuffled deck is dealt three cards to each player by the first loop, then two more to each by the second |
| GameLogic.BelotGame.Deal | src/game/gameLogic.js:56-99 | deal(): the cards as DealCards deals them, an empty auction with bidder 0, the round and last-round state cleared and the bidding phase; the totals, the hanging points and the current player are kept |
| GameLogic.BelotGame.MakeBid | src/game/gameLogic.js:102-162 | makeBid accepts a call exactly when the caller is in turn and the call is admissible; a refused call changes nothing; an accepted one records the call with its flags, applies checkIsBiddingOver, and then always passes the turn to the next bidder |
| GameLogic.BelotGame.RecordCall | src/game/gameLogic.js:103-157 | the checks and the push of makeBid: the auction after the call, or the old auction when refused |
| GameLogic.BelotGame.CheckIsBiddingOver | src/game/gameLogic.js:165-194 | after three passes over a contract bid the contract, its trump suit and the playing phase are set and the next player after the dealer, `(dealer + 3) % 4`, leads, and the remaining three cards each are dealt (eight per hand and an empty deck, by `GameLogic.ContractDealCompletesHands`); after four passes with no bid the next dealer deals again; otherwise nothing changes |
| GameLogic.BelotGame.PlayCard | src/game/gameLogic.js:196-285 | playCard accepts exactly when it is the player's turn, the phase is playing, the card id is in the hand and the play is legal; a refused play changes nothing; an accepted one moves the card to the trick with its announcements, resolves a full trick and passes the turn otherwise |
| GameLogic.BelotGame.IsValidCardPlay | src/game/gameLogic.js:309-446 | the method's verdict is LegalPlay for the player's hand and the current trick |
| GameLogic.BelotGame.OpponentHasHighestCard | src/game/gameLogic.js:448-465 | true exactly when the play currently winning the trick is the other team's |
| GameLogic.BelotGame.CompleteTrick | src/game/gameLogic.js:288-307 | the trick joins the tricks, its points go to the winner's team and the winner leads; after the eighth trick the round is settled as endRound does |
| GameLogic.BelotGame.EndRound | src/game/gameLogic.js:480-625 | the round's scores, breakdown, rounded and hanging points as Scoring defines them, the new totals, and the winner and finished phase once a team reaches 151 |
| GameLogic.DetermineTrickWinner | src/game/gameLogic.js:467-478 | the loop finds the play WinnerOf names (unbeaten, and the lead or beating it) |
| GameLogic.PlayAt | src/game/gameLogic.js:209-284 | an accepted play: announcements recorded, the card moved from the hand to the trick, the trick resolved when it has four cards and the turn passed otherwise |
| GameLogic.PlayKeepsCards | src/game/gameLogic.js:271-273 | playing a card keeps the multiset of cards in play |
| GameLogic.MoveKeepsCards | src/game/gameLogic.js:271-273 | moving a card from a hand to the trick keeps the cards in play |
| GameLogic.TakeKeepsCards | src/game/gameLogic.js:272 | removing the card at an index leaves the hand's other cards |
| GameLogic.AutoAnnouncementsMeaning | src/game/gameLogic.js:221-269 | a record is announced automatically exactly when no trick is complete yet, the contract is set and is not no-trump, and the record is one of the hand's combinations, credited to the player and admitted against the opponents' quints and quartes; a belot is never among them |
| GameLogic.WithAnnouncementsAppends | src/game/gameLogic.js:209-269 | announcing only appends, and only to the player's team's list, and every appended record is credited to the player |
| GameLogic.PlayedValid | src/game/gameLogic.js:196-285 | an accepted play keeps the game invariant |
| GameLogic.AnnounceOnPlay | src/game/gameLogic.js:209-269 | the belot announcement and then the automatic ones are appended to the team's list |
| GameLogic.AnnounceBelot | src/game/gameLogic.js:209-219 | a queen or king of a game with a contract adds the belot of findBelotOnPlay when it finds one |
| GameLogic.AutoAnnounce | src/game/gameLogic.js:221-269 | in the first trick of a contract other than no-trump, the hand's combinations that the filter admits are appended |
| GameLogic.PushAdmitted | src/game/gameLogic.js:234-267 | the forEach of playCard pushes Admitted(combos) |
| GameLogic.WinnerOfStep | src/game/gameLogic.js:470-475 | one loop step of determineTrickWinner is one step of WinnerOf |
| GameLogic.LowestRanking | src/game/gameLogic.js:330-343 | the loop finds the best ranking of the lead suit in the trick (the smallest ranking number); the search starts from the lead card, so a value always exists |
| GameLogic.LowestOpponentTrump | src/game/gameLogic.js:407-418 | the best ranking among the opponents' trumps, present exactly when an opponent has trumped |
| GameLogic.Higher | src/game/gameLogic.js:345-350 | a held card of the suit ranks better than the reference ranking |
| GameLogic.RaiseAgainstLowest | src/game/gameLogic.js:345-354 | comparing against the best ranking found by the loop is raising above every card of the suit in the trick |
| GameLogic.OvertrumpAgainstLowest | src/game/gameLogic.js:420-434 | comparing against the best opponent trump found is overtrumping every opponent trump |
| GameLogic.AfterCall | src/game/gameLogic.js:104-157 | the auction after an accepted call: pushed to the bids, with double and redouble set or cleared as the call says |
| GameLogic.LastBidAppend | src/game/gameLogic.js:146-157 | after a contract bid the latest bid is that one; after another call it is unchanged |
| GameLogic.FirstBidOfAppend | src/game/gameLogic.js:146-157 | pushing a call onto the bids keeps the first bid of a contract already made, which endRound later finds with `bids.find` |
| GameLogic.AfterCallValid | src/game/gameLogic.js:102-157 | an accepted call keeps the game invariant |
| GameLogic.Trump | src/game/gameLogic.js:171-174 | the trump suit is the contract's suit for a suit contract and unchanged otherwise (no-trump and all-trump leave the previous trump suit) |
| GameLogic.ContractedValid | src/game/gameLogic.js:167-185 | closing the bidding keeps the game invariant |
| GameLogic.BiddingCheckedCards | src/game/gameLogic.js:165-194 | after checkIsBiddingOver the cards still hold each card once, whichever branch was taken |
| GameLogic.Share | src/game/gameLogic.js:60-76 | the cards one player receives from the end of the deck in n dealt cards, in dealing order |
| GameLogic.DealtAfter | src/game/gameLogic.js:60-76 | the table after n cards are dealt in turn: the deck shortened by n, each hand extended by its share |
| GameLogic.PopKeepsCards | src/game/gameLogic.js:64 | popping a card from the deck into a hand keeps the cards |
| GameLogic.ShareStep | src/game/gameLogic.js:62-66 | one more dealt card extends exactly the share of the player in turn |
| GameLogic.DealtAfterStep | src/game/gameLogic.js:62-66 | one loop step of dealing is one more card of DealtAfter |
| GameLogic.DealtAfterStepHand | src/game/gameLogic.js:62-66 | the step extends only the hand of the player in turn |
| GameLogic.DealtAfterKeepsCards | src/game/gameLogic.js:60-76 | dealing keeps the cards of deck and hands together |
| GameLogic.DealtAfterZero | src/game/gameLogic.js:60-76 | dealing no cards leaves the table |
| GameLogic.DealtAfterThen | src/game/gameLogic.js:69-76 | the second dealing loop continues the first: dealing m then n cards is dealing m + n |
| GameLogic.DealtAfterThenHand | src/game/gameLogic.js:69-76 | the same, hand by hand |
| GameLogic.DealtAfterHand | src/game/gameLogic.js:60-76 | each hand grows by exactly its share |
| GameLogic.ShareThen | src/game/gameLogic.js:69-76 | the share of m + n cards is the share of m followed by the share of the next n |
| GameLogic.FreshDeal | src/game/gameLogic.js:56-77 | a deal of a fresh 32-card deck leaves five cards in each hand and twelve in the deck, each card once |
| GameLogic.ContractDealCompletesHands | src/game/gameLogic.js:175-182 | after deal()'s five cards per player, the bidding-closing deal of three more cards each leaves eight cards in every hand and none in the deck |
| GameLogic.AddTrickPoints | src/game/gameLogic.js:295-298 | the forEach adds the value of every card of the trick to the winner's team only |
| GameLogic.AfterTrickValid | src/game/gameLogic.js:288-301 | completing a resolved trick keeps the round invariant |
| GameLogic.AfterTrickKeepsCards | src/game/gameLogic.js:292-301 | completing a trick keeps the cards in play |
| GameLogic.AfterTrickPoints | src/game/gameLogic.js:295-298 | the two scores together grow by the trick's value, and the losing team's score is unchanged |
| GameLogic.ContractTeam | src/game/gameLogic.js:528-530 | the team of the player who first bid the contract |
| GameLogic.FinalScores | src/game/gameLogic.js:481-521 | each team's round score at round end: card points with the last-trick bonus, valat bonus and combination points |
| GameLogic.FinalBreakdown | src/game/gameLogic.js:487-525 | the breakdown for display agrees with the final scores part by part |
| GameLogic.SettleRound | src/game/gameLogic.js:480-625 | the round end on values: the final scores and breakdown, the settlement, the new totals and the winner check |
| GameLogic.CheckGameEnd | src/game/gameLogic.js:616-623 | the phase becomes finished with the winner exactly when a team reaches 151 |
| GameLogic.RoundPoints | src/game/gameLogic.js:481-521 | the loops of endRound compute the final scores and breakdown |
| GameLogic.AddTeamCombos | src/game/gameLogic.js:513-521 | each team's combination points are added to its score and breakdown |
| GameLogic.CardPointsOf | src/game/gameLogic.js:481-499 | the card points and the last-trick bonus, with the breakdown's card points |
| GameLogic.AddValat | src/game/gameLogic.js:501-511 | the valat bonus of 90 is added to the team that won every trick, and recorded in its breakdown; nothing otherwise |
| GameLogic.AddComboPoints | src/game/gameLogic.js:515-520 | the reduce over one team's combinations adds their points |
| GameLogic.SettledValid | src/game/gameLogic.js:480-625 | the round end keeps the game invariant |
| AIPlayer.IndexIn | src/game/aiplayer.js:140-148 | indexOf in a ranking array is never -1: below 8 with the rank there |
| AIPlayer.RankingArrayAgreesWithRanking | src/game/aiplayer.js:140-148 | the array getRankingArray picks orders a suit's cards as getRanking does |
| AIPlayer.Top3RankMeaning | src/game/aiplayer.js:53-71 | the top three are J, 9, A for a trump and A, 10, K otherwise |
| AIPlayer.TopCards | src/game/aiplayer.js:53-71 | the cards evaluateCardPoints counts are exactly the hand's top-three cards |
| AIPlayer.EvaluateCardPointsIsSum | src/game/aiplayer.js:53-71 | evaluateCardPoints is the sum of the values of the hand's top-three cards |
| AIPlayer.EvaluateCardPointsAppend | src/game/aiplayer.js:53-71 | the evaluation of a hand is the sum of the evaluations of its parts |
| AIPlayer.EvaluateCardPointsBound | src/game/aiplayer.js:53-71 | no card adds more than 20 |
| AIPlayer.Partner | src/game/aiplayer.js:81-90 | the partner is a different player of the same team |
| AIPlayer.BidsBy | src/game/aiplayer.js:81-90 | the contracts bid by a player are exactly those of that player's contract calls |
| AIPlayer.MakeAIBid | src/game/aiplayer.js:74-137 | the AI bids a contract or passes, never doubles |
| AIPlayer.MakeAIBidSuit | src/game/aiplayer.js:116-128 | suit s is bid exactly when it qualifies (34 points, more than two cards), no earlier suit qualifies and the partner shortcut did not fire |
| AIPlayer.MakeAIBidOthers | src/game/aiplayer.js:100-136 | no-trump (32 points) and all-trump (60 points, or 45 after a partner suit bid) come after every suit; pass exactly when nothing qualifies |
| AIPlayer.PartnerShortcutReadsPartnerOnly | src/game/aiplayer.js:81-114 | player 0 never looks at the bids; the shortcut depends only on the partner's suit bids, and with no bids (the app's only call) it never fires |
| AIPlayer.GetDistance | src/game/aiplayer.js:171-188 | a distance exists exactly when the cards share a suit; getDistance throws otherwise |
| AIPlayer.StrengthIsPosition | src/game/aiplayer.js:151-168 | the strength tables count positions from the bottom of the ranking arrays |
| AIPlayer.DistanceIsPositionGap | src/game/aiplayer.js:151-188 | the distance is the gap in array positions; it is antisymmetric and zero exactly for equal ranks |
| AIPlayer.GetTrumpColor | src/game/aiplayer.js:393-398 | there is a trump colour exactly for a suit contract, and it is that suit |
| AIPlayer.RequestedSuitMeaning | src/game/aiplayer.js:597-613 | there is no requested suit for an empty trick; it differs from the lead suit exactly when a trump has been played to a trick led in another suit, and is then the trump suit |
| AIPlayer.MaxFoldAppend | src/game/aiplayer.js:215-246 | scanning two lists one after the other is scanning their concatenation |
| AIPlayer.MaxInColorMeaning | src/game/aiplayer.js:215-246 | nothing is found exactly when no card has the colour; otherwise the card found is of the colour, among the cards, and ranks at least as high as every card of the colour |
| AIPlayer.ScanForMax | src/game/aiplayer.js:228-243 | each for-of loop is one scan step per card |
| AIPlayer.GetCurrentMaxCardInColor | src/game/aiplayer.js:215-246 | the card found is the strongest of the colour over the unplayed cards and the current trick, the first of them on ties |
| AIPlayer.NoneHigherAppend | src/game/aiplayer.js:249-286 | no higher card in a concatenation means none in either part |
| AIPlayer.ScanForBigger | src/game/aiplayer.js:264-284 | the loop finds a bigger card exactly when some card of the colour ranks strictly above |
| AIPlayer.IsCurrentMaxCardInPlayingColor | src/game/aiplayer.js:249-286 | true exactly when the card is of the colour and no unplayed or trick card of the colour ranks above it |
| AIPlayer.CurrentMaxAgrees | src/game/aiplayer.js:215-286 | the two helpers agree: a card of the colour is the current maximum exactly when it ranks at least as high as the card getCurrentMaxCardInColor finds |
| AIPlayer.EvaluatePointsOnPartnerAnnounce | src/game/aiplayer.js:401-465 | 10 for every suit bid by the partner in the card's suit, minus 10 for every such bid of an opponent |
| AIPlayer.PartnerAnnounceStep | src/game/aiplayer.js:411-436 | one more bid adds 10 for the partner's bid in the card's suit, takes 10 for an opponent's, and otherwise nothing |
| AIPlayer.PartnerAnnounceBounds | src/game/aiplayer.js:411-436 | at most one count per bid on either side |
| AIPlayer.ConsiderTrick | src/game/aiplayer.js:504-514 | a player is added exactly when, in a trick led with the trump suit, that player (outside the player's team) played another suit |
| AIPlayer.Opponents | src/game/aiplayer.js:501 | the opponents are exactly the players of the other team |
| AIPlayer.PossiblyHolding | src/game/aiplayer.js:521 | the opponents kept are exactly those not shown out of trumps |
| AIPlayer.LikelihoodBounds | src/game/aiplayer.js:524-531 | the bonus is between 1 and 25, never falls with more unseen trumps, and never rises with a second opponent still holding trumps |
| AIPlayer.EvaluatePointsOnEliminatingOpponentTrumps | src/game/aiplayer.js:468-532 | a bonus of 0 to 25, positive exactly when the card is a trump of the player team's suit contract, trumps remain unseen and some opponent may still hold trumps, and then the likelihood bonus |
| AIPlayer.OpponentTrumpBonus | src/game/aiplayer.js:499-531 | nothing when every opponent is known to be out of trumps, else the likelihood bonus |
| AIPlayer.HoldingOpponentsMeaning | src/game/aiplayer.js:499-522 | some opponent may hold trumps exactly when a player of the other team is not known to be out |
| AIPlayer.HoldingAmong | src/game/aiplayer.js:521 | the players kept are exactly the listed ones not known to be out of trumps |
| AIPlayer.HoldingOpponents | src/game/aiplayer.js:499-521 | the opponents not known to be out of trumps |
| AIPlayer.PossiblyHoldingIsHolding | src/game/aiplayer.js:504-521 | filtering by the collected set is filtering by the players known to be out of trumps |
| AIPlayer.CollectOutOfTrumps | src/game/aiplayer.js:502-519 | the set of players shown out of trumps in the completed tricks or the current trick |

## Left out

- The React user interface, translations, contexts and the players' display names are outside the engine's rules and are not modelled. The fixed players table is modelled only as the ids 0 to 3 and their teams.
- `Math.random` in `shuffleDeck` is a parameter `rand`. `Cards.ShuffleDeck` proves a permutation for every choice it makes.
- `findBelotOnPlay` is imported by `gameLogic.js` but not defined in `combinations.js`. `PlayCard` takes it as a parameter, and nothing is assumed about what it returns.
- The floating-point heuristics of `aiplayer.js` are not modelled:
  - `evaluatePointsOnRemaining` and its original version;
  - `findZeroEvaluatedColor`;
  - `makeAIPlayCard`;
  - the helpers that only they use: `getPlayedCards`, `getRemainingCards`, `getCurrentHand`, `getBiggestCardInTrick`, `getPlayerWhoPlayedCard`, `getPartner`.
- The inputs of the modelled AI functions that those helpers produce are parameters (`remainingCards`, `currentHand`, `playedCards`).
- `getPlayerBids` in `makeAIBid` is never called, so it is not modelled.
- `getCardColorFromAnnouncement` and the announcement loop of `evaluatePointsOnPartnerAnnounce` are not modelled. A combination's type is never a suit name, so that loop never adds points.
- The fourth argument of `isHigherThan` is not used by its body and is left out.
- Object identity is not modelled. `includes` and `===` on cards become value equality, which agrees with the code because each card of a deal is created once.
- The JavaScript sort in `findSequences` is modelled by its result in closed form. Equal sort keys are equal cards, so the result does not depend on the sort's stability (`Combinations.SortedUnique`).
- GameLogic.BelotGame.CompleteTrick: requires a trick whose winner `playCard` has stored, as the comment on `completeTrick` (`src/game/gameLogic.js:286`) says it is called by the app once the played-out trick has been animated, which is after `playCard` resolved it. Called early, the source indexes `players[null]` on a trick of one to three cards, and on an empty trick pushes an empty trick and sets the current player to `null` without error; the model does not cover these calls.
- GameLogic.BelotGame.EndRound: requires a contract and a contract bid in the bids, as the game invariant guarantees after the bidding. The source dereferences that bid.
- AIPlayer.EvaluatePointsOnEliminatingOpponentTrumps: requires that every bid comes from a player of the table. The source reads `players[b.playerId].team`.
- AIPlayer.EvaluatePointsOnPartnerAnnounce: requires that the player is one of the table, as `players[playerId]` demands.
- AIPlayer.LikelihoodBounds: the `Math.round` of a float is modelled as the integer formula `(50u + d) / (2d)`. This is exact for the denominators 3 and 6 that one or two opponents give. A denominator of 1, with no opponent, is never reached, because the method returns 0 first.
- Card conservation (each of the 32 cards once) is not part of the class invariant `Valid()`. It is proved by lemmas about each step's value functions: `NewDealCards`, `BiddingCheckedCards`, `PlayKeepsCards`, `AfterTrickKeepsCards`.
- The repository's tests set `roundScore` rather than the `currentRoundScore` that `endRound` reads. `SettleExamples` states the expected outcomes of those tests directly on the settlement.
