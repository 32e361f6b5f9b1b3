/** The integer part of the computer player (src/game/aiplayer.js): the
    bidding heuristic and the card-evaluation helpers the card choice is
    built from. The players table is the fixed one of BelotGame (ids 0..3,
    team id % 2), so a player's partner is the other id of the same team. */
module AIPlayer {
  import opened Cards
  import opened Combinations
  import opened GameRules
  import opened GameLogic

  /** MIN_FOR_TRUMP, MIN_FOR_NOTRUMPS and MIN_FOR_ALLTRUMPS. */
  const MinForTrump: nat := 34
  const MinForNoTrumps: nat := 32
  const MinForAllTrumps: nat := 60

  // ---------------------------------------------------------------- ranking arrays

  /** The two arrays of CARD_RANKINGS. */
  datatype RankingArray = TrumpRanking | NonTrumpRanking

  function Order(a: RankingArray): seq<Rank>
  {
    match a
    case TrumpRanking => TrumpOrder
    case NonTrumpRanking => NonTrumpOrder
  }

  /** rankingArray.indexOf(r): never -1, every rank is in both arrays. */
  function IndexIn(a: RankingArray, r: Rank): (i: nat)
    ensures i < 8 && Order(a)[i] == r
  {
    match a
    case TrumpRanking => TrumpIndex(r)
    case NonTrumpRanking => NonTrumpIndex(r)
  }

  /** getRankingArray(contract, suit, trumpSuit): the trump array under
      all-trump, the non-trump array under no-trump, and otherwise the trump
      array exactly for the trump suit. */
  function GetRankingArray(contract: Option<Contract>, suit: Suit, trumpSuit: Option<Suit>): RankingArray
  {
    if contract == Some(AllTrump) then TrumpRanking
    else if contract == Some(NoTrump) then NonTrumpRanking
    else if Some(suit) == trumpSuit then TrumpRanking
    else NonTrumpRanking
  }

  /** Under a contract whose trump suit is the one BelotGame fixes, the
      array getRankingArray picks orders a suit's cards as getRanking
      does. */
  lemma RankingArrayAgreesWithRanking(c: Card, contract: Contract)
    ensures IndexIn(GetRankingArray(Some(contract), c.suit, Trump(contract, None)), c.rank) == Ranking(c, Some(contract))
  {
  }

  // ---------------------------------------------------------------- bidding

  /** isTop3Rank of evaluateCardPoints: the card's rank is among the first
      three of the array the contract applies to it. */
  predicate IsTop3Rank(c: Card, contract: Contract)
  {
    var a := if contract == AllTrump then TrumpRanking
             else if contract == NoTrump then NonTrumpRanking
             else if contract == SuitContract(c.suit) then TrumpRanking
             else NonTrumpRanking;
    IndexIn(a, c.rank) < 3
  }

  /** evaluateCardPoints(hand, contract): the reduce adding getValue over the
      cards that pass isTop3Rank. */
  function EvaluateCardPoints(hand: seq<Card>, contract: Contract): nat
  {
    if hand == [] then 0
    else
      var c := hand[|hand| - 1];
      EvaluateCardPoints(hand[..|hand| - 1], contract) + (if IsTop3Rank(c, contract) then Value(c, Some(contract)) else 0)
  }

  /** The top three are J, 9, A for a trump and A, 10, K otherwise. */
  lemma Top3RankMeaning(c: Card, contract: Contract)
    ensures IsTop3Rank(c, contract)
            <==> if IsTrump(c, Some(contract)) then c.rank == Jack || c.rank == Nine || c.rank == Ace
                 else c.rank == Ace || c.rank == Ten || c.rank == King
  {
  }

  /** The cards evaluateCardPoints counts, in hand order. */
  function TopCards(hand: seq<Card>, contract: Contract): (top: seq<Card>)
    ensures forall c :: c in top <==> c in hand && IsTop3Rank(c, contract)
  {
    if hand == [] then []
    else
      var c := hand[|hand| - 1];
      TopCards(hand[..|hand| - 1], contract) + (if IsTop3Rank(c, contract) then [c] else [])
  }

  /** evaluateCardPoints is the card value sum (SumValues) of the top-three
      cards of the hand. */
  lemma {:induction false} EvaluateCardPointsIsSum(hand: seq<Card>, contract: Contract)
    ensures EvaluateCardPoints(hand, contract) == SumValues(TopCards(hand, contract), Some(contract))
  {
    if hand != [] {
      var c := hand[|hand| - 1];
      var init := hand[..|hand| - 1];
      EvaluateCardPointsIsSum(init, contract);
      SumValuesAppend(TopCards(init, contract), if IsTop3Rank(c, contract) then [c] else [], Some(contract));
    }
  }

  /** The evaluation of a hand is the sum of the evaluations of its parts. */
  lemma {:induction false} EvaluateCardPointsAppend(a: seq<Card>, b: seq<Card>, contract: Contract)
    ensures EvaluateCardPoints(a + b, contract) == EvaluateCardPoints(a, contract) + EvaluateCardPoints(b, contract)
  {
    if b == [] {
      assert a + b == a;
    } else {
      var init := b[..|b| - 1];
      assert (a + b)[..|a + b| - 1] == a + init;
      assert (a + b)[|a + b| - 1] == b[|b| - 1];
      EvaluateCardPointsAppend(a, init, contract);
    }
  }

  /** No card adds more than the trump jack's 20. */
  lemma {:induction false} EvaluateCardPointsBound(hand: seq<Card>, contract: Contract)
    ensures EvaluateCardPoints(hand, contract) <= 20 * |hand|
  {
    if hand != [] {
      EvaluateCardPointsBound(hand[..|hand| - 1], contract);
    }
  }

  /** The partner of a player of the fixed table: the other id of the
      same team. */
  function Partner(p: nat): (q: nat)
    requires p < 4
    ensures q < 4 && q != p && Team(q) == Team(p)
  {
    (p + 2) % 4
  }

  /** The contracts bid by player id, in order (filter + map of
      getPartnerBids). */
  function BidsBy(bids: seq<BidEntry>, id: nat): (r: seq<Contract>)
    ensures forall c :: c in r <==> exists i :: 0 <= i < |bids| && bids[i].playerId == id && bids[i].call == Bid(c)
  {
    if bids == [] then []
    else
      var e := bids[|bids| - 1];
      var init := bids[..|bids| - 1];
      assert forall i :: 0 <= i < |init| ==> init[i] == bids[i];
      BidsBy(init, id) + (if e.playerId == id && e.call.Bid? then [e.call.contract] else [])
  }

  /** getPartnerBids(): nothing for player 0 (the !playerId guard) or an
      id outside the table, else the partner's contract bids. */
  function PartnerBids(bids: seq<BidEntry>, playerId: nat): seq<Contract>
  {
    if playerId == 0 || playerId >= 4 then [] else BidsBy(bids, Partner(playerId))
  }

  /** The partner has bid a trump suit (partnerTrumpBids.length > 0). */
  predicate PartnerBidSuit(bids: seq<BidEntry>, playerId: nat)
  {
    exists i :: 0 <= i < |PartnerBids(bids, playerId)| && PartnerBids(bids, playerId)[i].SuitContract?
  }

  /** The suit-contract test of makeAIBid: at least 34 points with s as
      trump and more than two cards of s. */
  predicate SuitQualifies(hand: seq<Card>, s: Suit)
  {
    EvaluateCardPoints(hand, SuitContract(s)) >= MinForTrump && |OfSuit(hand, s)| > 2
  }

  /** makeAIBid(hand, bids, players, playerId): all-trump at 75% of its
      threshold (45) when the partner has bid a suit; otherwise the first of
      clubs, diamonds, hearts, spades that qualifies, then no-trump at 32,
      then all-trump at 60, else pass. */
  function MakeAIBid(hand: seq<Card>, bids: seq<BidEntry>, playerId: nat): (call: Call)
    ensures call == Pass || call.Bid?
  {
    if PartnerBidSuit(bids, playerId) && EvaluateCardPoints(hand, AllTrump) >= MinForAllTrumps * 3 / 4 then Bid(AllTrump)
    else if SuitQualifies(hand, Clubs) then Bid(SuitContract(Clubs))
    else if SuitQualifies(hand, Diamonds) then Bid(SuitContract(Diamonds))
    else if SuitQualifies(hand, Hearts) then Bid(SuitContract(Hearts))
    else if SuitQualifies(hand, Spades) then Bid(SuitContract(Spades))
    else if EvaluateCardPoints(hand, NoTrump) >= MinForNoTrumps then Bid(NoTrump)
    else if EvaluateCardPoints(hand, AllTrump) >= MinForAllTrumps then Bid(AllTrump)
    else Pass
  }

  /** The partner shortcut: it fires exactly when the partner has a suit
      bid and the all-trump evaluation reaches 45. */
  predicate PartnerShortcut(hand: seq<Card>, bids: seq<BidEntry>, playerId: nat)
  {
    PartnerBidSuit(bids, playerId) && EvaluateCardPoints(hand, AllTrump) >= 45
  }

  /** The first match wins: suit s is bid exactly when it qualifies, no
      suit before it in clubs, diamonds, hearts, spades does, and the
      partner shortcut did not fire. */
  lemma MakeAIBidSuit(hand: seq<Card>, bids: seq<BidEntry>, playerId: nat, s: Suit)
    ensures MakeAIBid(hand, bids, playerId) == Bid(SuitContract(s))
            <==> !PartnerShortcut(hand, bids, playerId) && SuitQualifies(hand, s)
                 && forall t: Suit :: SuitIndex(t) < SuitIndex(s) ==> !SuitQualifies(hand, t)
  {
    if s == Clubs {
    } else if s == Diamonds {
      assert SuitIndex(Clubs) < SuitIndex(s);
    } else if s == Hearts {
      assert SuitIndex(Clubs) < SuitIndex(s) && SuitIndex(Diamonds) < SuitIndex(s);
    } else {
      assert SuitIndex(Clubs) < SuitIndex(s) && SuitIndex(Diamonds) < SuitIndex(s) && SuitIndex(Hearts) < SuitIndex(s);
    }
  }

  /** No suit qualifies for a suit bid. */
  predicate NoSuitQualifies(hand: seq<Card>)
  {
    !SuitQualifies(hand, Clubs) && !SuitQualifies(hand, Diamonds) && !SuitQualifies(hand, Hearts) && !SuitQualifies(hand, Spades)
  }

  /** No-trump and all-trump are only reached after every suit; pass
      exactly when nothing qualifies. */
  lemma MakeAIBidOthers(hand: seq<Card>, bids: seq<BidEntry>, playerId: nat)
    ensures NoSuitQualifies(hand) <==> forall s: Suit :: !SuitQualifies(hand, s)
    ensures (MakeAIBid(hand, bids, playerId) == Bid(NoTrump))
            <==> !PartnerShortcut(hand, bids, playerId) && NoSuitQualifies(hand)
                 && EvaluateCardPoints(hand, NoTrump) >= MinForNoTrumps
    ensures (MakeAIBid(hand, bids, playerId) == Bid(AllTrump))
            <==> PartnerShortcut(hand, bids, playerId)
                 || (NoSuitQualifies(hand) && EvaluateCardPoints(hand, NoTrump) < MinForNoTrumps
                     && EvaluateCardPoints(hand, AllTrump) >= MinForAllTrumps)
    ensures (MakeAIBid(hand, bids, playerId) == Pass)
            <==> !PartnerShortcut(hand, bids, playerId) && NoSuitQualifies(hand)
                 && EvaluateCardPoints(hand, NoTrump) < MinForNoTrumps
                 && EvaluateCardPoints(hand, AllTrump) < MinForAllTrumps
  {
    if NoSuitQualifies(hand) {
      forall s: Suit ensures !SuitQualifies(hand, s) {
        match s
        case Clubs => case Diamonds => case Hearts => case Spades =>
      }
    }
  }

  /** Player 0 never looks at the bids (the !playerId guard), and the
      partner shortcut only reads the partner's bids. */
  lemma PartnerShortcutReadsPartnerOnly(hand: seq<Card>, bids: seq<BidEntry>, playerId: nat)
    ensures playerId == 0 ==> MakeAIBid(hand, bids, playerId) == MakeAIBid(hand, [], playerId)
    ensures !PartnerBidSuit([], playerId)
    ensures PartnerBidSuit(bids, playerId)
            <==> 0 < playerId < 4
                 && exists i :: 0 <= i < |bids| && bids[i].playerId == Partner(playerId) && bids[i].call.Bid?
                                && bids[i].call.contract.SuitContract?
  {
    if 0 < playerId < 4 {
      var pb := PartnerBids(bids, playerId);
      if PartnerBidSuit(bids, playerId) {
        var k :| 0 <= k < |pb| && pb[k].SuitContract?;
        assert pb[k] in pb;
      }
      if exists i :: 0 <= i < |bids| && bids[i].playerId == Partner(playerId) && bids[i].call.Bid?
                     && bids[i].call.contract.SuitContract? {
        var i :| 0 <= i < |bids| && bids[i].playerId == Partner(playerId) && bids[i].call.Bid?
                 && bids[i].call.contract.SuitContract?;
        assert bids[i].call.contract in pb;
      }
    }
  }

  // ---------------------------------------------------------------- distances

  /** The trumpRankings table of getDistanceTrumps: J 8 down to 7 1. */
  function TrumpStrength(r: Rank): nat
  {
    match r
    case Jack => 8 case Nine => 7 case Ace => 6 case Ten => 5
    case King => 4 case Queen => 3 case Eight => 2 case Seven => 1
  }

  /** The nonTrumpRankings table of getDistanceNoTrumps: A 8 down to 7 1. */
  function NonTrumpStrength(r: Rank): nat
  {
    match r
    case Ace => 8 case Ten => 7 case King => 6 case Queen => 5
    case Jack => 4 case Nine => 3 case Eight => 2 case Seven => 1
  }

  function GetDistanceTrumps(card: Card, maxCard: Card): int
  {
    TrumpStrength(maxCard.rank) - TrumpStrength(card.rank)
  }

  function GetDistanceNoTrumps(card: Card, maxCard: Card): int
  {
    NonTrumpStrength(maxCard.rank) - NonTrumpStrength(card.rank)
  }

  /** getDistance(card, maxCard, contract, trumpSuit): None where the source
      throws (cards of different suits); otherwise the trump distance under
      all-trump or for the trump suit, the non-trump distance otherwise. */
  function GetDistance(card: Card, maxCard: Card, contract: Option<Contract>, trumpSuit: Option<Suit>): (d: Option<int>)
    ensures d.Some? <==> card.suit == maxCard.suit
  {
    if card.suit != maxCard.suit then None
    else if contract == Some(AllTrump) then Some(GetDistanceTrumps(card, maxCard))
    else if contract == Some(NoTrump) then Some(GetDistanceNoTrumps(card, maxCard))
    else if Some(card.suit) == trumpSuit then Some(GetDistanceTrumps(card, maxCard))
    else Some(GetDistanceNoTrumps(card, maxCard))
  }

  /** The strength tables count positions from the bottom of the
      CARD_RANKINGS arrays. */
  lemma StrengthIsPosition(r: Rank)
    ensures TrumpStrength(r) == 8 - TrumpIndex(r) && NonTrumpStrength(r) == 8 - NonTrumpIndex(r)
  {
  }

  /** The distance is the number of places maxCard stands above card in the
      array getRankingArray picks for their suit; it is antisymmetric and
      zero exactly for equal ranks. */
  lemma DistanceIsPositionGap(card: Card, maxCard: Card, contract: Option<Contract>, trumpSuit: Option<Suit>)
    requires card.suit == maxCard.suit
    ensures var a := GetRankingArray(contract, card.suit, trumpSuit);
            GetDistance(card, maxCard, contract, trumpSuit) == Some(IndexIn(a, card.rank) - IndexIn(a, maxCard.rank))
    ensures GetDistance(maxCard, card, contract, trumpSuit).value == -GetDistance(card, maxCard, contract, trumpSuit).value
    ensures GetDistance(card, maxCard, contract, trumpSuit) == Some(0) <==> card.rank == maxCard.rank
  {
    StrengthIsPosition(card.rank);
    StrengthIsPosition(maxCard.rank);
    var a := GetRankingArray(contract, card.suit, trumpSuit);
    assert IndexIn(a, card.rank) == IndexIn(a, maxCard.rank) ==> card.rank == maxCard.rank;
  }

  // ---------------------------------------------------------------- the requested suit

  /** getTrumpColor(contract): the suit of a suit contract. */
  function GetTrumpColor(contract: Option<Contract>): (s: Option<Suit>)
    ensures s.Some? <==> contract.Some? && contract.value.SuitContract?
    ensures s.Some? ==> contract == Some(SuitContract(s.value))
  {
    match contract
    case Some(SuitContract(t)) => Some(t)
    case _ => None
  }

  /** getRequestedSuit(game): None for an empty trick; the trump suit once a
      card of it has been played to another lead; the lead suit otherwise. */
  function GetRequestedSuit(plays: seq<Play>, trumpSuit: Option<Suit>): Option<Suit>
  {
    if |plays| == 0 then None
    else
      var leadSuit := plays[0].card.suit;
      var hasTrump := exists i :: 0 <= i < |plays| && Some(plays[i].card.suit) == trumpSuit && plays[i].card.suit != leadSuit;
      if hasTrump && trumpSuit.Some? then trumpSuit else Some(leadSuit)
  }

  /** The requested suit is the lead's unless a trump has been played to a
      trick led in another suit, in which case it is the trump suit. */
  lemma RequestedSuitMeaning(plays: seq<Play>, trumpSuit: Option<Suit>)
    ensures GetRequestedSuit(plays, trumpSuit).None? <==> plays == []
    ensures plays != [] ==>
              (GetRequestedSuit(plays, trumpSuit) != Some(plays[0].card.suit)
               <==> trumpSuit.Some? && trumpSuit.value != plays[0].card.suit
                    && exists i :: 0 <= i < |plays| && plays[i].card.suit == trumpSuit.value)
    ensures (plays != [] && GetRequestedSuit(plays, trumpSuit) != Some(plays[0].card.suit))
            ==> GetRequestedSuit(plays, trumpSuit) == trumpSuit
  {
  }
  // ---------------------------------------------------------------- the strongest card of a colour

  /** One step of the loops of getCurrentMaxCardInColor: a card of the
      colour replaces the current maximum when it stands strictly earlier in
      the ranking array a (so the first of equally ranked cards is kept). */
  function MaxStep(m: Option<Card>, c: Card, color: Suit, a: RankingArray): Option<Card>
  {
    if c.suit == color && (m.None? || IndexIn(a, m.value.rank) > IndexIn(a, c.rank)) then Some(c) else m
  }

  /** The steps over cards, starting from the maximum m. */
  function MaxFold(m: Option<Card>, cards: seq<Card>, color: Suit, a: RankingArray): Option<Card>
  {
    if cards == [] then m else MaxStep(MaxFold(m, cards[..|cards| - 1], color, a), cards[|cards| - 1], color, a)
  }

  /** The maximum of the colour over cards, starting from none. */
  function MaxInColor(cards: seq<Card>, color: Suit, a: RankingArray): Option<Card>
  {
    MaxFold(None, cards, color, a)
  }

  /** Running on after xs is running over xs + ys. */
  lemma {:induction false} MaxFoldAppend(m: Option<Card>, xs: seq<Card>, ys: seq<Card>, color: Suit, a: RankingArray)
    ensures MaxFold(MaxFold(m, xs, color, a), ys, color, a) == MaxFold(m, xs + ys, color, a)
  {
    if ys == [] {
      assert xs + ys == xs;
    } else {
      var init := ys[..|ys| - 1];
      assert (xs + ys)[..|xs + ys| - 1] == xs + init;
      assert (xs + ys)[|xs + ys| - 1] == ys[|ys| - 1];
      MaxFoldAppend(m, xs, init, color, a);
    }
  }

  /** The fold finds nothing exactly when no card has the colour, and
      otherwise a card of the colour, among the cards, ranked at least as
      high as every other card of the colour. */
  lemma {:induction false} MaxInColorMeaning(cards: seq<Card>, color: Suit, a: RankingArray)
    ensures MaxInColor(cards, color, a).None? <==> forall i :: 0 <= i < |cards| ==> cards[i].suit != color
    ensures MaxInColor(cards, color, a).Some? ==>
              var m := MaxInColor(cards, color, a).value;
              m in cards && m.suit == color
              && forall i :: 0 <= i < |cards| && cards[i].suit == color ==> IndexIn(a, m.rank) <= IndexIn(a, cards[i].rank)
  {
    if cards != [] {
      var init := cards[..|cards| - 1];
      MaxInColorMeaning(init, color, a);
      assert forall i :: 0 <= i < |init| ==> init[i] == cards[i];
    }
  }

  /** One of the two for-of loops of getCurrentMaxCardInColor. */
  method ScanForMax(m0: Option<Card>, cards: seq<Card>, color: Suit, a: RankingArray) returns (maxCard: Option<Card>)
    ensures maxCard == MaxFold(m0, cards, color, a)
  {
    maxCard := m0;
    var i := 0;
    while i < |cards|
      invariant i <= |cards|
      invariant maxCard == MaxFold(m0, cards[..i], color, a)
    {
      var card := cards[i];
      assert cards[..i + 1][..i] == cards[..i];
      if card.suit == color {
        if maxCard.None? || IndexIn(a, maxCard.value.rank) - IndexIn(a, card.rank) > 0 {
          maxCard := Some(card);
        }
      }
      i := i + 1;
    }
    assert cards[..i] == cards;
  }

  /** getCurrentMaxCardInColor(color, contract, trumpSuit, remainingCards,
      currentHand): the loop over the unplayed cards, then the loop over the
      cards of the current trick. */
  method GetCurrentMaxCardInColor(color: Suit, contract: Option<Contract>, trumpSuit: Option<Suit>,
                                  remainingCards: seq<Card>, currentHand: seq<Card>)
    returns (maxCard: Option<Card>)
    ensures maxCard == MaxInColor(remainingCards + currentHand, color, GetRankingArray(contract, color, trumpSuit))
  {
    var a := GetRankingArray(contract, color, trumpSuit);
    maxCard := ScanForMax(None, remainingCards, color, a);
    maxCard := ScanForMax(maxCard, currentHand, color, a);
    MaxFoldAppend(None, remainingCards, currentHand, color, a);
  }

  /** No card of the colour ranks strictly above card in array a. */
  predicate NoneHigher(card: Card, color: Suit, a: RankingArray, cards: seq<Card>)
  {
    forall i :: 0 <= i < |cards| && cards[i].suit == color ==> IndexIn(a, card.rank) <= IndexIn(a, cards[i].rank)
  }

  lemma NoneHigherAppend(card: Card, color: Suit, a: RankingArray, xs: seq<Card>, ys: seq<Card>)
    ensures NoneHigher(card, color, a, xs + ys) <==> NoneHigher(card, color, a, xs) && NoneHigher(card, color, a, ys)
  {
    assert forall i :: 0 <= i < |xs| ==> (xs + ys)[i] == xs[i];
    assert forall i :: 0 <= i < |ys| ==> (xs + ys)[|xs| + i] == ys[i];
  }

  /** One of the two for-of loops of isCurrentMaxCardInPlayingColor: it
      stops at the first card of the colour ranked strictly above card. */
  method ScanForBigger(card: Card, color: Suit, a: RankingArray, cards: seq<Card>) returns (foundBigger: bool)
    ensures foundBigger <==> !NoneHigher(card, color, a, cards)
  {
    foundBigger := false;
    var i := 0;
    while i < |cards|
      invariant i <= |cards|
      invariant NoneHigher(card, color, a, cards[..i])
    {
      var remCard := cards[i];
      if remCard.suit == color && IndexIn(a, card.rank) - IndexIn(a, remCard.rank) > 0 {
        foundBigger := true;
        return;
      }
      assert forall k :: 0 <= k < i ==> cards[..i + 1][k] == cards[..i][k];
      i := i + 1;
    }
    assert cards[..i] == cards;
  }

  /** isCurrentMaxCardInPlayingColor(card, playingColor, contract, trumpSuit,
      remainingCards, currentHand): false for a card of another colour;
      otherwise true exactly when neither list holds a card of the colour
      ranked strictly above it (the current trick is only searched when the
      unplayed cards hold none). */
  method IsCurrentMaxCardInPlayingColor(card: Card, playingColor: Suit, contract: Option<Contract>, trumpSuit: Option<Suit>,
                                        remainingCards: seq<Card>, currentHand: seq<Card>)
    returns (r: bool)
    ensures r <==> card.suit == playingColor
                   && NoneHigher(card, playingColor, GetRankingArray(contract, playingColor, trumpSuit), remainingCards + currentHand)
  {
    if card.suit != playingColor {
      return false;
    }
    var a := GetRankingArray(contract, playingColor, trumpSuit);
    NoneHigherAppend(card, playingColor, a, remainingCards, currentHand);
    var foundBigger := ScanForBigger(card, playingColor, a, remainingCards);
    if !foundBigger {
      foundBigger := ScanForBigger(card, playingColor, a, currentHand);
    }
    r := !foundBigger;
  }

  /** The two helpers agree: a card of the colour is the current maximum
      exactly when it ranks at least as high as the card
      getCurrentMaxCardInColor finds (or that finds none); a card of the
      colour that is among the cards is the maximum exactly when it is the
      card found. */
  lemma CurrentMaxAgrees(card: Card, color: Suit, a: RankingArray, cards: seq<Card>)
    requires card.suit == color
    ensures NoneHigher(card, color, a, cards)
            <==> MaxInColor(cards, color, a).None? || IndexIn(a, card.rank) <= IndexIn(a, MaxInColor(cards, color, a).value.rank)
    ensures card in cards ==> (NoneHigher(card, color, a, cards) <==> MaxInColor(cards, color, a) == Some(card))
  {
    MaxInColorMeaning(cards, color, a);
    if MaxInColor(cards, color, a).Some? {
      var m := MaxInColor(cards, color, a).value;
      var k :| 0 <= k < |cards| && cards[k] == m;
      if card in cards {
        var h :| 0 <= h < |cards| && cards[h] == card;
      }
    }
  }

  // ---------------------------------------------------------------- partner and opponent bids

  /** The number of bids of trump suit s made by player id. */
  function SuitBidsBy(bids: seq<BidEntry>, s: Suit, id: nat): nat
  {
    if bids == [] then 0
    else SuitBidsBy(bids[..|bids| - 1], s, id) + (if bids[|bids| - 1] == BidEntry(id, Bid(SuitContract(s))) then 1 else 0)
  }

  /** The number of bids of trump suit s made by a player of the table not
      in team (players[b.playerId] must exist). */
  function OpponentSuitBids(bids: seq<BidEntry>, s: Suit, team: nat): nat
  {
    if bids == [] then 0
    else
      var b := bids[|bids| - 1];
      OpponentSuitBids(bids[..|bids| - 1], s, team) + (if b.playerId < 4 && Team(b.playerId) != team && b.call == Bid(SuitContract(s)) then 1 else 0)
  }

  /** evaluatePointsOnPartnerAnnounce(card, announcedCombinations, bids,
      playerId, players): 10 for every trump-suit bid of the partner in the
      card's suit, minus 10 for every such bid of an opponent. */
  method EvaluatePointsOnPartnerAnnounce(card: Card, bids: seq<BidEntry>, playerId: nat) returns (points: int)
    requires playerId < 4
    ensures points == 10 * SuitBidsBy(bids, card.suit, Partner(playerId)) - 10 * OpponentSuitBids(bids, card.suit, Team(playerId))
  {
    var partner := Partner(playerId);
    points := 0;
    var i := 0;
    while i < |bids|
      invariant i <= |bids|
      invariant points == 10 * SuitBidsBy(bids[..i], card.suit, partner)
    {
      var b := bids[i];
      if b.playerId == partner && b.call.Bid? {
        if b.call.contract.SuitContract? {
          if card.suit == b.call.contract.trump {
            points := points + 10;
          }
        }
      }
      assert bids[..i + 1][..i] == bids[..i];
      i := i + 1;
    }
    assert bids[..i] == bids;
    var partnerPoints := points;
    i := 0;
    while i < |bids|
      invariant i <= |bids|
      invariant points == partnerPoints - 10 * OpponentSuitBids(bids[..i], card.suit, Team(playerId))
    {
      var b := bids[i];
      if b.playerId < 4 && Team(b.playerId) != Team(playerId) && b.call.Bid? {
        if b.call.contract.SuitContract? {
          if card.suit == b.call.contract.trump {
            points := points - 10;
          }
        }
      }
      assert bids[..i + 1][..i] == bids[..i];
      i := i + 1;
    }
    assert bids[..i] == bids;
  }

  /** How one more bid moves the partner-announce points of a card: the
      player's own bids and bids of other suits move nothing, a partner's
      bid in the card's suit adds 10, an opponent's takes 10 away. */
  lemma PartnerAnnounceStep(bids: seq<BidEntry>, b: BidEntry, card: Card, playerId: nat)
    requires playerId < 4
    ensures var before := 10 * SuitBidsBy(bids, card.suit, Partner(playerId)) - 10 * OpponentSuitBids(bids, card.suit, Team(playerId));
            var after := 10 * SuitBidsBy(bids + [b], card.suit, Partner(playerId)) - 10 * OpponentSuitBids(bids + [b], card.suit, Team(playerId));
            after == before + (if b.call != Bid(SuitContract(card.suit)) || b.playerId == playerId || b.playerId >= 4 then 0
                               else if b.playerId == Partner(playerId) then 10 else -10)
  {
    assert (bids + [b])[..|bids + [b]| - 1] == bids;
  }

  /** The points stay within ten per bid either way. */
  lemma {:induction false} PartnerAnnounceBounds(bids: seq<BidEntry>, s: Suit, id: nat, team: nat)
    ensures SuitBidsBy(bids, s, id) <= |bids| && OpponentSuitBids(bids, s, team) <= |bids|
  {
    if bids != [] {
      PartnerAnnounceBounds(bids[..|bids| - 1], s, id, team);
    }
  }

  // ---------------------------------------------------------------- eliminating opponent trumps

  /** In a trick led with the trump suit t, player pid (not of team, or not a
      player of the table) has played a card of another suit. */
  predicate ShowsVoid(plays: seq<Play>, t: Suit, team: nat, pid: nat)
  {
    |plays| > 0 && plays[0].card.suit == t
    && !(pid < 4 && Team(pid) == team)
    && exists j :: 0 <= j < |plays| && plays[j].playerId == pid && plays[j].card.suit != t
  }

  /** considerTrick: adds to outOfTrumps the players ShowsVoid names. */
  method ConsiderTrick(plays: seq<Play>, t: Suit, team: nat, out0: set<nat>) returns (out: set<nat>)
    ensures forall pid :: pid in out <==> pid in out0 || ShowsVoid(plays, t, team, pid)
  {
    out := out0;
    if |plays| == 0 || plays[0].card.suit != t {
      return;
    }
    var j := 0;
    while j < |plays|
      invariant j <= |plays|
      invariant forall pid :: pid in out <==> pid in out0 || ShowsVoid(plays[..j], t, team, pid)
    {
      var pid := plays[j].playerId;
      if !(pid < 4 && Team(pid) == team) && plays[j].card.suit != t {
        out := out + {pid};
      }
      assert forall k :: 0 <= k < j ==> plays[..j + 1][k] == plays[..j][k];
      assert plays[..j + 1][j] == plays[j];
      j := j + 1;
    }
    assert plays[..j] == plays;
  }

  /** A player shows no trumps in a completed trick or in the current one. */
  predicate KnownVoid(tricks: seq<Trick>, current: seq<Play>, t: Suit, team: nat, pid: nat)
  {
    (exists i :: 0 <= i < |tricks| && ShowsVoid(tricks[i].cards, t, team, pid)) || ShowsVoid(current, t, team, pid)
  }

  /** The ids of the table's players outside team, in table order. */
  function Opponents(team: nat): (ids: seq<nat>)
    ensures forall p :: p in ids <==> p < 4 && Team(p) != team
  {
    if team == 0 then [1, 3] else if team == 1 then [0, 2] else [0, 1, 2, 3]
  }

  /** opponents.filter(pid => !opponentOutOfTrumps.has(pid)). */
  function PossiblyHolding(ids: seq<nat>, out: set<nat>): (r: seq<nat>)
    ensures forall p :: p in r <==> p in ids && p !in out
    ensures |r| <= |ids|
  {
    if ids == [] then [] else (if ids[0] in out then [] else [ids[0]]) + PossiblyHolding(ids[1..], out)
  }

  /** The bonus for unseen trumps u spread over n opponents who may still
      hold trumps: 25 * min(1, u / max(1, 3n)), rounded half up, at least 1.
      With u and n positive the denominator is 3 or 6, so the quotient is a
      float that Math.round turns into the same integer as (50u + d) / 2d. */
  function Likelihood(u: nat, n: nat): int
  {
    var d := if 3 * n > 1 then 3 * n else 1;
    if u >= d then 25 else
    var b := (50 * u + d) / (2 * d);
    if b > 1 then b else 1
  }

  /** For the at most eight unseen trumps and one or two opponents the bonus
      is between 1 and 25; more unseen trumps never lower it and a second
      opponent who may still hold trumps never raises it. */
  lemma LikelihoodBounds(u: nat, n: nat)
    requires u <= 8 && 1 <= n <= 2
    ensures 1 <= Likelihood(u, n) <= 25
    ensures Likelihood(u, n) <= Likelihood(u + 1, n)
    ensures Likelihood(u, 2) <= Likelihood(u, 1)
  {
    if u == 0 {
    } else if u == 1 {
    } else if u == 2 {
    } else if u == 3 {
    } else if u == 4 {
    } else if u == 5 {
    } else {
    }
  }

  /** evaluatePointsOnEliminatingOpponentTrumps(card, game, playerId,
      playedCards, currentHand, playerHand): a bonus for leading a trump
      while the opponents may still hold trumps.  The tricks, the current
      trick's plays, the bids and the contract are the game's fields;
      every bid comes from a player of the table. */
  method EvaluatePointsOnEliminatingOpponentTrumps(card: Card, contract: Option<Contract>, bids: seq<BidEntry>,
                                                   tricks: seq<Trick>, trickPlays: seq<Play>, playerId: nat,
                                                   playedCards: seq<Card>, currentHand: seq<Card>, playerHand: seq<Card>)
    returns (bonus: int)
    requires playerId < 4
    requires forall i :: 0 <= i < |bids| ==> bids[i].playerId < 4
    ensures 0 <= bonus <= 25
    ensures bonus > 0 <==>
              contract.Some? && contract.value.SuitContract? && card.suit == contract.value.trump
              && FirstBidOf(bids, contract.value).Some? && Team(bids[FirstBidOf(bids, contract.value).value].playerId) == Team(playerId)
              && Unseen(contract.value.trump, playedCards, currentHand, playerHand) > 0
              && HoldingOpponents(tricks, trickPlays, contract.value.trump, Team(playerId)) != []
    ensures bonus > 0 ==>
              bonus == Likelihood(Unseen(contract.value.trump, playedCards, currentHand, playerHand) as nat,
                                  |HoldingOpponents(tricks, trickPlays, contract.value.trump, Team(playerId))|)
  {
    var trumpSuit := GetTrumpColor(contract);
    if trumpSuit.None? || card.suit != trumpSuit.value {
      return 0;
    }
    var t := trumpSuit.value;
    var contractBid := FirstBidOf(bids, contract.value);
    if contractBid.None? {
      return 0;
    }
    var contractTeam := Team(bids[contractBid.value].playerId);
    var playerTeam := Team(playerId);
    if contractTeam != playerTeam {
      return 0;
    }
    var unseenTrumps := 8 - |OfSuit(playedCards, t)| - |OfSuit(currentHand, t)| - |OfSuit(playerHand, t)|;
    if unseenTrumps <= 0 {
      return 0;
    }
    bonus := OpponentTrumpBonus(tricks, trickPlays, t, playerTeam, unseenTrumps as nat);
  }

  /** The end of evaluatePointsOnEliminatingOpponentTrumps, once u trumps are
      unseen: nothing when every opponent has shown to be out of trumps,
      else the likelihood bonus for the opponents who may still hold some. */
  method OpponentTrumpBonus(tricks: seq<Trick>, trickPlays: seq<Play>, t: Suit, playerTeam: nat, u: nat) returns (bonus: int)
    requires playerTeam < 2 && 0 < u <= 8
    ensures 0 <= bonus <= 25
    ensures bonus > 0 <==> HoldingOpponents(tricks, trickPlays, t, playerTeam) != []
    ensures bonus > 0 ==> bonus == Likelihood(u, |HoldingOpponents(tricks, trickPlays, t, playerTeam)|)
  {
    var outOfTrumps := CollectOutOfTrumps(tricks, trickPlays, t, playerTeam);
    var possibly := PossiblyHolding(Opponents(playerTeam), outOfTrumps);
    PossiblyHoldingIsHolding(Opponents(playerTeam), outOfTrumps, tricks, trickPlays, t, playerTeam);
    if |possibly| == 0 {
      return 0;
    }
    bonus := Likelihood(u, |possibly|);
    LikelihoodBounds(u, |possibly|);
  }

  /** Some opponent who may still hold trumps is left exactly when some
      player of the other team is not known to be out of trumps. */
  lemma HoldingOpponentsMeaning(tricks: seq<Trick>, current: seq<Play>, t: Suit, team: nat)
    ensures HoldingOpponents(tricks, current, t, team) != []
            <==> exists p :: p < 4 && Team(p) != team && !KnownVoid(tricks, current, t, team, p)
  {
    var ids := HoldingOpponents(tricks, current, t, team);
    if ids != [] {
      assert ids[0] in ids;
    }
  }

  /** The trumps neither played, nor on the table, nor in the player's hand. */
  function Unseen(t: Suit, playedCards: seq<Card>, currentHand: seq<Card>, playerHand: seq<Card>): int
  {
    8 - |OfSuit(playedCards, t)| - |OfSuit(currentHand, t)| - |OfSuit(playerHand, t)|
  }

  /** The opponents among ids not known to be out of trumps, in order. */
  function HoldingAmong(ids: seq<nat>, tricks: seq<Trick>, current: seq<Play>, t: Suit, team: nat): (r: seq<nat>)
    ensures forall p :: p in r <==> p in ids && !KnownVoid(tricks, current, t, team, p)
  {
    if ids == [] then []
    else (if KnownVoid(tricks, current, t, team, ids[0]) then [] else [ids[0]]) + HoldingAmong(ids[1..], tricks, current, t, team)
  }

  /** The opponents not known to be out of trumps, in table order. */
  function HoldingOpponents(tricks: seq<Trick>, current: seq<Play>, t: Suit, team: nat): (ids: seq<nat>)
    ensures forall p :: p in ids <==> p < 4 && Team(p) != team && !KnownVoid(tricks, current, t, team, p)
  {
    HoldingAmong(Opponents(team), tricks, current, t, team)
  }

  /** Filtering by the set of players shown void is filtering by KnownVoid. */
  lemma {:induction false} PossiblyHoldingIsHolding(ids: seq<nat>, out: set<nat>, tricks: seq<Trick>, current: seq<Play>, t: Suit, team: nat)
    requires forall p :: p in out <==> KnownVoid(tricks, current, t, team, p)
    ensures PossiblyHolding(ids, out) == HoldingAmong(ids, tricks, current, t, team)
  {
    if ids != [] {
      PossiblyHoldingIsHolding(ids[1..], out, tricks, current, t, team);
    }
  }

  /** The considerTrick calls over the completed tricks and the current
      trick: the set of players known to be out of trumps. */
  method CollectOutOfTrumps(tricks: seq<Trick>, current: seq<Play>, t: Suit, team: nat) returns (out: set<nat>)
    ensures forall p :: p in out <==> KnownVoid(tricks, current, t, team, p)
  {
    out := {};
    var i := 0;
    while i < |tricks|
      invariant i <= |tricks|
      invariant forall p :: p in out <==> exists k :: 0 <= k < i && ShowsVoid(tricks[k].cards, t, team, p)
    {
      out := ConsiderTrick(tricks[i].cards, t, team, out);
      i := i + 1;
    }
    out := ConsiderTrick(current, t, team, out);
  }
}
