/** BelotGame (src/game/gameLogic.js): the round state machine. Its fields
    are mutated by dealing, bidding, card play, trick completion and round
    scoring; each method is proved against the rules in GameRules and the
    arithmetic in Scoring. The players table is fixed (ids 0..3, team
    id % 2); a player's hand is hands[id]. */
module GameLogic {
  import opened Cards
  import opened Combinations
  import opened GameRules
  import opened Scoring

  /** The multiset of all cards in four hands. */
  function HandCards(hands: seq<seq<Card>>): multiset<Card>
    requires |hands| == 4
  {
    multiset(hands[0]) + multiset(hands[1]) + multiset(hands[2]) + multiset(hands[3])
  }

  /** Replacing one hand changes the four hands' cards by that hand only. */
  lemma HandCardsUpdate(hands: seq<seq<Card>>, p: nat, h: seq<Card>)
    requires |hands| == 4 && p < 4
    ensures HandCards(hands[p := h]) + multiset(hands[p]) == HandCards(hands) + multiset(h)
  {
    if p == 0 {
    } else if p == 1 {
    } else if p == 2 {
    } else {
    }
  }

  /** The cards of a list of plays. */
  function PlayedCards(plays: seq<Play>): (cs: seq<Card>)
    ensures |cs| == |plays|
    ensures forall i :: 0 <= i < |plays| ==> cs[i] == plays[i].card
  {
    if plays == [] then [] else PlayedCards(plays[..|plays| - 1]) + [plays[|plays| - 1].card]
  }

  /** The cards of the completed tricks. */
  function TrickCards(tricks: seq<Trick>): multiset<Card>
  {
    if tricks == [] then multiset{}
    else TrickCards(tricks[..|tricks| - 1]) + multiset(PlayedCards(tricks[|tricks| - 1].cards))
  }

  /** hand.findIndex(c => c.id === cardId), searching from index i. */
  function FindById(hand: seq<Card>, cardId: string, i: nat): (r: Option<nat>)
    requires i <= |hand|
    ensures r.Some? ==> i <= r.value < |hand| && Id(hand[r.value]) == cardId
                        && forall j :: i <= j < r.value ==> Id(hand[j]) != cardId
    ensures r.None? ==> forall j :: i <= j < |hand| ==> Id(hand[j]) != cardId
    decreases |hand| - i
  {
    if i == |hand| then None
    else if Id(hand[i]) == cardId then Some(i)
    else FindById(hand, cardId, i + 1)
  }

  /** The index of the first bid naming the given contract
      (bids.find(b => b.bid === this.contract)). */
  function FirstBidOf(bids: seq<BidEntry>, c: Contract): (r: Option<nat>)
    ensures r.Some? ==> r.value < |bids| && bids[r.value].call == Bid(c)
                        && forall j :: 0 <= j < r.value ==> bids[j].call != Bid(c)
    ensures r.None? <==> forall j :: 0 <= j < |bids| ==> bids[j].call != Bid(c)
  {
    if bids == [] then None
    else match FirstBidOf(bids[..|bids| - 1], c)
         case Some(i) => Some(i)
         case None => if bids[|bids| - 1].call == Bid(c) then Some(|bids| - 1) else None
  }

  /** The combination points of one team's announcements. */
  function ComboPoints(list: seq<Announced>): nat
  {
    if list == [] then 0 else ComboPoints(list[..|list| - 1]) + list[|list| - 1].combo.points
  }

  function TrickTeams(tricks: seq<Trick>): (teams: seq<Option<nat>>)
    ensures |teams| == |tricks|
    ensures forall i :: 0 <= i < |tricks| ==> teams[i] == tricks[i].team
  {
    if tricks == [] then [] else TrickTeams(tricks[..|tricks| - 1]) + [tricks[|tricks| - 1].team]
  }

  /** The team of the last trick's winner, when there is a last trick. */
  function LastTrickTeam(tricks: seq<Trick>): Option<nat>
  {
    if tricks != [] && tricks[|tricks| - 1].winner.Some? then Some(Team(tricks[|tricks| - 1].winner.value))
    else None
  }

  /** The cards of createDeck's deck: every one of the 32 cards exactly
      once (EachCardOnceMeans). */
  ghost predicate EachCardOnce(m: multiset<Card>)
  {
    m == multiset(FullDeck())
  }

  lemma EachCardOnceMeans(m: multiset<Card>)
    ensures EachCardOnce(m) <==> forall c: Card :: m[c] == 1
  {
    forall c: Card
      ensures multiset(FullDeck())[c] == 1
    {
      FullDeckHasEachCardOnce(c);
    }
  }


  /** The cards on the table outside the tricks: the undealt deck (its top
      is the last element) and the hand of each player id. */
  datatype Table = Table(deck: seq<Card>, hands: seq<seq<Card>>)

  /** The bidding: whose call it is, the calls so far, and the contract,
      trump suit and double/redouble flags they fixed. */
  datatype Auction = Auction(currentBidder: nat, bids: seq<BidEntry>, contract: Option<Contract>,
                             trumpSuit: Option<Suit>, double: bool, redouble: bool)

  /** The card play of a round: whose turn it is, the trick on the table,
      the completed tricks, the points each team has taken and the
      combinations each team has announced. */
  datatype Round = Round(currentPlayer: nat, currentTrick: Trick, tricks: seq<Trick>,
                         currentRoundScore: seq<nat>, announcedCombinations: seq<seq<Announced>>)

  /** The score board: game totals, the last round as displayed, the points
      left hanging by a tie and the game winner. */
  datatype Scores = Scores(totalScores: seq<int>, lastRoundScore: seq<nat>, lastRoundBreakdown: seq<Breakdown>,
                           lastRoundRoundedPoints: seq<int>, hangingPoints: int, winner: Option<nat>)

  const EmptyTrick: Trick := Trick([], None, None)
  const ZeroBreakdown: Breakdown := Breakdown(0, 0, 0)
  const EmptyHands: seq<seq<Card>> := [[], [], [], []]

  /** deal() goes round the table three times, then twice more. */
  const FirstPasses: nat := 3
  const SecondPasses: nat := 2
  /** checkIsBiddingOver deals the remaining three cards to each player. */
  const ContractPasses: nat := 3

  /** A trick's winner is a player and its team is that player's team. */
  predicate Resolved(t: Trick)
  {
    (t.winner.Some? ==> t.winner.value < 4 && t.team == Some(Team(t.winner.value)))
    && (t.winner.None? ==> t.team.None?)
  }

  predicate AuctionValid(a: Auction)
  {
    a.currentBidder < 4
    && (a.redouble ==> a.double)
    && (a.double ==> LastBid(a.bids).Some?)
    && (a.contract.Some? ==> FirstBidOf(a.bids, a.contract.value).Some?)
  }

  predicate RoundValid(r: Round)
  {
    r.currentPlayer < 4 && |r.currentRoundScore| == 2 && |r.announcedCombinations| == 2
    && (forall i :: 0 <= i < |r.currentTrick.cards| ==> r.currentTrick.cards[i].playerId < 4)
    && Resolved(r.currentTrick)
    && (forall i :: 0 <= i < |r.tricks| ==> r.tricks[i].winner.Some? && Resolved(r.tricks[i]))
  }

  predicate ScoresValid(s: Scores)
  {
    |s.totalScores| == 2 && |s.lastRoundScore| == 2 && |s.lastRoundBreakdown| == 2
    && |s.lastRoundRoundedPoints| == 2 && s.hangingPoints >= 0
  }

  /** Every card on the table: deck, hands, the current trick and the
      completed tricks. */
  function InPlay(t: Table, r: Round): multiset<Card>
    requires |t.hands| == 4
  {
    TableCards(t) + multiset(PlayedCards(r.currentTrick.cards)) + TrickCards(r.tricks)
  }

  /** The state invariant on the values of BelotGame's fields. */
  ghost predicate GameValid(dealer: nat, t: Table, a: Auction, r: Round, s: Scores)
  {
    |t.hands| == 4 && dealer < 4 && AuctionValid(a) && RoundValid(r) && ScoresValid(s)
  }

  /** The round variables right after a deal: bidding from player 0,
      nothing bid, played or announced, and last round's results
      cleared. */
  ghost predicate DealtState(p: Phase, t: Table, a: Auction, r: Round, s: Scores)
  {
    |t.hands| == 4
    && p == Bidding
    && a == Auction(0, [], None, None, false, false)
    && r.currentTrick == EmptyTrick && r.tricks == [] && r.currentRoundScore == [0, 0]
    && r.announcedCombinations == [[], []]
    && s.lastRoundScore == [0, 0] && s.lastRoundBreakdown == [ZeroBreakdown, ZeroBreakdown]
    && s.lastRoundRoundedPoints == [0, 0] && s.winner == None
  }

  /** A deal of a freshly shuffled deck: the round variables cleared and
      the table as dealing five cards each from some shuffled deck leaves
      it. */
  ghost predicate NewDeal(p: Phase, t: Table, a: Auction, r: Round, s: Scores)
  {
    DealtState(p, t, a, r, s)
    && exists d :: ShuffledDeck(d) && t == DealtAfter(d, EmptyHands, 4 * (FirstPasses + SecondPasses))
  }

  /** After a new deal every player holds five cards, twelve stay in the
      deck, and the cards in play are the 32 of the deck, each once. */
  lemma NewDealCards(p: Phase, t: Table, a: Auction, r: Round, s: Scores)
    requires NewDeal(p, t, a, r, s)
    ensures |t.deck| == 12 && (forall q :: 0 <= q < 4 ==> |t.hands[q]| == 5)
    ensures EachCardOnce(InPlay(t, r))
  {
    var d :| ShuffledDeck(d) && t == DealtAfter(d, EmptyHands, 4 * (FirstPasses + SecondPasses));
    FreshDeal(d, t);
    NothingPlayed(t, r);
  }

  /** Before the first play the cards in play are those on the table. */
  lemma NothingPlayed(t: Table, r: Round)
    requires |t.hands| == 4 && r.currentTrick.cards == [] && r.tricks == []
    ensures InPlay(t, r) == TableCards(t)
  {
    assert PlayedCards([]) == [];
  }

  class BelotGame {
    var phase: Phase
    var dealer: nat
    var table: Table
    var auction: Auction
    var round: Round
    var scores: Scores

    /** The state invariant: four hands, players 0..3, two-entry team
        arrays, resolved tricks credited to the winner's team, a redouble
        only on a double and a double only on a contract bid, and the
        contract among the bids, and no negative hanging points. That no
        card is created or lost is proved of the values each method leaves
        (NewDealCards, BiddingCheckedCards, PlayKeepsCards,
        AfterTrickKeepsCards). */
    ghost predicate Valid()
      reads this
    {
      GameValid(dealer, table, auction, round, scores)
    }

    /** Every card on the table: deck, hands, current trick and completed
        tricks. */
    ghost function Cards(): multiset<Card>
      reads this
      requires |table.hands| == 4
    {
      InPlay(table, round)
    }

    constructor ()
      ensures Valid() && Initial() && Cards() == multiset{}
    {
      new;
      Reset();
    }

    /** The state reset() leaves. */
    ghost predicate Initial()
      reads this
    {
      phase == Dealing && dealer == 0
      && table == Table([], EmptyHands)
      && auction == Auction(0, [], None, None, false, false)
      && round == Round(0, EmptyTrick, [], [0, 0], [[], []])
      && scores == Scores([0, 0], [0, 0], [ZeroBreakdown, ZeroBreakdown], [0, 0], 0, None)
    }

    /** reset(): a fresh game, with no card on the table. */
    method Reset()
      modifies this
      ensures Valid() && Initial() && Cards() == multiset{}
    {
      phase := Dealing;
      table := Table([], EmptyHands);
      dealer := 0;
      auction := Auction(0, [], None, None, false, false);
      round := Round(0, EmptyTrick, [], [0, 0], [[], []]);
      scores := Scores([0, 0], [0, 0], [ZeroBreakdown, ZeroBreakdown], [0, 0], 0, None);
      assert InPlay(table, round) == multiset{} by {
        assert HandCards(EmptyHands) == multiset{};
        assert PlayedCards([]) == [];
      }
    }

    // -------------------------------------------------------------- dealing

    /** `passes` rounds of: each player in turn, player 0 first, takes
        deck.pop() while the deck is not empty. */
    method DealPasses(passes: nat)
      requires |table.hands| == 4
      modifies this`table
      ensures |old(table.hands)| == 4
      ensures table == DealtAfter(old(table.deck), old(table.hands), Min(4 * passes, |old(table.deck)|))
    {
      ghost var d, h := table.deck, table.hands;
      var t := table;
      DealtAfterZero(d, h);
      for i := 0 to passes
        invariant t == DealtAfter(d, h, Min(4 * i, |d|))
      {
        for p := 0 to 4
          invariant t == DealtAfter(d, h, Min(4 * i + p, |d|))
        {
          TurnOfDeal(i, p);
          if |t.deck| > 0 {
            var card := t.deck[|t.deck| - 1];
            ghost var before := t;
            t := Table(t.deck[..|t.deck| - 1], t.hands[p := t.hands[p] + [card]]);
            DealtAfterStep(d, h, 4 * i + p, before, t);
          }
        }
      }
      table := t;
    }

    /** The cards of deal(): a fresh shuffled deck, then three cards and
        two more to each player in turn, player 0 first. */
    method DealCards(rand: nat -> nat) returns (ghost created: seq<Card>)
      requires |table.hands| == 4
      modifies this`table
      ensures ShuffledDeck(created) && table == DealtAfter(created, EmptyHands, 4 * (FirstPasses + SecondPasses))
    {
      var deck := CreateDeck(rand);
      created := deck;
      assert ShuffledDeck(created);
      table := Table(deck, EmptyHands);
      DealPasses(FirstPasses);
      ghost var first := table;
      assert first == DealtAfter(created, EmptyHands, 4 * FirstPasses);
      DealPasses(SecondPasses);
      assert table == DealtAfter(first.deck, first.hands, 4 * SecondPasses);
      DealtAfterThen(created, EmptyHands, 4 * FirstPasses, 4 * SecondPasses, first);
    }

    /** deal(): the cards as DealCards hands them out, and every round
        variable cleared; the game totals, the hanging points, the dealer
        and the current player stay. currentBidder is first set to
        (dealer + 3) % 4 and then overwritten with 0. */
    method Deal(rand: nat -> nat)
      requires Valid()
      modifies this`table, this`phase, this`auction, this`round, this`scores
      ensures Valid() && Dealt()
      ensures scores.totalScores == old(scores.totalScores) && scores.hangingPoints == old(scores.hangingPoints)
      ensures round.currentPlayer == old(round.currentPlayer)
    {
      ghost var created := DealCards(rand);
      var a := Auction((dealer + 3) % 4, [], None, None, false, false);
      a := a.(currentBidder := 0);
      var r := Round(round.currentPlayer, EmptyTrick, [], [0, 0], [[], []]);
      var s := scores.(lastRoundScore := [0, 0], lastRoundBreakdown := [ZeroBreakdown, ZeroBreakdown],
                       lastRoundRoundedPoints := [0, 0], winner := None);
      assert NewDeal(Bidding, table, a, r, s);
      phase, auction, round, scores := Bidding, a, r, s;
    }

    /** The state right after a deal of a freshly shuffled deck. */
    ghost predicate Dealt()
      reads this
    {
      NewDeal(phase, table, auction, round, scores)
    }

    // -------------------------------------------------------------- bidding

    /** makeBid(playerId, bid): refused (false, nothing changes) unless it
        is the player's turn and the call is admissible; otherwise the call
        is recorded with its flags, checkIsBiddingOver runs, and the turn
        passes to the next bidder counter-clockwise. After a redeal that
        is player 3, since deal() has reset currentBidder to 0. */
    method MakeBid(playerId: nat, call: Call, rand: nat -> nat) returns (ok: bool)
      requires Valid()
      modifies this
      ensures Valid()
      ensures ok <==> playerId == old(auction.currentBidder) && Admissible(old(auction.bids), old(auction.double), playerId, call)
      ensures !ok ==> phase == old(phase) && dealer == old(dealer) && table == old(table) && auction == old(auction)
                      && round == old(round) && scores == old(scores)
      ensures ok ==> exists a: Auction ::
                       BiddingChecked(old(phase), old(dealer), old(table), AfterCall(old(auction), playerId, call), old(round), old(scores),
                                      phase, dealer, table, a, round, scores)
                       && auction == a.(currentBidder := Next(a.currentBidder))
    {
      ok := RecordCall(playerId, call);
      if !ok {
        return;
      }
      ghost var recorded := auction;
      CheckIsBiddingOver(rand);
      ghost var checked := auction;
      assert BiddingChecked(old(phase), old(dealer), old(table), recorded, old(round), old(scores),
                            phase, dealer, table, checked, round, scores);
      auction := auction.(currentBidder := Next(auction.currentBidder));
    }

    /** The checks and the recording part of makeBid, before
        checkIsBiddingOver runs. */
    method RecordCall(playerId: nat, call: Call) returns (ok: bool)
      requires Valid()
      modifies this`auction
      ensures Valid()
      ensures ok <==> playerId == old(auction.currentBidder) && Admissible(old(auction.bids), old(auction.double), playerId, call)
      ensures auction == if ok then AfterCall(old(auction), playerId, call) else old(auction)
    {
      if playerId != auction.currentBidder {
        return false;
      }
      var entry := BidEntry(playerId, call);
      match call {
        case Pass =>
          auction := auction.(bids := auction.bids + [entry]);
        case Double =>
          var last := LastBid(auction.bids);
          if last.Some? && Team(auction.bids[last.value].playerId) != Team(playerId) {
            auction := auction.(double := true, bids := auction.bids + [entry]);
          } else {
            return false;
          }
        case Redouble =>
          var last := LastBid(auction.bids);
          if last.Some? && auction.double && Team(auction.bids[last.value].playerId) == Team(playerId) {
            auction := auction.(redouble := true, bids := auction.bids + [entry]);
          } else {
            return false;
          }
        case Bid(c) =>
          var last := LastNonPass(auction.bids);
          if last.Some? && auction.bids[last.value].call.Bid?
             && ContractRank(c) <= ContractRank(auction.bids[last.value].call.contract) {
            return false;
          }
          auction := auction.(bids := auction.bids + [entry], double := false, redouble := false);
      }
      AfterCallValid(old(auction), playerId, call);
      return true;
    }

    /** checkIsBiddingOver(): ends the bidding when the last calls allow it
        (BiddingChecked). */
    method CheckIsBiddingOver(rand: nat -> nat)
      requires Valid()
      modifies this
      ensures Valid()
      ensures BiddingChecked(old(phase), old(dealer), old(table), old(auction), old(round), old(scores),
                             phase, dealer, table, auction, round, scores)
    {
      var bids := auction.bids;
      var last := LastBid(bids);
      if last.Some? {
        if EndsInPasses(bids, 3) {
          var c := bids[last.value].call.contract;
          var a := auction.(contract := Some(c), trumpSuit := if c.SuitContract? then Some(c.trump) else auction.trumpSuit);
          var r := round.(currentPlayer := (dealer + 3) % 4);
          ghost var before := table;
          DealPasses(ContractPasses);
          ContractedValid(phase, dealer, before, table, auction, a, round, r, scores, c);
          auction, phase, round := a, Playing, r;
        }
      } else if EndsInPasses(bids, 4) {
        dealer := (dealer + 3) % 4;
        Deal(rand);
      }
    }

    // -------------------------------------------------------------- playing

    /** playCard(playerId, cardId): refused (false, nothing changes) unless
        it is the player's turn in the playing phase, the card is in the
        hand and isValidCardPlay accepts it. Otherwise a belot (found by
        findBelotOnPlay, given here as belotOnPlay) and, during the first
        trick under a contract other than no-trump, the admitted
        combinations of the hand are announced for the player's team; the
        card moves from the hand to the trick; the turn passes on, or, with
        four or more cards down, the trick gets its winner and their team. */
    method PlayCard(playerId: nat, cardId: string, belotOnPlay: (Contract, Card, seq<Card>) -> Option<Combo>)
      returns (ok: bool)
      requires Valid()
      modifies this`table, this`round
      ensures Valid()
      ensures ok <==> playerId == old(round.currentPlayer) && old(phase) == Playing
                      && FindById(old(table.hands[playerId]), cardId, 0).Some?
                      && LegalPlay(old(round.currentTrick.cards), old(table.hands[playerId]),
                                   old(table.hands[playerId])[FindById(old(table.hands[playerId]), cardId, 0).value],
                                   Team(playerId), old(auction.contract), old(auction.trumpSuit),
                                   OpponentWinning(old(round.currentTrick.cards), old(round.currentPlayer),
                                                   old(auction.contract), old(auction.trumpSuit)))
      ensures !ok ==> table == old(table) && round == old(round)
      ensures ok ==> PlayedState(old(table), old(round), auction, playerId, FindById(old(table.hands[playerId]), cardId, 0).value,
                                 belotOnPlay, table, round)
    {
      if playerId != round.currentPlayer {
        return false;
      }
      if phase != Playing {
        return false;
      }
      var hand := table.hands[playerId];
      var cardIndex := FindById(hand, cardId, 0);
      if cardIndex.None? {
        return false;
      }
      var i := cardIndex.value;
      var card := hand[i];
      ok := IsValidCardPlay(playerId, card);
      if !ok {
        return;
      }
      var t, r := PlayAt(table, round, auction, playerId, i, belotOnPlay);
      PlayedValid(dealer, table, auction, round, scores, playerId, i, belotOnPlay, t, r);
      table, round := t, r;
    }

    /** isValidCardPlay(player, card): the rules of LegalPlay, for the
        player's hand and the current trick, with opponentHasHighestCard()
        as the opponents-winning test. */
    method IsValidCardPlay(playerId: nat, card: Card) returns (ok: bool)
      requires Valid() && playerId < 4
      ensures ok == LegalPlay(round.currentTrick.cards, table.hands[playerId], card, Team(playerId),
                              auction.contract, auction.trumpSuit,
                              OpponentWinning(round.currentTrick.cards, round.currentPlayer, auction.contract, auction.trumpSuit))
    {
      var plays := round.currentTrick.cards;
      if |plays| == 0 {
        return true;
      }
      var hand := table.hands[playerId];
      var contract := auction.contract;
      var leadSuit := plays[0].card.suit;
      var hasLeadSuit := HoldsSuit(hand, leadSuit);
      ghost var opponentWinning := OpponentWinning(plays, round.currentPlayer, contract, auction.trumpSuit);
      if contract == Some(AllTrump) {
        if !hasLeadSuit {
          return true;
        }
        if card.suit != leadSuit {
          return false;
        }
        var highest := LowestRanking(plays, leadSuit, contract);
        var higherCards := Higher(hand, leadSuit, highest, contract);
        RaiseAgainstLowest(hand, plays, leadSuit, contract, highest, card, higherCards);
        return !(|higherCards| > 0 && card !in higherCards);
      }
      if contract == Some(NoTrump) {
        return if hasLeadSuit then card.suit == leadSuit else true;
      }
      if hasLeadSuit {
        if card.suit != leadSuit {
          return false;
        }
        if Some(leadSuit) == auction.trumpSuit {
          var winning := LowestRanking(plays, leadSuit, contract);
          var higherTrumps := Higher(hand, leadSuit, winning, contract);
          RaiseAgainstLowest(hand, plays, leadSuit, contract, winning, card, higherTrumps);
          if |higherTrumps| > 0 && card !in higherTrumps {
            return false;
          }
        }
        return true;
      }
      var opponentHasHighest := OpponentHasHighestCard();
      var team := playerId % 2;
      var highestOpponentTrump := LowestOpponentTrump(plays, team, auction.trumpSuit, contract);
      if highestOpponentTrump.Some? {
        var trump := auction.trumpSuit.value;
        var higherTrumps := Higher(hand, trump, highestOpponentTrump.value, contract);
        OvertrumpAgainstLowest(hand, plays, team, trump, contract, highestOpponentTrump.value, card, higherTrumps);
        if |higherTrumps| > 0 {
          return card in higherTrumps;
        } else {
          return true;
        }
      }
      if opponentHasHighest {
        var hasTrump := exists h :: h in hand && Some(h.suit) == auction.trumpSuit;
        if hasTrump {
          return Some(card.suit) == auction.trumpSuit;
        }
      }
      return true;
    }

    /** opponentHasHighestCard(): the play currently leading the trick (the
        isHigherThan fold from the lead) belongs to the other team than the
        current player. */
    method OpponentHasHighestCard() returns (r: bool)
      requires Valid()
      ensures r == OpponentWinning(round.currentTrick.cards, round.currentPlayer, auction.contract, auction.trumpSuit)
    {
      var plays := round.currentTrick.cards;
      if |plays| == 0 {
        return false;
      }
      var highestCard := plays[0].card;
      var highestPlayer := plays[0].playerId;
      ghost var w := 0;
      var i := 0;
      while i < |plays|
        invariant 0 <= i <= |plays| && w < |plays|
        invariant highestCard == plays[w].card && highestPlayer == plays[w].playerId
        invariant w == if i == 0 then 0 else WinnerOf(plays[..i], auction.contract, auction.trumpSuit)
      {
        WinnerOfStep(plays, i, auction.contract, auction.trumpSuit);
        if IsHigherThan(plays[i].card, highestCard, auction.contract, auction.trumpSuit) {
          highestCard, highestPlayer := plays[i].card, plays[i].playerId;
          w := i;
        }
        i := i + 1;
      }
      assert plays[..|plays|] == plays;
      return highestPlayer % 2 != round.currentPlayer % 2;
    }

    // -------------------------------------------------------------- tricks and round end

    /** completeTrick(): the resolved trick is pushed to the tricks, the
        points of its cards under the contract go to the winner's team, the
        winner leads the next trick, and after the eighth trick the round
        ends. The source reads players[winner] and, in endRound, the bid
        of the contract, so a trick without a winner and an eighth trick
        without a contract are outside its domain. */
    method CompleteTrick()
      requires Valid() && round.currentTrick.winner.Some?
      requires |round.tricks| == 7 ==> auction.contract.Some?
      modifies this`round, this`scores, this`phase
      ensures Valid()
      ensures |old(round.tricks)| + 1 != 8 ==>
                round == AfterTrick(old(auction.contract), old(round)) && scores == old(scores) && phase == old(phase)
      ensures |old(round.tricks)| + 1 == 8 ==>
                RoundEnded(auction, AfterTrick(old(auction.contract), old(round)), old(scores), phase, round, scores)
    {
      var winnerPlayerId := round.currentTrick.winner.value;
      var tricks := round.tricks + [round.currentTrick];
      var score := AddTrickPoints(round.currentRoundScore, round.currentTrick.cards, Team(winnerPlayerId), auction.contract);
      var r := round.(tricks := tricks, currentRoundScore := score, currentPlayer := winnerPlayerId,
                      currentTrick := EmptyTrick);
      assert r == AfterTrick(auction.contract, round);
      AfterTrickValid(auction.contract, round);
      round := r;
      if |tricks| == 8 {
        EndRound();
      }
    }

    /** endRound(): the round's raw scores, its breakdown for display, the
        rounded game points and hanging points (Scoring.Settle), the new
        totals and, once a team reaches 151, the winner and the finished
        phase. */
    method EndRound()
      requires Valid() && auction.contract.Some?
      modifies this`round, this`scores, this`phase
      ensures Valid()
      ensures RoundEnded(auction, old(round), old(scores), phase, round, scores)
    {
      var p, r, s := SettleRound(auction, round, scores);
      SettledValid(dealer, table, auction, round, scores, p, r, s);
      phase, round, scores := p, r, s;
    }
  }

  /** determineTrickWinner(): the first play, replaced by each later play
      that isHigherThan the current best under the contract; the plays are
      those of the current trick. */
  method DetermineTrickWinner(plays: seq<Play>, contract: Option<Contract>, trumpSuit: Option<Suit>)
    returns (winner: Option<Play>)
    ensures winner == if plays == [] then None else Some(plays[WinnerOf(plays, contract, trumpSuit)])
  {
    if |plays| == 0 {
      return None;
    }
    var best := plays[0];
    ghost var w := 0;
    var i := 0;
    while i < |plays|
      invariant 0 <= i <= |plays| && w < |plays| && best == plays[w]
      invariant w == if i == 0 then 0 else WinnerOf(plays[..i], contract, trumpSuit)
    {
      WinnerOfStep(plays, i, contract, trumpSuit);
      if IsHigherThan(plays[i].card, best.card, contract, trumpSuit) {
        best := plays[i];
        w := i;
      }
      i := i + 1;
    }
    assert plays[..|plays|] == plays;
    return Some(best);
  }

  /** What a successful playCard leaves, from table t0 and round r0 under
      auction a, when player p plays the card at index i of their hand. */
  ghost predicate PlayedState(t0: Table, r0: Round, a: Auction, p: nat, i: nat,
                              belotOnPlay: (Contract, Card, seq<Card>) -> Option<Combo>, t: Table, r: Round)
  {
    |t0.hands| == 4 && p < 4 && i < |t0.hands[p]| && |r0.announcedCombinations| == 2
    && var hand := t0.hands[p];
       var card := hand[i];
       var plays := r0.currentTrick.cards + [Play(p, card)];
       t == t0.(hands := t0.hands[p := hand[..i] + hand[i + 1..]])
       && r.currentTrick.cards == plays
       && r.tricks == r0.tricks && r.currentRoundScore == r0.currentRoundScore
       && r.announcedCombinations == WithAnnouncements(r0.announcedCombinations, r0.tricks, a, p, card, hand, belotOnPlay)
       && (if |plays| < 4 then
             r.currentPlayer == Next(p) && r.currentTrick == r0.currentTrick.(cards := plays)
           else
             var w := plays[WinnerOf(plays, a.contract, a.trumpSuit)].playerId;
             r.currentPlayer == r0.currentPlayer
             && r.currentTrick == Trick(plays, Some(w), Some(Team(w))))
  }

  /** The changes of an accepted playCard, on the values of the table and
      round fields: the announcements, the card moved from the hand to the
      trick, and the next player or the trick's winner. */
  method PlayAt(t0: Table, r0: Round, a: Auction, playerId: nat, i: nat,
                belotOnPlay: (Contract, Card, seq<Card>) -> Option<Combo>) returns (t: Table, r: Round)
    requires |t0.hands| == 4 && playerId < 4 && i < |t0.hands[playerId]| && |r0.announcedCombinations| == 2
    requires playerId == r0.currentPlayer
    ensures PlayedState(t0, r0, a, playerId, i, belotOnPlay, t, r)
  {
    var hand := t0.hands[playerId];
    var card := hand[i];
    var ann := AnnounceOnPlay(r0.announcedCombinations, r0.tricks, a, playerId, card, hand, belotOnPlay);
    var plays := r0.currentTrick.cards + [Play(playerId, card)];
    t := t0.(hands := t0.hands[playerId := hand[..i] + hand[i + 1..]]);
    r := r0.(currentTrick := r0.currentTrick.(cards := plays), announcedCombinations := ann);
    if |plays| < 4 {
      r := r.(currentPlayer := (r.currentPlayer + 3) % 4);
    } else {
      var winner := DetermineTrickWinner(plays, a.contract, a.trumpSuit);
      r := r.(currentTrick := r.currentTrick.(winner := Some(winner.value.playerId),
                                             team := Some(winner.value.playerId % 2)));
    }
  }

  /** A play moves one card from a hand to the current trick: the cards in
      play stay the same. */
  lemma PlayKeepsCards(t0: Table, r0: Round, a: Auction, p: nat, i: nat,
                       belotOnPlay: (Contract, Card, seq<Card>) -> Option<Combo>, t: Table, r: Round)
    requires PlayedState(t0, r0, a, p, i, belotOnPlay, t, r)
    ensures InPlay(t, r) == InPlay(t0, r0)
  {
    MoveKeepsCards(t0, r0, p, i, t, r);
  }

  lemma MoveKeepsCards(t0: Table, r0: Round, p: nat, i: nat, t: Table, r: Round)
    requires |t0.hands| == 4 && p < 4 && i < |t0.hands[p]|
    requires t == t0.(hands := t0.hands[p := t0.hands[p][..i] + t0.hands[p][i + 1..]])
    requires r.currentTrick.cards == r0.currentTrick.cards + [Play(p, t0.hands[p][i])] && r.tricks == r0.tricks
    ensures InPlay(t, r) == InPlay(t0, r0)
  {
    TakeKeepsCards(t0, p, i, t);
    AppendPlayedCards(r0.currentTrick.cards, Play(p, t0.hands[p][i]));
  }

  /** Taking the card at index i out of hand p leaves the table short of
      that card only. */
  lemma TakeKeepsCards(t0: Table, p: nat, i: nat, t: Table)
    requires |t0.hands| == 4 && p < 4 && i < |t0.hands[p]|
    requires t == t0.(hands := t0.hands[p := t0.hands[p][..i] + t0.hands[p][i + 1..]])
    ensures TableCards(t) + multiset{t0.hands[p][i]} == TableCards(t0)
  {
    var hand := t0.hands[p];
    var rest := hand[..i] + hand[i + 1..];
    assert hand == hand[..i] + [hand[i]] + hand[i + 1..];
    HandCardsUpdate(t0.hands, p, rest);
  }

  lemma AppendPlayedCards(plays: seq<Play>, x: Play)
    ensures multiset(PlayedCards(plays + [x])) == multiset(PlayedCards(plays)) + multiset{x.card}
  {
    assert (plays + [x])[..|plays|] == plays;
  }

  /** The auto-announce admits exactly the hand's combinations whose kind
      the opponents' announcements let through, credited to p, and only on
      the first trick of a contract other than no-trump; a belot is never
      among them. */
  lemma AutoAnnouncementsMeaning(opponents: seq<Announced>, tricks: seq<Trick>, a: Auction, p: nat, hand: seq<Card>)
    ensures forall x :: x in AutoAnnouncements(opponents, tricks, a, p, hand)
                        <==> tricks == [] && a.contract.Some? && a.contract != Some(NoTrump)
                             && x.playerId == p && x.combo in AllCombinations(hand, a.trumpSuit)
                             && Admits(x.combo.kind, HasKind(opponents, Quint), HasKind(opponents, Quarte))
    ensures forall x :: x in AutoAnnouncements(opponents, tricks, a, p, hand) ==> x.combo.kind != Belot
  {
    AdmittedCharacterization(AllCombinations(hand, a.trumpSuit), p, HasKind(opponents, Quint), HasKind(opponents, Quarte));
  }

  /** playCard's announcements only append to the player's own team: the
      opponents' list and the team's earlier records stay, and every new
      record is credited to the player. */
  lemma WithAnnouncementsAppends(ann: seq<seq<Announced>>, tricks: seq<Trick>, a: Auction, p: nat, card: Card, hand: seq<Card>,
                                 belotOnPlay: (Contract, Card, seq<Card>) -> Option<Combo>)
    requires |ann| == 2
    ensures var after := WithAnnouncements(ann, tricks, a, p, card, hand, belotOnPlay);
            |after| == 2 && after[1 - Team(p)] == ann[1 - Team(p)]
            && |ann[Team(p)]| <= |after[Team(p)]| && after[Team(p)][..|ann[Team(p)]|] == ann[Team(p)]
            && forall k :: |ann[Team(p)]| <= k < |after[Team(p)]| ==> after[Team(p)][k].playerId == p
  {
    var own := ann[Team(p)];
    var b := BelotAnnouncement(a.contract, p, card, hand, belotOnPlay);
    var auto := AutoAnnouncements(ann[1 - Team(p)], tricks, a, p, hand);
    AutoAnnouncementsMeaning(ann[1 - Team(p)], tricks, a, p, hand);
    var after := own + b + auto;
    forall k | |own| <= k < |after|
      ensures after[k].playerId == p
    {
      if k < |own| + |b| {
        assert after[k] == b[k - |own|];
      } else {
        assert after[k] == auto[k - |own| - |b|];
        assert auto[k - |own| - |b|] in auto;
      }
    }
    assert after[..|own|] == own;
  }

  /** A play keeps the state invariant. */
  lemma PlayedValid(dealer: nat, t0: Table, a: Auction, r0: Round, s: Scores, p: nat, i: nat,
                    belotOnPlay: (Contract, Card, seq<Card>) -> Option<Combo>, t: Table, r: Round)
    requires GameValid(dealer, t0, a, r0, s) && PlayedState(t0, r0, a, p, i, belotOnPlay, t, r)
    ensures GameValid(dealer, t, a, r, s)
  {
  }

  /** The team arrays after playCard's announcements for player p: the
      belot belotOnPlay reports for a queen or king under a contract, then,
      in the first trick of a contract other than no-trump, the hand's
      combinations that the opponents' quint and quarte announcements
      admit, appended to p's team. */
  function WithAnnouncements(ann: seq<seq<Announced>>, tricks: seq<Trick>, a: Auction, p: nat, card: Card, hand: seq<Card>,
                             belotOnPlay: (Contract, Card, seq<Card>) -> Option<Combo>): seq<seq<Announced>>
    requires |ann| == 2
  {
    ann[Team(p) := ann[Team(p)] + BelotAnnouncement(a.contract, p, card, hand, belotOnPlay)
                   + AutoAnnouncements(ann[1 - Team(p)], tricks, a, p, hand)]
  }

  function BelotAnnouncement(contract: Option<Contract>, p: nat, card: Card, hand: seq<Card>,
                             belotOnPlay: (Contract, Card, seq<Card>) -> Option<Combo>): seq<Announced>
  {
    if contract.Some? && (card.rank == Queen || card.rank == King) then
      match belotOnPlay(contract.value, card, hand)
      case Some(b) => [Announced(b, p)]
      case None => []
    else []
  }

  function AutoAnnouncements(opponents: seq<Announced>, tricks: seq<Trick>, a: Auction, p: nat, hand: seq<Card>): seq<Announced>
  {
    if tricks == [] && a.contract.Some? && a.contract != Some(NoTrump) then
      Admitted(AllCombinations(hand, a.trumpSuit), p, HasKind(opponents, Quint), HasKind(opponents, Quarte))
    else []
  }

  /** The announcements of playCard: the belot check and the first-trick
      auto-announce, pushed to the player's team in announced. */
  method AnnounceOnPlay(announced: seq<seq<Announced>>, tricks: seq<Trick>, a: Auction, playerId: nat, card: Card,
                        hand: seq<Card>, belotOnPlay: (Contract, Card, seq<Card>) -> Option<Combo>)
    returns (ann: seq<seq<Announced>>)
    requires |announced| == 2 && playerId < 4
    ensures ann == WithAnnouncements(announced, tricks, a, playerId, card, hand, belotOnPlay)
  {
    var team := Team(playerId);
    var own := AnnounceBelot(announced[team], a.contract, playerId, card, hand, belotOnPlay);
    own := AutoAnnounce(announced[1 - team], tricks, a, playerId, hand, own);
    ghost var x := announced[Team(playerId)] + BelotAnnouncement(a.contract, playerId, card, hand, belotOnPlay)
                   + AutoAnnouncements(announced[1 - Team(playerId)], tricks, a, playerId, hand);
    assert own == x;
    ann := announced[team := own];
    assert ann == announced[Team(playerId) := x];
  }

  /** The belot check of playCard: under a contract, a queen or king played
      from a hand that findBelotOnPlay reports a belot for pushes that
      belot to own. */
  method AnnounceBelot(own0: seq<Announced>, contract: Option<Contract>, playerId: nat, card: Card, hand: seq<Card>,
                       belotOnPlay: (Contract, Card, seq<Card>) -> Option<Combo>)
    returns (own: seq<Announced>)
    ensures own == own0 + BelotAnnouncement(contract, playerId, card, hand, belotOnPlay)
  {
    own := own0;
    if contract.Some? && (card.rank == Queen || card.rank == King) {
      var belot := belotOnPlay(contract.value, card, hand);
      if belot.Some? {
        own := own + [Announced(belot.value, playerId)];
      }
    }
  }

  /** The auto-announce of playCard: on the first trick, under a
      contract other than no-trump, the combinations of the hand that the
      opponents' announcements admit are appended to own. */
  method AutoAnnounce(opponents: seq<Announced>, tricks: seq<Trick>, a: Auction, playerId: nat, hand: seq<Card>,
                      own: seq<Announced>) returns (result: seq<Announced>)
    ensures result == own + AutoAnnouncements(opponents, tricks, a, playerId, hand)
  {
    result := own;
    if tricks == [] && a.contract.Some? && a.contract != Some(NoTrump) {
      var allCombos := GetAllCombinations(hand, a.trumpSuit);
      if |allCombos| > 0 {
        var opponentHasQuint := HasKind(opponents, Quint);
        var opponentHasQuarte := HasKind(opponents, Quarte);
        result := PushAdmitted(result, allCombos, playerId, opponentHasQuint, opponentHasQuarte);
      } else {
        assert Admitted(allCombos, playerId, HasKind(opponents, Quint), HasKind(opponents, Quarte)) == [];
      }
    }
  }

  /** The forEach of playCard's auto-announce: list with the admitted
      records of combos appended in order. */
  method PushAdmitted(list: seq<Announced>, combos: seq<Combo>, playerId: nat, oppQuint: bool, oppQuarte: bool)
    returns (result: seq<Announced>)
    ensures result == list + Admitted(combos, playerId, oppQuint, oppQuarte)
  {
    result := list;
    var i := 0;
    while i < |combos|
      invariant 0 <= i <= |combos|
      invariant result == list + Admitted(combos[..i], playerId, oppQuint, oppQuarte)
    {
      assert combos[..i + 1][..i] == combos[..i];
      var combo := combos[i];
      if combo.kind == Equal {
        result := result + [Announced(combo, playerId)];
      } else if combo.kind == Quint {
        result := result + [Announced(combo, playerId)];
      } else if combo.kind == Quarte {
        if !oppQuint {
          result := result + [Announced(combo, playerId)];
        }
      } else if combo.kind == Tierce {
        if !oppQuint && !oppQuarte {
          result := result + [Announced(combo, playerId)];
        }
      }
      i := i + 1;
    }
    assert combos[..|combos|] == combos;
  }

  /** One step of the isHigherThan fold: the lead does not beat itself, and
      a later play takes over exactly when it beats the current winner. */
  lemma WinnerOfStep(plays: seq<Play>, i: nat, contract: Option<Contract>, trumpSuit: Option<Suit>)
    requires i < |plays|
    ensures i == 0 ==> !IsHigherThan(plays[0].card, plays[0].card, contract, trumpSuit) && WinnerOf(plays[..1], contract, trumpSuit) == 0
    ensures i > 0 ==> var v := WinnerOf(plays[..i], contract, trumpSuit);
                      WinnerOf(plays[..i + 1], contract, trumpSuit)
                      == if IsHigherThan(plays[i].card, plays[v].card, contract, trumpSuit) then i else v
  {
    SameSuitStrictOrder(plays[0].card, plays[0].card, plays[0].card, contract, trumpSuit);
    assert plays[..i + 1][..i] == plays[..i];
  }

  /** The forEach of isValidCardPlay that finds the best (lowest) ranking
      among the cards of suit s in the trick, starting from the lead. */
  method LowestRanking(plays: seq<Play>, s: Suit, contract: Option<Contract>) returns (best: nat)
    requires plays != [] && plays[0].card.suit == s
    ensures forall i :: 0 <= i < |plays| && plays[i].card.suit == s ==> best <= Ranking(plays[i].card, contract)
    ensures exists i :: 0 <= i < |plays| && plays[i].card.suit == s && best == Ranking(plays[i].card, contract)
  {
    best := Ranking(plays[0].card, contract);
    ghost var k := 0;
    var i := 0;
    while i < |plays|
      invariant 0 <= i <= |plays| && k < |plays| && plays[k].card.suit == s && best == Ranking(plays[k].card, contract)
      invariant forall j :: 0 <= j < i && plays[j].card.suit == s ==> best <= Ranking(plays[j].card, contract)
    {
      if plays[i].card.suit == s {
        var r := Ranking(plays[i].card, contract);
        if r < best {
          best, k := r, i;
        }
      }
      i := i + 1;
    }
  }

  /** The forEach of isValidCardPlay over the opponents' trumps: None when
      the other team has played no card of trumpSuit, else their best
      (lowest) ranking. */
  method LowestOpponentTrump(plays: seq<Play>, team: nat, trumpSuit: Option<Suit>, contract: Option<Contract>)
    returns (best: Option<nat>)
    ensures best.None? <==> !OpponentTrumped(plays, team, trumpSuit)
    ensures best.Some? ==>
              trumpSuit.Some?
              && (forall i :: 0 <= i < |plays| && Team(plays[i].playerId) != team && Some(plays[i].card.suit) == trumpSuit
                              ==> best.value <= Ranking(plays[i].card, contract))
              && exists i :: 0 <= i < |plays| && Team(plays[i].playerId) != team && Some(plays[i].card.suit) == trumpSuit
                             && best.value == Ranking(plays[i].card, contract)
  {
    best := None;
    ghost var k := 0;
    var i := 0;
    while i < |plays|
      invariant 0 <= i <= |plays|
      invariant best.None? <==> forall j :: 0 <= j < i ==> !(Team(plays[j].playerId) != team && Some(plays[j].card.suit) == trumpSuit)
      invariant best.Some? ==>
                  k < i && Team(plays[k].playerId) != team && Some(plays[k].card.suit) == trumpSuit
                  && best.value == Ranking(plays[k].card, contract)
                  && forall j :: 0 <= j < i && Team(plays[j].playerId) != team && Some(plays[j].card.suit) == trumpSuit
                                 ==> best.value <= Ranking(plays[j].card, contract)
    {
      if plays[i].playerId % 2 != team && Some(plays[i].card.suit) == trumpSuit {
        var r := Ranking(plays[i].card, contract);
        if best.None? || r < best.value {
          best, k := Some(r), i;
        }
      }
      i := i + 1;
    }
  }

  /** hand.filter: the cards of suit s ranking below (stronger than) best,
      in hand order. */
  function Higher(hand: seq<Card>, s: Suit, best: nat, contract: Option<Contract>): (hs: seq<Card>)
    ensures forall c :: c in hs <==> c in hand && c.suit == s && Ranking(c, contract) < best
  {
    if hand == [] then []
    else
      var last := hand[|hand| - 1];
      Higher(hand[..|hand| - 1], s, best, contract)
      + (if last.suit == s && Ranking(last, contract) < best then [last] else [])
  }

  /** With best the lowest ranking of suit s in the trick, the filtered
      cards are exactly the hand's cards that raise, so for a card of suit
      s "some higher card exists and card is not one" is "the hand can
      raise and card does not". */
  lemma RaiseAgainstLowest(hand: seq<Card>, plays: seq<Play>, s: Suit, contract: Option<Contract>, best: nat,
                           card: Card, higher: seq<Card>)
    requires forall i :: 0 <= i < |plays| && plays[i].card.suit == s ==> best <= Ranking(plays[i].card, contract)
    requires exists i :: 0 <= i < |plays| && plays[i].card.suit == s && best == Ranking(plays[i].card, contract)
    requires higher == Higher(hand, s, best, contract) && card.suit == s
    ensures (|higher| > 0 && card !in higher)
            <==> CanRaise(hand, plays, s, contract) && !(card in hand && RanksAboveSuit(card, plays, s, contract))
  {
    var k :| 0 <= k < |plays| && plays[k].card.suit == s && best == Ranking(plays[k].card, contract);
    forall c ensures RanksAboveSuit(c, plays, s, contract) <==> Ranking(c, contract) < best {
      if RanksAboveSuit(c, plays, s, contract) {
        assert Ranking(c, contract) < Ranking(plays[k].card, contract);
      }
    }
    if CanRaise(hand, plays, s, contract) {
      var h :| h in hand && h.suit == s && RanksAboveSuit(h, plays, s, contract);
      assert h in higher;
    }
    if |higher| > 0 {
      assert higher[0] in higher;
    }
  }

  /** The same for the opponents' best trump: the filtered trumps are the
      hand's cards that overtrump. */
  lemma OvertrumpAgainstLowest(hand: seq<Card>, plays: seq<Play>, team: nat, trump: Suit, contract: Option<Contract>,
                               best: nat, card: Card, higher: seq<Card>)
    requires forall i :: 0 <= i < |plays| && Team(plays[i].playerId) != team && Some(plays[i].card.suit) == Some(trump)
                         ==> best <= Ranking(plays[i].card, contract)
    requires exists i :: 0 <= i < |plays| && Team(plays[i].playerId) != team && Some(plays[i].card.suit) == Some(trump)
                         && best == Ranking(plays[i].card, contract)
    requires higher == Higher(hand, trump, best, contract)
    ensures |higher| > 0 <==> CanOvertrump(hand, plays, team, trump, contract)
    ensures card in higher <==> card in hand && OvertrumpsOpponents(card, plays, team, trump, contract)
  {
    forall c ensures OvertrumpsOpponents(c, plays, team, trump, contract) <==> c.suit == trump && Ranking(c, contract) < best {
    }
    if CanOvertrump(hand, plays, team, trump, contract) {
      var h :| h in hand && OvertrumpsOpponents(h, plays, team, trump, contract);
      assert h in higher;
    }
    if |higher| > 0 {
      assert higher[0] in higher;
    }
  }

  /** What checkIsBiddingOver leaves, from state (p0, d0, t0, a0, r0, s0)
      to (p, d, t, a, r, s): nothing changes while the bidding is open;
      three passes after a contract bid fix that contract (and its trump
      suit, for a suit contract; otherwise the trump suit is left as it
      was), deal three more cards to each player, keeping every card, and
      start play with the player after the dealer; four passes without a
      contract move the deal to the next dealer and deal again. */
  ghost predicate BiddingChecked(p0: Phase, d0: nat, t0: Table, a0: Auction, r0: Round, s0: Scores,
                                 p: Phase, d: nat, t: Table, a: Auction, r: Round, s: Scores)
  {
    |t0.hands| == 4 && |t.hands| == 4
    && match BiddingEnd(a0.bids)
       case Open => p == p0 && d == d0 && t == t0 && a == a0 && r == r0 && s == s0
       case Contracted(c) =>
         p == Playing && d == d0 && s == s0
         && a == a0.(contract := Some(c), trumpSuit := Trump(c, a0.trumpSuit))
         && t == DealtAfter(t0.deck, t0.hands, Min(4 * ContractPasses, |t0.deck|))
         && r == r0.(currentPlayer := Next(d0))
       case Redeal =>
         d == Next(d0) && NewDeal(p, t, a, r, s)
         && s.totalScores == s0.totalScores && s.hangingPoints == s0.hangingPoints
         && r.currentPlayer == r0.currentPlayer
  }

  /** The auction once makeBid has recorded an admissible call: the call
      appended to the bids, a double or redouble flag raised, and both
      flags cleared by a contract bid. */
  function AfterCall(a: Auction, playerId: nat, call: Call): (r: Auction)
    ensures r.bids == a.bids + [BidEntry(playerId, call)]
    ensures r.currentBidder == a.currentBidder && r.contract == a.contract && r.trumpSuit == a.trumpSuit
    ensures r.double == match call case Pass => a.double case Double => true case Redouble => a.double case Bid(_) => false
    ensures r.redouble == match call case Pass => a.redouble case Double => a.redouble case Redouble => true case Bid(_) => false
  {
    var bids := a.bids + [BidEntry(playerId, call)];
    match call
    case Pass => a.(bids := bids)
    case Double => a.(double := true, bids := bids)
    case Redouble => a.(redouble := true, bids := bids)
    case Bid(_) => a.(bids := bids, double := false, redouble := false)
  }

  /** Appending a contract bid makes it the latest bid; appending any other
      call leaves the latest bid where it was. */
  lemma LastBidAppend(bids: seq<BidEntry>, e: BidEntry)
    ensures LastBid(bids).Some? ==> LastBid(bids + [e]).Some?
    ensures e.call.Bid? ==> LastBid(bids + [e]) == Some(|bids|)
    ensures !e.call.Bid? ==> LastBid(bids + [e]) == LastBid(bids)
  {
    assert (bids + [e])[..|bids|] == bids;
  }

  /** Appending a call keeps the first bid of a contract already made. */
  lemma FirstBidOfAppend(bids: seq<BidEntry>, e: BidEntry, c: Contract)
    ensures FirstBidOf(bids, c).Some? ==> FirstBidOf(bids + [e], c).Some?
  {
    assert (bids + [e])[..|bids|] == bids;
  }

  /** An admissible call keeps the auction invariant: a redouble only on a
      double, a double only on a contract bid, the contract among the bids. */
  lemma AfterCallValid(a: Auction, playerId: nat, call: Call)
    requires AuctionValid(a) && Admissible(a.bids, a.double, playerId, call)
    ensures AuctionValid(AfterCall(a, playerId, call))
  {
    if a.contract.Some? {
      LastBidAppend(a.bids, BidEntry(playerId, call));
      FirstBidOfAppend(a.bids, BidEntry(playerId, call), a.contract.value);
    } else if call.Bid? {
      LastBidAppend(a.bids, BidEntry(playerId, call));
      FirstBidOfAppend(a.bids, BidEntry(playerId, call), call.contract);
    }
  }

  /** The trump suit once contract c is fixed: the contract's suit, or
      the previous value for no-trump and all-trump. */
  function Trump(c: Contract, previous: Option<Suit>): (t: Option<Suit>)
    ensures c.SuitContract? ==> t == Some(c.trump)
    ensures !c.SuitContract? ==> t == previous
  {
    if c.SuitContract? then Some(c.trump) else previous
  }

  /** Fixing the contract the bids name and dealing more cards from the
      deck keeps the state invariant and every card. */
  lemma ContractedValid(p0: Phase, dealer: nat, t0: Table, t: Table, a0: Auction, a: Auction, r0: Round, r: Round, s: Scores, c: Contract)
    requires GameValid(dealer, t0, a0, r0, s)
    requires t == DealtAfter(t0.deck, t0.hands, Min(4 * ContractPasses, |t0.deck|))
    requires BiddingEnd(a0.bids) == Contracted(c)
    requires a == a0.(contract := Some(c), trumpSuit := Trump(c, a0.trumpSuit))
    requires r == r0.(currentPlayer := Next(dealer))
    ensures GameValid(dealer, t, a, r, s)
    ensures BiddingChecked(p0, dealer, t0, a0, r0, s, Playing, dealer, t, a, r, s)
  {
    BiddingEndCharacterization(a0.bids);
  }

  /** checkIsBiddingOver loses and duplicates no card: fixing a contract
      only moves cards from the deck to the hands, and a redeal puts the
      32 cards of a fresh deck in play. */
  lemma BiddingCheckedCards(p0: Phase, d0: nat, t0: Table, a0: Auction, r0: Round, s0: Scores,
                            p: Phase, d: nat, t: Table, a: Auction, r: Round, s: Scores)
    requires BiddingChecked(p0, d0, t0, a0, r0, s0, p, d, t, a, r, s)
    ensures BiddingEnd(a0.bids).Contracted? ==> InPlay(t, r) == InPlay(t0, r0)
    ensures BiddingEnd(a0.bids).Redeal? ==> EachCardOnce(InPlay(t, r))
  {
    match BiddingEnd(a0.bids)
    case Open =>
    case Contracted(_) =>
      DealtAfterKeepsCards(t0.deck, t0.hands, Min(4 * ContractPasses, |t0.deck|));
    case Redeal =>
      NewDealCards(p, t, a, r, s);
  }

  /** The cards player q receives when the top n cards of deck d are
      handed round the table from player 0: the popped cards number q,
      q + 4, q + 8, ... counted from the top. */
  function Share(d: seq<Card>, n: nat, q: nat): (s: seq<Card>)
    requires n <= |d| && q < 4
    ensures |s| == (n + 3 - q) / 4
    ensures forall j {:trigger s[j]} :: 0 <= j < |s| ==> 4 * j + q < n && s[j] == d[|d| - 1 - (4 * j + q)]
  {
    seq((n + 3 - q) / 4, j requires 0 <= j < (n + 3 - q) / 4 => d[|d| - 1 - (4 * j + q)])
  }

  /** The table after the top n cards of deck d have been handed round the
      table from player 0 onto hands h: the deck has lost those n cards and
      each player's share is appended to the player's hand. */
  function DealtAfter(d: seq<Card>, h: seq<seq<Card>>, n: nat): (r: Table)
    requires |h| == 4 && n <= |d|
    ensures |r.hands| == 4
  {
    Table(d[..|d| - n], [h[0] + Share(d, n, 0), h[1] + Share(d, n, 1), h[2] + Share(d, n, 2), h[3] + Share(d, n, 3)])
  }

  function Min(a: nat, b: nat): nat
  {
    if a <= b then a else b
  }

  /** All the cards of the deck and the hands. */
  function TableCards(t: Table): multiset<Card>
    requires |t.hands| == 4
  {
    multiset(t.deck) + HandCards(t.hands)
  }

  /** In pass i of the deal, player p takes the (4i + p)-th card. */
  lemma TurnOfDeal(i: nat, p: nat)
    requires p < 4
    ensures (4 * i + p) % 4 == p
  {
  }

  /** One deck.pop() into a hand moves a card and creates none. */
  lemma PopKeepsCards(t: Table, p: nat, after: Table)
    requires p < |t.hands| == 4 && t.deck != []
    requires after == Table(t.deck[..|t.deck| - 1], t.hands[p := t.hands[p] + [t.deck[|t.deck| - 1]]])
    ensures TableCards(after) == TableCards(t)
  {
    var card, rest := t.deck[|t.deck| - 1], t.deck[..|t.deck| - 1];
    HandCardsUpdate(t.hands, p, t.hands[p] + [card]);
    assert t.deck == rest + [card];
  }

  /** The share of player k % 4 grows by the (k+1)-th card from the top
      when it is popped; the other shares stay. */
  lemma ShareStep(d: seq<Card>, k: nat, q: nat)
    requires k < |d| && q < 4
    ensures Share(d, k + 1, q) == Share(d, k, q) + (if k % 4 == q then [d[|d| - 1 - k]] else [])
  {
  }

  /** Turn k of the deal, on the table of the first k turns, pops the
      (k+1)-th card to player k % 4: the closed form one turn on. */
  lemma DealtAfterStep(d: seq<Card>, h: seq<seq<Card>>, k: nat, before: Table, after: Table)
    requires |h| == 4 && k < |d| && before == DealtAfter(d, h, k)
    requires after == Table(before.deck[..|before.deck| - 1],
                            before.hands[k % 4 := before.hands[k % 4] + [before.deck[|before.deck| - 1]]])
    ensures after == DealtAfter(d, h, k + 1)
  {
    var next := DealtAfter(d, h, k + 1);
    assert after.deck == next.deck;
    DealtAfterStepHand(d, h, k, before, after, 0);
    DealtAfterStepHand(d, h, k, before, after, 1);
    DealtAfterStepHand(d, h, k, before, after, 2);
    DealtAfterStepHand(d, h, k, before, after, 3);
    assert after.hands == next.hands;
  }

  lemma DealtAfterStepHand(d: seq<Card>, h: seq<seq<Card>>, k: nat, before: Table, after: Table, q: nat)
    requires |h| == 4 && k < |d| && q < 4 && before == DealtAfter(d, h, k)
    requires after == Table(before.deck[..|before.deck| - 1],
                            before.hands[k % 4 := before.hands[k % 4] + [before.deck[|before.deck| - 1]]])
    ensures after.hands[q] == DealtAfter(d, h, k + 1).hands[q]
  {
    ShareStep(d, k, q);
    DealtAfterHand(d, h, k, q);
    DealtAfterHand(d, h, k + 1, q);
  }

  /** Dealing moves cards and creates none: after any number of pops the
      deck and hands hold the cards they held before. */
  lemma {:induction false} DealtAfterKeepsCards(d: seq<Card>, h: seq<seq<Card>>, n: nat)
    requires |h| == 4 && n <= |d|
    ensures TableCards(DealtAfter(d, h, n)) == multiset(d) + HandCards(h)
  {
    if n == 0 {
      DealtAfterZero(d, h);
    } else {
      var before := DealtAfter(d, h, n - 1);
      var p := (n - 1) % 4;
      var after := Table(before.deck[..|before.deck| - 1], before.hands[p := before.hands[p] + [before.deck[|before.deck| - 1]]]);
      DealtAfterKeepsCards(d, h, n - 1);
      DealtAfterStep(d, h, n - 1, before, after);
      PopKeepsCards(before, p, after);
    }
  }

  /** Before any pop the table is as given. */
  lemma DealtAfterZero(d: seq<Card>, h: seq<seq<Card>>)
    requires |h| == 4
    ensures DealtAfter(d, h, 0) == Table(d, h)
  {
    var t := DealtAfter(d, h, 0);
    assert t.deck == d;
    forall q | 0 <= q < 4
      ensures t.hands[q] == h[q]
    {
      assert Share(d, 0, q) == [];
    }
    assert t.hands == h;
  }

  /** Dealing a cards (a whole number of passes) and then b more from what
      is left is dealing a + b cards. */
  lemma DealtAfterThen(d: seq<Card>, h: seq<seq<Card>>, a: nat, b: nat, mid: Table)
    requires |h| == 4 && a + b <= |d| && a % 4 == 0 && mid == DealtAfter(d, h, a)
    ensures DealtAfter(mid.deck, mid.hands, b) == DealtAfter(d, h, a + b)
  {
    var r, s := DealtAfter(mid.deck, mid.hands, b), DealtAfter(d, h, a + b);
    assert r.deck == s.deck;
    DealtAfterThenHand(d, h, a, b, mid, 0);
    DealtAfterThenHand(d, h, a, b, mid, 1);
    DealtAfterThenHand(d, h, a, b, mid, 2);
    DealtAfterThenHand(d, h, a, b, mid, 3);
    assert r.hands == s.hands;
  }

  lemma DealtAfterThenHand(d: seq<Card>, h: seq<seq<Card>>, a: nat, b: nat, mid: Table, q: nat)
    requires |h| == 4 && a + b <= |d| && a % 4 == 0 && q < 4 && mid == DealtAfter(d, h, a)
    ensures DealtAfter(mid.deck, mid.hands, b).hands[q] == DealtAfter(d, h, a + b).hands[q]
  {
    DealtAfterHand(mid.deck, mid.hands, b, q);
    DealtAfterHand(d, h, a, q);
    DealtAfterHand(d, h, a + b, q);
    ShareThen(d, a, b, q, mid.deck);
    var x, y, z := h[q], Share(d, a, q), Share(mid.deck, b, q);
    assert (x + y) + z == x + (y + z);
  }

  /** Player q's hand after the deal is the hand before and q's share. */
  lemma DealtAfterHand(d: seq<Card>, h: seq<seq<Card>>, n: nat, q: nat)
    requires |h| == 4 && n <= |d| && q < 4
    ensures DealtAfter(d, h, n).hands[q] == h[q] + Share(d, n, q)
  {
    if q == 0 {
    } else if q == 1 {
    } else if q == 2 {
    } else {
    }
  }

  /** Player q's share of a + b cards is the share of the first a (a whole
      number of passes) followed by the share of the next b. */
  lemma ShareThen(d: seq<Card>, a: nat, b: nat, q: nat, rest: seq<Card>)
    requires a + b <= |d| && a % 4 == 0 && q < 4 && rest == d[..|d| - a]
    ensures Share(d, a + b, q) == Share(d, a, q) + Share(rest, b, q)
  {
    var m := a / 4;
    assert a == 4 * m;
    var L, R, S := Share(d, a, q), Share(rest, b, q), Share(d, a + b, q);
    assert |L| == m;
    assert |S| == m + |R|;
    forall j | 0 <= j < |S|
      ensures S[j] == (L + R)[j]
    {
      if j >= m {
        var k := j - m;
        assert 4 * j + q == a + (4 * k + q);
      }
    }
  }

  /** A deck as createDeck returns it: 32 cards, each card once. */
  ghost predicate ShuffledDeck(d: seq<Card>)
  {
    |d| == 32 && EachCardOnce(multiset(d))
  }

  /** Five passes from a 32-card deck leave five cards per hand and twelve
      in the deck, every card once among them. */
  lemma FreshDeal(d: seq<Card>, t: Table)
    requires ShuffledDeck(d) && t == DealtAfter(d, EmptyHands, 4 * (FirstPasses + SecondPasses))
    ensures |t.deck| == 12 && (forall p :: 0 <= p < 4 ==> |t.hands[p]| == 5)
    ensures EachCardOnce(TableCards(t))
  {
    var n := 4 * (FirstPasses + SecondPasses);
    DealtAfterKeepsCards(d, EmptyHands, n);
    assert HandCards(EmptyHands) == multiset{};
    forall p | 0 <= p < 4
      ensures |t.hands[p]| == 5
    {
      assert t.hands[p] == [] + Share(d, n, p) by {
        if p == 0 {
        } else if p == 1 {
        } else if p == 2 {
        } else {
        }
      }
    }
  }

  /** The deal that closes the bidding completes the hands: after deal()'s
      five passes, checkIsBiddingOver's three more passes leave eight cards
      in each hand and none in the deck (BiddingCheckedCards keeps every
      card once). */
  lemma ContractDealCompletesHands(d: seq<Card>, t: Table)
    requires ShuffledDeck(d) && t == DealtAfter(d, EmptyHands, 4 * (FirstPasses + SecondPasses))
    ensures var t' := DealtAfter(t.deck, t.hands, Min(4 * ContractPasses, |t.deck|));
            |t'.deck| == 0 && (forall q :: 0 <= q < 4 ==> |t'.hands[q]| == 8)
  {
    assert |t.deck| == 12;
    DealtAfterThen(d, EmptyHands, 20, 12, t);
    forall q | 0 <= q < 4
      ensures |DealtAfter(d, EmptyHands, 32).hands[q]| == 8
    {
      WholeDeckShare(d, q);
    }
  }

  /** Dealing a whole 32-card deck gives each player eight cards. */
  lemma WholeDeckShare(d: seq<Card>, q: nat)
    requires |d| == 32 && q < 4
    ensures |DealtAfter(d, EmptyHands, 32).hands[q]| == 8
  {
    var h := DealtAfter(d, EmptyHands, 32).hands;
    if q == 0 {
      assert h[0] == [] + Share(d, 32, 0);
    } else if q == 1 {
      assert h[1] == [] + Share(d, 32, 1);
    } else if q == 2 {
      assert h[2] == [] + Share(d, 32, 2);
    } else {
      assert h[3] == [] + Share(d, 32, 3);
    }
  }
  // ---------------------------------------------------------------- tricks and round end

  /** The round after completeTrick's push: the trick joins the tricks,
      the winner's team gains the points of its cards, the winner leads
      and the trick on the table is empty. */
  function AfterTrick(contract: Option<Contract>, r: Round): Round
    requires |r.currentRoundScore| == 2 && r.currentTrick.winner.Some?
  {
    var w := r.currentTrick.winner.value;
    r.(tricks := r.tricks + [r.currentTrick],
       currentRoundScore := r.currentRoundScore[Team(w) := r.currentRoundScore[Team(w)]
                                                         + SumValues(PlayedCards(r.currentTrick.cards), contract)],
       currentPlayer := w, currentTrick := EmptyTrick)
  }

  /** The forEach of completeTrick: each card's value under the contract
      added to the team's score. */
  method AddTrickPoints(score0: seq<nat>, plays: seq<Play>, team: nat, contract: Option<Contract>)
    returns (score: seq<nat>)
    requires |score0| == 2 && team < 2
    ensures score == score0[team := score0[team] + SumValues(PlayedCards(plays), contract)]
  {
    score := score0;
    var i := 0;
    while i < |plays|
      invariant 0 <= i <= |plays|
      invariant score == score0[team := score0[team] + SumValues(PlayedCards(plays[..i]), contract)]
    {
      assert plays[..i + 1][..i] == plays[..i];
      SumValuesAppend(PlayedCards(plays[..i]), [plays[i].card], contract);
      score := score[team := score[team] + Value(plays[i].card, contract)];
      i := i + 1;
    }
    assert plays[..|plays|] == plays;
  }

  /** Completing a resolved trick keeps the state invariant. */
  lemma AfterTrickValid(contract: Option<Contract>, r: Round)
    requires RoundValid(r) && r.currentTrick.winner.Some?
    ensures RoundValid(AfterTrick(contract, r))
  {
  }

  /** Completing a trick moves its cards from the table to the tricks: the
      cards in play stay the same. */
  lemma AfterTrickKeepsCards(t: Table, contract: Option<Contract>, r: Round)
    requires |t.hands| == 4 && |r.currentRoundScore| == 2 && r.currentTrick.winner.Some?
    ensures InPlay(t, AfterTrick(contract, r)) == InPlay(t, r)
  {
    var after := AfterTrick(contract, r);
    assert after.tricks[..|after.tricks| - 1] == r.tricks;
    assert PlayedCards([]) == [];
  }

  /** The points of a completed trick go to one team: the two scores
      together grow by the value of the trick's cards. */
  lemma AfterTrickPoints(contract: Option<Contract>, r: Round)
    requires |r.currentRoundScore| == 2 && r.currentTrick.winner.Some?
    ensures var after := AfterTrick(contract, r);
            after.currentRoundScore[0] + after.currentRoundScore[1]
            == r.currentRoundScore[0] + r.currentRoundScore[1] + SumValues(PlayedCards(r.currentTrick.cards), contract)
            && after.currentRoundScore[1 - Team(r.currentTrick.winner.value)]
               == r.currentRoundScore[1 - Team(r.currentTrick.winner.value)]
  {
  }

  /** The team whose player made the first bid of the contract. */
  function ContractTeam(a: Auction): (t: nat)
    requires a.contract.Some? && FirstBidOf(a.bids, a.contract.value).Some?
    ensures t < 2
  {
    Team(a.bids[FirstBidOf(a.bids, a.contract.value).value].playerId)
  }

  /** Each team's combination points. */
  function TeamComboPoints(ann: seq<seq<Announced>>): seq<nat>
    requires |ann| == 2
  {
    [ComboPoints(ann[0]), ComboPoints(ann[1])]
  }

  /** currentRoundScore as endRound leaves it: the card points with the
      last trick's 10 (doubled under no-trump), the valat 90 and the
      announced combinations. */
  function FinalScores(c: Contract, r: Round): (raw: seq<nat>)
    requires |r.currentRoundScore| == 2 && |r.announcedCombinations| == 2
    ensures |raw| == 2
  {
    RawScores(CardPoints(r.currentRoundScore, LastTrickTeam(r.tricks), c), ValatTeam(TrickTeams(r.tricks)),
              TeamComboPoints(r.announcedCombinations))
  }

  /** lastRoundBreakdown: each team's card points, combination points and
      valat bonus. */
  function FinalBreakdown(c: Contract, r: Round): (b: seq<Breakdown>)
    requires |r.currentRoundScore| == 2 && |r.announcedCombinations| == 2
    ensures |b| == 2
  {
    var cp := CardPoints(r.currentRoundScore, LastTrickTeam(r.tricks), c);
    var v := ValatTeam(TrickTeams(r.tricks));
    [Breakdown(cp[0], ComboPoints(r.announcedCombinations[0]), ValatBonus(v, 0)),
     Breakdown(cp[1], ComboPoints(r.announcedCombinations[1]), ValatBonus(v, 1))]
  }

  /** What endRound reads: a contract and its bid, and two-entry team
      arrays. */
  predicate EndRoundDomain(a: Auction, r0: Round, s0: Scores)
  {
    a.contract.Some? && FirstBidOf(a.bids, a.contract.value).Some?
    && |r0.currentRoundScore| == 2 && |r0.announcedCombinations| == 2 && |s0.totalScores| == 2
  }

  /** What endRound leaves, from round r0 and scores s0 under auction a:
      the final raw scores kept in the round and shown as the last round's
      score with its breakdown, the settlement's rounded and hanging points,
      the rounded points added to the totals, and the winner with the
      finished phase once a team has 151, the scoring phase otherwise. */
  ghost predicate RoundEnded(a: Auction, r0: Round, s0: Scores, p: Phase, r: Round, s: Scores)
  {
    EndRoundDomain(a, r0, s0)
    && var c := a.contract.value;
       var raw := FinalScores(c, r0);
       var st := Settle(raw, ContractTeam(a), c, a.double, a.redouble, ValatTeam(TrickTeams(r0.tricks)).Some?,
                        s0.hangingPoints);
       var totals := [s0.totalScores[0] + st.rounded[0], s0.totalScores[1] + st.rounded[1]];
       r == r0.(currentRoundScore := raw)
       && s.totalScores == totals && s.lastRoundScore == raw && s.lastRoundBreakdown == FinalBreakdown(c, r0)
       && s.lastRoundRoundedPoints == st.rounded && s.hangingPoints == st.hanging
       && s.winner == (if GameWinner(totals).Some? then GameWinner(totals) else s0.winner)
       && p == if GameWinner(totals).Some? then Finished else Scoring
  }

  /** endRound on the values of the round and score fields. */
  method SettleRound(a: Auction, r0: Round, s0: Scores) returns (p: Phase, r: Round, s: Scores)
    requires EndRoundDomain(a, r0, s0)
    ensures RoundEnded(a, r0, s0, p, r, s)
  {
    var c := a.contract.value;
    var score, breakdown, isValat := RoundPoints(c, r0);
    var contractTeam := Team(a.bids[FirstBidOf(a.bids, c).value].playerId);
    assert contractTeam == ContractTeam(a);
    var settlement := Settle(score, contractTeam, c, a.double, a.redouble, isValat, s0.hangingPoints);
    assert settlement == Settle(FinalScores(c, r0), ContractTeam(a), c, a.double, a.redouble,
                                ValatTeam(TrickTeams(r0.tricks)).Some?, s0.hangingPoints);
    var totals := [s0.totalScores[0] + settlement.rounded[0], s0.totalScores[1] + settlement.rounded[1]];
    var winner;
    p, winner := CheckGameEnd(totals, s0.winner);
    r := r0.(currentRoundScore := score);
    s := Scores(totals, score, breakdown, settlement.rounded, settlement.hanging, winner);
  }

  /** The end of endRound: the scoring phase, or the finished phase with
      the winner once a team's total reaches 151 (team 0 when both do). */
  method CheckGameEnd(totals: seq<int>, winner0: Option<nat>) returns (p: Phase, winner: Option<nat>)
    requires |totals| == 2
    ensures winner == if GameWinner(totals).Some? then GameWinner(totals) else winner0
    ensures p == if GameWinner(totals).Some? then Finished else Scoring
  {
    p, winner := Scoring, winner0;
    if totals[0] >= 151 || totals[1] >= 151 {
      winner := Some(if totals[0] >= 151 then 0 else 1);
      p := Finished;
    }
  }

  /** The first part of endRound: the last trick's 10, the no-trump
      doubling, the valat bonus and the combinations, added to the round
      score and recorded in the breakdown. */
  method RoundPoints(c: Contract, r0: Round) returns (score: seq<nat>, breakdown: seq<Breakdown>, isValat: bool)
    requires |r0.currentRoundScore| == 2 && |r0.announcedCombinations| == 2
    ensures score == FinalScores(c, r0) && breakdown == FinalBreakdown(c, r0)
    ensures isValat == ValatTeam(TrickTeams(r0.tricks)).Some?
  {
    var tricks := r0.tricks;
    score, breakdown := CardPointsOf(c, r0.currentRoundScore, tricks);
    ghost var cardPoints := score;
    score, breakdown, isValat := AddValat(score, breakdown, tricks);
    ghost var valat := ValatTeam(TrickTeams(tricks));
    score, breakdown := AddTeamCombos(score, breakdown, r0.announcedCombinations);
    FinalOfParts(c, r0, score, breakdown);
  }

  /** Two teams' scores and breakdowns, each the sum of its parts, are the
      round's final scores and breakdown. */
  lemma FinalOfParts(c: Contract, r0: Round, score: seq<nat>, breakdown: seq<Breakdown>)
    requires |r0.currentRoundScore| == 2 && |r0.announcedCombinations| == 2
    requires |score| == 2 && |breakdown| == 2
    requires forall k :: 0 <= k < 2 ==>
               score[k] == CardPoints(r0.currentRoundScore, LastTrickTeam(r0.tricks), c)[k]
                           + ValatBonus(ValatTeam(TrickTeams(r0.tricks)), k) + ComboPoints(r0.announcedCombinations[k])
    requires forall k :: 0 <= k < 2 ==>
               breakdown[k] == Breakdown(CardPoints(r0.currentRoundScore, LastTrickTeam(r0.tricks), c)[k],
                                         ComboPoints(r0.announcedCombinations[k]),
                                         ValatBonus(ValatTeam(TrickTeams(r0.tricks)), k))
    ensures score == FinalScores(c, r0) && breakdown == FinalBreakdown(c, r0)
  {
    assert score == [score[0], score[1]] && breakdown == [breakdown[0], breakdown[1]];
  }

  /** The forEach over the two teams' announcements: each team's
      combination points added to its score and set in its breakdown. */
  method AddTeamCombos(score0: seq<nat>, breakdown0: seq<Breakdown>, ann: seq<seq<Announced>>)
    returns (score: seq<nat>, breakdown: seq<Breakdown>)
    requires |score0| == 2 && |breakdown0| == 2 && |ann| == 2
    ensures |score| == 2 && |breakdown| == 2
    ensures forall k :: 0 <= k < 2 ==> score[k] == score0[k] + ComboPoints(ann[k])
    ensures forall k :: 0 <= k < 2 ==> breakdown[k] == breakdown0[k].(combinationPoints := ComboPoints(ann[k]))
  {
    score, breakdown := score0, breakdown0;
    var team := 0;
    while team < 2
      invariant 0 <= team <= 2 && |score| == 2 && |breakdown| == 2
      invariant forall k :: 0 <= k < 2 ==> score[k] == score0[k] + (if k < team then ComboPoints(ann[k]) else 0)
      invariant forall k :: 0 <= k < 2 ==>
                  breakdown[k] == if k < team then breakdown0[k].(combinationPoints := ComboPoints(ann[k])) else breakdown0[k]
    {
      var comboPoints;
      score, comboPoints := AddComboPoints(score, team, ann[team]);
      breakdown := breakdown[team := breakdown[team].(combinationPoints := comboPoints)];
      team := team + 1;
    }
  }

  /** The last trick's 10 to its winner's team, then both scores and the
      breakdown's card points doubled under no-trump. */
  method CardPointsOf(c: Contract, score0: seq<nat>, tricks: seq<Trick>) returns (score: seq<nat>, breakdown: seq<Breakdown>)
    requires |score0| == 2
    ensures score == CardPoints(score0, LastTrickTeam(tricks), c)
    ensures breakdown == [Breakdown(score[0], 0, 0), Breakdown(score[1], 0, 0)]
  {
    score := score0;
    if |tricks| > 0 && tricks[|tricks| - 1].winner.Some? {
      var team := Team(tricks[|tricks| - 1].winner.value);
      score := score[team := score[team] + 10];
    }
    breakdown := [Breakdown(score[0], 0, 0), Breakdown(score[1], 0, 0)];
    if c == NoTrump {
      score := [score[0] * 2, score[1] * 2];
      breakdown := [breakdown[0].(cardPoints := breakdown[0].cardPoints * 2),
                    breakdown[1].(cardPoints := breakdown[1].cardPoints * 2)];
    }
  }

  /** The valat check: when every trick went to team 0 (tried first) or
      to team 1, that team gains 90, shown as its valat points. */
  method AddValat(score0: seq<nat>, breakdown0: seq<Breakdown>, tricks: seq<Trick>)
    returns (score: seq<nat>, breakdown: seq<Breakdown>, isValat: bool)
    requires |score0| == 2 && |breakdown0| == 2
    ensures isValat == ValatTeam(TrickTeams(tricks)).Some?
    ensures |score| == 2 && |breakdown| == 2
    ensures forall k :: 0 <= k < 2 ==> score[k] == score0[k] + ValatBonus(ValatTeam(TrickTeams(tricks)), k)
    ensures forall k :: 0 <= k < 2 ==>
              breakdown[k] == breakdown0[k].(valatPoints := if ValatTeam(TrickTeams(tricks)) == Some(k) then 90
                                                            else breakdown0[k].valatPoints)
  {
    score, breakdown, isValat := score0, breakdown0, false;
    if forall i :: 0 <= i < |tricks| ==> tricks[i].team == Some(0) {
      score := score[0 := score[0] + 90];
      breakdown := breakdown[0 := breakdown[0].(valatPoints := 90)];
      isValat := true;
    } else if forall i :: 0 <= i < |tricks| ==> tricks[i].team == Some(1) {
      score := score[1 := score[1] + 90];
      breakdown := breakdown[1 := breakdown[1].(valatPoints := 90)];
      isValat := true;
    }
  }

  /** The inner forEach of endRound: each combination's points added both
      to the team's round score and to its comboPoints. */
  method AddComboPoints(score0: seq<nat>, team: nat, combos: seq<Announced>) returns (score: seq<nat>, comboPoints: nat)
    requires |score0| == 2 && team < 2
    ensures comboPoints == ComboPoints(combos)
    ensures score == score0[team := score0[team] + ComboPoints(combos)]
  {
    score, comboPoints := score0, 0;
    var i := 0;
    while i < |combos|
      invariant 0 <= i <= |combos|
      invariant comboPoints == ComboPoints(combos[..i])
      invariant score == score0[team := score0[team] + comboPoints]
    {
      assert combos[..i + 1][..i] == combos[..i];
      comboPoints := comboPoints + combos[i].combo.points;
      score := score[team := score[team] + combos[i].combo.points];
      i := i + 1;
    }
    assert combos[..|combos|] == combos;
  }

  /** Ending the round keeps the state invariant; in particular the
      hanging points stay non-negative. */
  lemma SettledValid(dealer: nat, t: Table, a: Auction, r0: Round, s0: Scores, p: Phase, r: Round, s: Scores)
    requires GameValid(dealer, t, a, r0, s0) && RoundEnded(a, r0, s0, p, r, s)
    ensures GameValid(dealer, t, a, r, s)
  {
    var c := a.contract.value;
    SettleNonNegative(FinalScores(c, r0), ContractTeam(a), c, a.double, a.redouble,
                      ValatTeam(TrickTeams(r0.tricks)).Some?, s0.hangingPoints);
  }
}
