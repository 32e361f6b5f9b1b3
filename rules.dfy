/** The rules BelotGame (src/game/gameLogic.js) applies, stated as
    functions and predicates over values: contract ranks and bid
    admissibility, the end of bidding, the trick-winner fold, card-play
    legality, the auto-announce filter and the order in which dealing
    pops the deck. The class in GameLogic is proved against these. */
module GameRules {
  import opened Cards
  import opened Combinations

  datatype Phase = Dealing | Bidding | Playing | Scoring | Finished

  /** A call in the bidding: 'pass', 'double', 'redouble' or a contract. */
  datatype Call = Pass | Double | Redouble | Bid(contract: Contract)

  datatype BidEntry = BidEntry(playerId: nat, call: Call)

  /** One card in a trick, with the player who played it. */
  datatype Play = Play(playerId: nat, card: Card)

  datatype Trick = Trick(cards: seq<Play>, winner: Option<nat>, team: Option<nat>)

  /** An announced combination with the player it is credited to. */
  datatype Announced = Announced(combo: Combo, playerId: nat)

  /** The players table: You (0) and Partner (2) are team 0, West (1) and
      East (3) are team 1. */
  function Team(p: nat): (t: nat)
    ensures t < 2 && (t == 0 <==> p % 2 == 0)
  {
    p % 2
  }

  /** The next player counter-clockwise. */
  function Next(p: nat): (q: nat)
    ensures q < 4
    ensures p < 4 ==> Team(q) != Team(p)
  {
    (p + 3) % 4
  }

  // ---------------------------------------------------------------- bidding

  /** CONTRACT_RANK. */
  function ContractRank(c: Contract): (r: nat)
    ensures 1 <= r <= 6
    ensures c == NoTrump ==> r == 5
    ensures c == AllTrump ==> r == 6
    ensures c.SuitContract? ==> r == SuitIndex(c.trump) + 1
  {
    match c
    case SuitContract(s) => SuitIndex(s) + 1
    case NoTrump => 5
    case AllTrump => 6
  }

  /** The rank identifies the contract, so ranks order the six contracts
      strictly: clubs < diamonds < hearts < spades < no-trump < all-trump. */
  lemma ContractRankInjective(a: Contract, b: Contract)
    ensures ContractRank(a) == ContractRank(b) <==> a == b
  {
    if a.SuitContract? && b.SuitContract? && a.trump != b.trump {
      match a.trump
      case Clubs => case Diamonds => case Hearts => case Spades =>
    }
  }

  /** The index of the latest contract bid (neither pass, double nor
      redouble), if any. */
  function LastBid(bids: seq<BidEntry>): (r: Option<nat>)
    ensures r.Some? ==> r.value < |bids| && bids[r.value].call.Bid?
                        && forall j :: r.value < j < |bids| ==> !bids[j].call.Bid?
    ensures r.None? ==> forall j :: 0 <= j < |bids| ==> !bids[j].call.Bid?
  {
    if bids == [] then None
    else if bids[|bids| - 1].call.Bid? then Some(|bids| - 1)
    else LastBid(bids[..|bids| - 1])
  }

  /** The index of the latest call that is not a pass, if any. */
  function LastNonPass(bids: seq<BidEntry>): (r: Option<nat>)
    ensures r.Some? ==> r.value < |bids| && bids[r.value].call != Pass
                        && forall j :: r.value < j < |bids| ==> bids[j].call == Pass
    ensures r.None? ==> forall j :: 0 <= j < |bids| ==> bids[j].call == Pass
  {
    if bids == [] then None
    else if bids[|bids| - 1].call != Pass then Some(|bids| - 1)
    else LastNonPass(bids[..|bids| - 1])
  }

  /** Whether makeBid accepts a call from the player in turn. */
  predicate Admissible(bids: seq<BidEntry>, double: bool, player: nat, call: Call)
  {
    match call
    case Pass => true
    case Double => LastBid(bids).Some? && Team(bids[LastBid(bids).value].playerId) != Team(player)
    case Redouble => LastBid(bids).Some? && double && Team(bids[LastBid(bids).value].playerId) == Team(player)
    case Bid(c) =>
      match LastNonPass(bids)
      case None => true
      case Some(i) => !bids[i].call.Bid? || ContractRank(bids[i].call.contract) < ContractRank(c)
  }

  /** A contract bid must outrank the latest non-pass call when that call is
      a contract; when it is a double or redouble, CONTRACT_RANK has no
      entry for it and every contract is accepted. */
  lemma ContractBidAdmissibility(bids: seq<BidEntry>, double: bool, player: nat, c: Contract)
    ensures LastNonPass(bids).Some? && bids[LastNonPass(bids).value].call.Bid? ==>
              (Admissible(bids, double, player, Bid(c))
               <==> ContractRank(bids[LastNonPass(bids).value].call.contract) < ContractRank(c))
    ensures LastNonPass(bids).Some? && !bids[LastNonPass(bids).value].call.Bid? ==> Admissible(bids, double, player, Bid(c))
    ensures LastNonPass(bids).None? ==> Admissible(bids, double, player, Bid(c))
    ensures Admissible(bids, double, player, Bid(c)) && LastBid(bids).Some? && LastBid(bids) == LastNonPass(bids)
            ==> ContractRank(bids[LastBid(bids).value].call.contract) < ContractRank(c)
  {
  }

  /** A team may double only the other team's contract, and redouble only its
      own doubled contract; no contract bid is admissible while the latest
      non-pass call is an all-trump bid. */
  lemma DoubleAndRedoubleTeams(bids: seq<BidEntry>, double: bool, player: nat)
    ensures Admissible(bids, double, player, Double) ==>
              LastBid(bids).Some? && Team(bids[LastBid(bids).value].playerId) != Team(player)
    ensures Admissible(bids, double, player, Redouble) ==>
              double && LastBid(bids).Some? && Team(bids[LastBid(bids).value].playerId) == Team(player)
    ensures !(Admissible(bids, double, player, Double) && Admissible(bids, double, player, Redouble))
    ensures LastNonPass(bids).Some? && bids[LastNonPass(bids).value].call == Bid(AllTrump)
            ==> forall c :: !Admissible(bids, double, player, Bid(c))
  {
  }

  /** What checkIsBiddingOver decides. */
  datatype BiddingState = Open | Contracted(contract: Contract) | Redeal

  /** The last k calls exist and are all passes (bids.slice(-k) of length
      k, every call a pass). */
  predicate EndsInPasses(bids: seq<BidEntry>, k: nat)
  {
    |bids| >= k && forall i :: |bids| - k <= i < |bids| ==> bids[i].call == Pass
  }

  /** A contract is fixed once the last three calls are passes and some
      contract was bid; with no contract bid, four passes call for a
      redeal. */
  function BiddingEnd(bids: seq<BidEntry>): BiddingState
  {
    match LastBid(bids)
    case Some(i) => if EndsInPasses(bids, 3) then Contracted(bids[i].call.contract) else Open
    case None => if EndsInPasses(bids, 4) then Redeal else Open
  }

  /** The bidding closes on the latest contract bid exactly when three
      passes follow it: that bid is then at least three calls back, and it
      is the only way a contract can be fixed. */
  lemma BiddingEndCharacterization(bids: seq<BidEntry>)
    ensures BiddingEnd(bids).Contracted? <==>
              LastBid(bids).Some? && EndsInPasses(bids, 3)
    ensures BiddingEnd(bids).Contracted? ==>
              LastBid(bids).value <= |bids| - 4
              && bids[LastBid(bids).value].call == Bid(BiddingEnd(bids).contract)
    ensures BiddingEnd(bids).Redeal? ==> EndsInPasses(bids, 4) && LastBid(bids).None?
  {
  }

  // ---------------------------------------------------------------- tricks

  /** determineTrickWinner's fold: start from the first play and move to
      every later play whose card isHigherThan the current one. The result
      is an index into the trick. */
  function WinnerOf(plays: seq<Play>, contract: Option<Contract>, trumpSuit: Option<Suit>): (w: nat)
    requires plays != []
    ensures w < |plays|
    decreases |plays|
  {
    if |plays| == 1 then 0
    else
      var w := WinnerOf(plays[..|plays| - 1], contract, trumpSuit);
      if IsHigherThan(plays[|plays| - 1].card, plays[w].card, contract, trumpSuit) then |plays| - 1 else w
  }

  /** No card of the trick isHigherThan the winner's, and the winner is the
      lead or beats the lead. */
  lemma {:induction false} WinnerIsUnbeaten(plays: seq<Play>, contract: Option<Contract>, trumpSuit: Option<Suit>)
    requires plays != []
    ensures var w := WinnerOf(plays, contract, trumpSuit);
            (forall i :: 0 <= i < |plays| ==> !IsHigherThan(plays[i].card, plays[w].card, contract, trumpSuit))
            && (w == 0 || IsHigherThan(plays[w].card, plays[0].card, contract, trumpSuit))
  {
    var w := WinnerOf(plays, contract, trumpSuit);
    if |plays| == 1 {
      SameSuitStrictOrder(plays[0].card, plays[0].card, plays[0].card, contract, trumpSuit);
    } else {
      var init := plays[..|plays| - 1];
      var v := WinnerOf(init, contract, trumpSuit);
      WinnerIsUnbeaten(init, contract, trumpSuit);
      var last := plays[|plays| - 1].card;
      assert forall i :: 0 <= i < |init| ==> init[i] == plays[i];
      if w == |plays| - 1 {
        // the last card beats the previous winner, so no earlier card beats it
        forall i | 0 <= i < |plays|
          ensures !IsHigherThan(plays[i].card, last, contract, trumpSuit)
        {
          if i == |plays| - 1 {
            SameSuitStrictOrder(last, last, last, contract, trumpSuit);
          } else if IsHigherThan(plays[i].card, last, contract, trumpSuit) {
            HigherIsTransitive(plays[i].card, last, init[v].card, contract, trumpSuit);
            assert false;
          }
        }
        if v != 0 {
          HigherIsTransitive(last, init[v].card, plays[0].card, contract, trumpSuit);
        }
      } else {
        assert w == v;
        assert !IsHigherThan(last, plays[w].card, contract, trumpSuit);
      }
    }
  }

  /** With distinct cards exactly one play is unbeaten and is the lead or
      beats it, so that play is the winner. */
  lemma WinnerIsUnique(plays: seq<Play>, contract: Option<Contract>, trumpSuit: Option<Suit>, k: nat)
    requires plays != [] && k < |plays|
    requires forall i, j :: 0 <= i < j < |plays| ==> plays[i].card != plays[j].card
    requires forall i :: 0 <= i < |plays| ==> !IsHigherThan(plays[i].card, plays[k].card, contract, trumpSuit)
    requires k == 0 || IsHigherThan(plays[k].card, plays[0].card, contract, trumpSuit)
    ensures k == WinnerOf(plays, contract, trumpSuit)
  {
    var w := WinnerOf(plays, contract, trumpSuit);
    WinnerIsUnbeaten(plays, contract, trumpSuit);
    if k != w {
      var a, b := plays[k].card, plays[w].card;
      if k == 0 || w == 0 {
        assert false;
      } else if a.suit == b.suit {
        SameSuitStrictOrder(a, b, b, contract, trumpSuit);
        assert false;
      } else {
        // both beat the lead but lie in different suits: one is a trump, and
        // a trump beats every card of another suit
        OffSuitWinsOnlyAsTrump(a, b, contract, trumpSuit);
        OffSuitWinsOnlyAsTrump(b, a, contract, trumpSuit);
        assert false;
      }
    }
  }

  /** opponentHasHighestCard: the play leading the trick so far belongs to the
      other team than the given player (the source passes currentPlayer). */
  predicate OpponentWinning(plays: seq<Play>, player: nat, contract: Option<Contract>, trumpSuit: Option<Suit>)
  {
    plays != [] && Team(plays[WinnerOf(plays, contract, trumpSuit)].playerId) != Team(player)
  }

  // ---------------------------------------------------------------- legality

  predicate HoldsSuit(hand: seq<Card>, s: Suit)
  {
    exists h :: h in hand && h.suit == s
  }

  /** c ranks strictly above every card of suit s in the trick (by
      getRanking under the contract, lower meaning stronger). */
  predicate RanksAboveSuit(c: Card, plays: seq<Play>, s: Suit, contract: Option<Contract>)
  {
    forall i :: 0 <= i < |plays| && plays[i].card.suit == s ==> Ranking(c, contract) < Ranking(plays[i].card, contract)
  }

  /** Some card of suit s in the hand ranks above every card of that suit in
      the trick. */
  predicate CanRaise(hand: seq<Card>, plays: seq<Play>, s: Suit, contract: Option<Contract>)
  {
    exists h :: h in hand && h.suit == s && RanksAboveSuit(h, plays, s, contract)
  }

  /** The other team has put a card of trumpSuit on the trick. */
  predicate OpponentTrumped(plays: seq<Play>, team: nat, trumpSuit: Option<Suit>)
  {
    exists i :: 0 <= i < |plays| && Team(plays[i].playerId) != team && Some(plays[i].card.suit) == trumpSuit
  }

  /** c is a trump ranking above every trump the other team has played. */
  predicate OvertrumpsOpponents(c: Card, plays: seq<Play>, team: nat, trump: Suit, contract: Option<Contract>)
  {
    c.suit == trump
    && forall i :: 0 <= i < |plays| && Team(plays[i].playerId) != team && plays[i].card.suit == trump
                   ==> Ranking(c, contract) < Ranking(plays[i].card, contract)
  }

  predicate CanOvertrump(hand: seq<Card>, plays: seq<Play>, team: nat, trump: Suit, contract: Option<Contract>)
  {
    exists h :: h in hand && OvertrumpsOpponents(h, plays, team, trump, contract)
  }

  /** isValidCardPlay, for a player of the given team holding hand:
      - leading is always legal;
      - all-trump: follow suit, and play a card above the trick's best card
        of the lead suit when the hand has one;
      - no-trump: follow suit;
      - suit contract: follow suit, and overtake the best trump when trump
        is led; without the lead suit, beat the opponents' best trump when
        they have trumped and the hand can; otherwise, when an opponent is
        winning (opponentWinning) and the hand holds trump, play trump. */
  predicate LegalPlay(plays: seq<Play>, hand: seq<Card>, card: Card, team: nat,
                      contract: Option<Contract>, trumpSuit: Option<Suit>, opponentWinning: bool)
  {
    if plays == [] then true
    else
      var lead := plays[0].card.suit;
      if contract == Some(AllTrump) then
        !HoldsSuit(hand, lead)
        || (card.suit == lead
            && (!CanRaise(hand, plays, lead, contract) || (card in hand && RanksAboveSuit(card, plays, lead, contract))))
      else if contract == Some(NoTrump) then
        !HoldsSuit(hand, lead) || card.suit == lead
      else if HoldsSuit(hand, lead) then
        card.suit == lead
        && (Some(lead) == trumpSuit ==>
              !CanRaise(hand, plays, lead, contract) || (card in hand && RanksAboveSuit(card, plays, lead, contract)))
      else if OpponentTrumped(plays, team, trumpSuit) then
        !CanOvertrump(hand, plays, team, trumpSuit.value, contract)
        || (card in hand && OvertrumpsOpponents(card, plays, team, trumpSuit.value, contract))
      else if opponentWinning && exists h :: h in hand && Some(h.suit) == trumpSuit then
        Some(card.suit) == trumpSuit
      else true
  }

  /** Whatever the trick, a non-empty hand always holds a legal card. */
  lemma SomeCardIsLegal(plays: seq<Play>, hand: seq<Card>, team: nat,
                        contract: Option<Contract>, trumpSuit: Option<Suit>, opponentWinning: bool)
    requires hand != []
    ensures exists c :: c in hand && LegalPlay(plays, hand, c, team, contract, trumpSuit, opponentWinning)
  {
    var c := LegalWitness(plays, hand, team, contract, trumpSuit, opponentWinning);
  }

  lemma LegalWitness(plays: seq<Play>, hand: seq<Card>, team: nat,
                     contract: Option<Contract>, trumpSuit: Option<Suit>, opponentWinning: bool) returns (c: Card)
    requires hand != []
    ensures c in hand && LegalPlay(plays, hand, c, team, contract, trumpSuit, opponentWinning)
  {
    c := hand[0];
    if plays == [] {
      return;
    }
    var lead := plays[0].card.suit;
    if HoldsSuit(hand, lead) {
      var h :| h in hand && h.suit == lead;
      c := h;
      if (contract == Some(AllTrump) || (contract != Some(NoTrump) && Some(lead) == trumpSuit))
         && CanRaise(hand, plays, lead, contract) {
        var g :| g in hand && g.suit == lead && RanksAboveSuit(g, plays, lead, contract);
        c := g;
      }
    } else if contract != Some(AllTrump) && contract != Some(NoTrump) {
      if OpponentTrumped(plays, team, trumpSuit) {
        if CanOvertrump(hand, plays, team, trumpSuit.value, contract) {
          var g :| g in hand && OvertrumpsOpponents(g, plays, team, trumpSuit.value, contract);
          c := g;
        }
      } else if opponentWinning && exists h :: h in hand && Some(h.suit) == trumpSuit {
        var g :| g in hand && Some(g.suit) == trumpSuit;
        c := g;
      }
    }
  }

  /** Under no-trump following suit is the only duty; a lead is always free. */
  lemma NoTrumpOnlyFollowsSuit(plays: seq<Play>, hand: seq<Card>, card: Card, team: nat,
                               trumpSuit: Option<Suit>, opponentWinning: bool)
    requires plays != []
    ensures LegalPlay(plays, hand, card, team, Some(NoTrump), trumpSuit, opponentWinning)
            <==> !HoldsSuit(hand, plays[0].card.suit) || card.suit == plays[0].card.suit
    ensures LegalPlay([], hand, card, team, Some(NoTrump), trumpSuit, opponentWinning)
  {
  }

  /** In all-trump a player holding the lead suit must follow it, and must
      raise with a card of the hand above the trick's best lead-suit card
      whenever one exists. */
  lemma AllTrumpMustRaise(plays: seq<Play>, hand: seq<Card>, card: Card, team: nat,
                          trumpSuit: Option<Suit>, opponentWinning: bool)
    requires plays != [] && card in hand && HoldsSuit(hand, plays[0].card.suit)
    ensures var lead := plays[0].card.suit;
            LegalPlay(plays, hand, card, team, Some(AllTrump), trumpSuit, opponentWinning)
            <==> card.suit == lead
                 && (CanRaise(hand, plays, lead, Some(AllTrump)) ==> RanksAboveSuit(card, plays, lead, Some(AllTrump)))
  {
  }

  /** In a suit contract a player without the lead suit, after an opponent
      has trumped, must overtrump when able and may play anything when not. */
  lemma MustOvertrumpWhenAble(plays: seq<Play>, hand: seq<Card>, card: Card, team: nat,
                              trump: Suit, opponentWinning: bool)
    requires plays != [] && card in hand && !HoldsSuit(hand, plays[0].card.suit)
    requires OpponentTrumped(plays, team, Some(trump))
    ensures LegalPlay(plays, hand, card, team, Some(SuitContract(trump)), Some(trump), opponentWinning)
            <==> (CanOvertrump(hand, plays, team, trump, Some(SuitContract(trump)))
                  ==> OvertrumpsOpponents(card, plays, team, trump, Some(SuitContract(trump))))
  {
  }

  // ---------------------------------------------------------------- announcements

  /** The auto-announce filter: equals and quints always; a quarte unless
      the opponents announced a quint; a tierce unless they announced a
      quint or a quarte; never a belot. */
  predicate Admits(kind: Kind, oppQuint: bool, oppQuarte: bool)
  {
    match kind
    case Equal => true
    case Quint => true
    case Quarte => !oppQuint
    case Tierce => !oppQuint && !oppQuarte
    case Belot => false
  }

  predicate HasKind(list: seq<Announced>, k: Kind)
  {
    exists i :: 0 <= i < |list| && list[i].combo.kind == k
  }

  /** The records the forEach of playCard pushes, in order, each credited
      to playerId. */
  function Admitted(combos: seq<Combo>, playerId: nat, oppQuint: bool, oppQuarte: bool): seq<Announced>
  {
    if combos == [] then []
    else
      var last := combos[|combos| - 1];
      Admitted(combos[..|combos| - 1], playerId, oppQuint, oppQuarte)
      + (if Admits(last.kind, oppQuint, oppQuarte) then [Announced(last, playerId)] else [])
  }

  /** A record is announced exactly when it is one of the combinations and
      the filter admits its kind; belots never pass, and the whole list is
      announced when the opponents have neither quint nor quarte and the
      list holds no belot. */
  lemma {:induction false} AdmittedCharacterization(combos: seq<Combo>, playerId: nat, oppQuint: bool, oppQuarte: bool)
    ensures forall a :: a in Admitted(combos, playerId, oppQuint, oppQuarte)
                        <==> a.playerId == playerId && a.combo in combos && Admits(a.combo.kind, oppQuint, oppQuarte)
    ensures |Admitted(combos, playerId, oppQuint, oppQuarte)| <= |combos|
  {
    if combos != [] {
      var init := combos[..|combos| - 1];
      AdmittedCharacterization(init, playerId, oppQuint, oppQuarte);
      assert combos == init + [combos[|combos| - 1]];
    }
  }
}
