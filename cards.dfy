/** Cards, contracts and the 32-card deck of the Belot game
    (src/game/cards.js). A card's point value and its strength depend on the
    contract: trump suits use one table, the other suits another. */
module Cards {

  datatype Option<T> = None | Some(value: T)

  datatype Suit = Clubs | Diamonds | Hearts | Spades
  datatype Rank = Seven | Eight | Nine | Ten | Jack | Queen | King | Ace
  datatype Card = Card(suit: Suit, rank: Rank)

  /** The contract that bidding settles on: one trump suit, no trump at all,
      or every suit trump. */
  datatype Contract = SuitContract(trump: Suit) | NoTrump | AllTrump

  /** SUITS, in the order the deck is built. */
  const Suits: seq<Suit> := [Clubs, Diamonds, Hearts, Spades]
  /** RANKS; it is also SEQUENCE_ORDER, the order of runs for combinations. */
  const RankOrder: seq<Rank> := [Seven, Eight, Nine, Ten, Jack, Queen, King, Ace]
  /** CARD_RANKINGS.trump, strongest first. */
  const TrumpOrder: seq<Rank> := [Jack, Nine, Ace, Ten, King, Queen, Eight, Seven]
  /** CARD_RANKINGS.nonTrump, strongest first. */
  const NonTrumpOrder: seq<Rank> := [Ace, Ten, King, Queen, Jack, Nine, Eight, Seven]

  /** CARD_VALUES.trump */
  function TrumpValue(r: Rank): nat
  {
    match r
    case Seven => 0 case Eight => 0 case Nine => 14 case Ten => 10
    case Jack => 20 case Queen => 3 case King => 4 case Ace => 11
  }

  /** CARD_VALUES.nonTrump */
  function NonTrumpValue(r: Rank): nat
  {
    match r
    case Seven => 0 case Eight => 0 case Nine => 0 case Ten => 10
    case Jack => 2 case Queen => 3 case King => 4 case Ace => 11
  }

  /** CARD_RANKINGS.trump.indexOf(r): position in the trump order. */
  function TrumpIndex(r: Rank): (i: nat)
    ensures i < 8 && TrumpOrder[i] == r
  {
    match r
    case Jack => 0 case Nine => 1 case Ace => 2 case Ten => 3
    case King => 4 case Queen => 5 case Eight => 6 case Seven => 7
  }

  /** CARD_RANKINGS.nonTrump.indexOf(r): position in the non-trump order. */
  function NonTrumpIndex(r: Rank): (i: nat)
    ensures i < 8 && NonTrumpOrder[i] == r
  {
    match r
    case Ace => 0 case Ten => 1 case King => 2 case Queen => 3
    case Jack => 4 case Nine => 5 case Eight => 6 case Seven => 7
  }

  /** SEQUENCE_ORDER.indexOf(r): position in the run order 7 .. A. */
  function SequenceIndex(r: Rank): (i: nat)
    ensures i < 8 && RankOrder[i] == r
  {
    match r
    case Seven => 0 case Eight => 1 case Nine => 2 case Ten => 3
    case Jack => 4 case Queen => 5 case King => 6 case Ace => 7
  }

  function SuitIndex(s: Suit): (i: nat)
    ensures i < 4 && Suits[i] == s
  {
    match s
    case Clubs => 0 case Diamonds => 1 case Hearts => 2 case Spades => 3
  }

  /** A card is scored and ranked as a trump when the contract is all-trump
      or names the card's suit. With no contract yet (None) nothing is trump. */
  predicate IsTrump(c: Card, contract: Option<Contract>)
  {
    contract == Some(AllTrump) || contract == Some(SuitContract(c.suit))
  }

  /** Card.getValue */
  function Value(c: Card, contract: Option<Contract>): nat
  {
    if contract == Some(NoTrump) then NonTrumpValue(c.rank)
    else if contract == Some(AllTrump) || contract == Some(SuitContract(c.suit)) then TrumpValue(c.rank)
    else NonTrumpValue(c.rank)
  }

  /** Card.getRanking: lower is stronger. */
  function Ranking(c: Card, contract: Option<Contract>): nat
  {
    if contract == Some(AllTrump) then TrumpIndex(c.rank)
    else if contract == Some(NoTrump) then NonTrumpIndex(c.rank)
    else if contract == Some(SuitContract(c.suit)) then TrumpIndex(c.rank)
    else NonTrumpIndex(c.rank)
  }

  /** Card.isHigherThan: same suit compares by the trump order (all-trump, or
      the card is of trumpSuit) or else the non-trump order; a card of another
      suit wins exactly when it is of trumpSuit. */
  predicate IsHigherThan(a: Card, b: Card, contract: Option<Contract>, trumpSuit: Option<Suit>)
  {
    if a.suit == b.suit then
      if contract == Some(AllTrump) || Some(a.suit) == trumpSuit then TrumpIndex(a.rank) < TrumpIndex(b.rank)
      else NonTrumpIndex(a.rank) < NonTrumpIndex(b.rank)
    else Some(a.suit) == trumpSuit
  }

  // ---------------------------------------------------------------- values

  /** getValue picks the non-trump table under no-trump and the trump table
      exactly for trump cards; getRanking picks its order the same way. */
  lemma ValueAndRankingFollowTrump(c: Card, contract: Option<Contract>)
    ensures contract == Some(NoTrump) ==> Value(c, contract) == NonTrumpValue(c.rank)
    ensures Value(c, contract) == if IsTrump(c, contract) then TrumpValue(c.rank) else NonTrumpValue(c.rank)
    ensures Ranking(c, contract) == if IsTrump(c, contract) then TrumpIndex(c.rank) else NonTrumpIndex(c.rank)
  {
  }

  /** getRanking is an index 0..7 into J,9,A,10,K,Q,8,7 for trump cards and
      into A,10,K,Q,J,9,8,7 for the others. */
  lemma RankingIsPositionInOrder(c: Card, contract: Option<Contract>)
    ensures Ranking(c, contract) < 8
    ensures IsTrump(c, contract) ==> TrumpOrder[Ranking(c, contract)] == c.rank
    ensures !IsTrump(c, contract) ==> NonTrumpOrder[Ranking(c, contract)] == c.rank
  {
  }

  /** Within one suit isHigherThan is a strict order: irreflexive, asymmetric
      and transitive. */
  lemma SameSuitStrictOrder(a: Card, b: Card, c: Card, contract: Option<Contract>, trumpSuit: Option<Suit>)
    requires a.suit == b.suit == c.suit
    ensures !IsHigherThan(a, a, contract, trumpSuit)
    ensures IsHigherThan(a, b, contract, trumpSuit) ==> !IsHigherThan(b, a, contract, trumpSuit)
    ensures IsHigherThan(a, b, contract, trumpSuit) && IsHigherThan(b, c, contract, trumpSuit)
            ==> IsHigherThan(a, c, contract, trumpSuit)
    ensures a.rank != b.rank ==> IsHigherThan(a, b, contract, trumpSuit) || IsHigherThan(b, a, contract, trumpSuit)
  {
    if a.rank != b.rank {
      if contract == Some(AllTrump) || Some(a.suit) == trumpSuit {
        TrumpIndexInjective(a.rank, b.rank);
      } else {
        NonTrumpIndexInjective(a.rank, b.rank);
      }
    }
  }

  /** Across suits a card wins exactly when it is of trumpSuit; with no
      trumpSuit an off-suit card never wins. */
  lemma OffSuitWinsOnlyAsTrump(a: Card, b: Card, contract: Option<Contract>, trumpSuit: Option<Suit>)
    requires a.suit != b.suit
    ensures IsHigherThan(a, b, contract, trumpSuit) <==> trumpSuit == Some(a.suit)
    ensures trumpSuit == None ==> !IsHigherThan(a, b, contract, trumpSuit)
  {
  }

  /** isHigherThan is transitive over any three cards, whatever their suits. */
  lemma HigherIsTransitive(a: Card, b: Card, c: Card, contract: Option<Contract>, trumpSuit: Option<Suit>)
    requires IsHigherThan(a, b, contract, trumpSuit) && IsHigherThan(b, c, contract, trumpSuit)
    ensures IsHigherThan(a, c, contract, trumpSuit)
  {
  }

  lemma TrumpIndexInjective(r: Rank, s: Rank)
    requires r != s
    ensures TrumpIndex(r) != TrumpIndex(s)
  {
  }

  lemma NonTrumpIndexInjective(r: Rank, s: Rank)
    requires r != s
    ensures NonTrumpIndex(r) != NonTrumpIndex(s)
  {
  }

  // ---------------------------------------------------------------- ids

  function SuitName(s: Suit): string
  {
    match s
    case Clubs => "clubs" case Diamonds => "diamonds" case Hearts => "hearts" case Spades => "spades"
  }

  function RankName(r: Rank): string
  {
    match r
    case Seven => "7" case Eight => "8" case Nine => "9" case Ten => "10"
    case Jack => "J" case Queen => "Q" case King => "K" case Ace => "A"
  }

  /** Card.id, written `suit-rank`. */
  function Id(c: Card): string
  {
    SuitName(c.suit) + "-" + RankName(c.rank)
  }

  /** Distinct cards have distinct ids, so finding a card by id in a hand is
      finding it by value. */
  lemma IdInjective(a: Card, b: Card)
    ensures Id(a) == Id(b) <==> a == b
  {
    if Id(a) == Id(b) {
      assert Id(a)[0] == SuitName(a.suit)[0] && Id(b)[0] == SuitName(b.suit)[0];
      assert a.suit == b.suit;
      var n := |SuitName(a.suit)| + 1;
      assert Id(a)[n..] == RankName(a.rank);
      assert Id(b)[n..] == RankName(b.rank);
    }
  }

  // ---------------------------------------------------------------- deck

  /** The eight cards of one suit in the order createDeck pushes them. */
  function SuitBlock(s: Suit): (b: seq<Card>)
    ensures |b| == 8
    ensures forall i :: 0 <= i < 8 ==> b[i] == Card(s, RankOrder[i])
  {
    seq(8, i requires 0 <= i < 8 => Card(s, RankOrder[i]))
  }

  /** The blocks of the first n suits of SUITS, as the outer loop of
      createDeck has pushed them after n iterations. */
  function BlocksUpTo(n: nat): (d: seq<Card>)
    requires n <= 4
    ensures |d| == 8 * n
  {
    if n == 0 then [] else BlocksUpTo(n - 1) + SuitBlock(Suits[n - 1])
  }

  /** The deck before shuffling: SUITS x RANKS in push order. */
  function FullDeck(): (d: seq<Card>)
    ensures |d| == 32
  {
    BlocksUpTo(|Suits|)
  }

  lemma {:induction false} BlocksUpToContents(n: nat, c: Card)
    requires n <= 4
    ensures multiset(BlocksUpTo(n))[c] == if SuitIndex(c.suit) < n then 1 else 0
  {
    if n > 0 {
      BlocksUpToContents(n - 1, c);
      var b := SuitBlock(Suits[n - 1]);
      assert BlocksUpTo(n) == BlocksUpTo(n - 1) + b;
      SuitBlockContents(Suits[n - 1], c);
    }
  }

  lemma SuitBlockContents(s: Suit, c: Card)
    ensures multiset(SuitBlock(s))[c] == if c.suit == s then 1 else 0
  {
    var b := SuitBlock(s);
    assert forall i, j :: 0 <= i < j < |b| ==> b[i] != b[j] by {
      forall i, j | 0 <= i < j < |b| ensures b[i] != b[j] {
        assert SequenceIndex(b[i].rank) == i && SequenceIndex(b[j].rank) == j;
      }
    }
    CountInDistinct(b, c);
    if c.suit == s {
      assert b[SequenceIndex(c.rank)] == c;
    }
  }

  /** In a list without repetitions every card occurs at most once. */
  lemma {:induction false} CountInDistinct(xs: seq<Card>, x: Card)
    requires forall i, j :: 0 <= i < j < |xs| ==> xs[i] != xs[j]
    ensures multiset(xs)[x] == if x in xs then 1 else 0
  {
    if xs != [] {
      assert xs == [xs[0]] + xs[1..];
      CountInDistinct(xs[1..], x);
      if x == xs[0] {
        assert x !in xs[1..];
      }
    }
  }

  /** The unshuffled deck holds every (suit, rank) pair exactly once. */
  lemma FullDeckHasEachCardOnce(c: Card)
    ensures multiset(FullDeck())[c] == 1
  {
    BlocksUpToContents(4, c);
  }

  /** createDeck: build SUITS x RANKS with nested loops, then shuffle.
      The shuffle's random picks come from `rand`. */
  method CreateDeck(rand: nat -> nat) returns (deck: seq<Card>)
    ensures |deck| == 32
    ensures multiset(deck) == multiset(FullDeck())
    ensures forall c: Card :: multiset(deck)[c] == 1
  {
    var ordered: seq<Card> := [];
    for si := 0 to 4
      invariant ordered == BlocksUpTo(si)
    {
      var suit := Suits[si];
      for ri := 0 to 8
        invariant ordered == BlocksUpTo(si) + SuitBlock(suit)[..ri]
      {
        ordered := ordered + [Card(suit, RankOrder[ri])];
      }
      assert SuitBlock(suit)[..8] == SuitBlock(suit);
    }
    deck := ShuffleDeck(ordered, rand);
    forall c: Card ensures multiset(deck)[c] == 1 {
      FullDeckHasEachCardOnce(c);
    }
  }

  /** shuffleDeck: copy the deck into a fresh array, then for i from the top
      down to 1 swap cell i with a cell j in 0..i. Math.random's pick is
      `rand(i) % (i + 1)`. The input is a value, so it is left unchanged. */
  method ShuffleDeck(deck: seq<Card>, rand: nat -> nat) returns (shuffled: seq<Card>)
    ensures |shuffled| == |deck|
    ensures multiset(shuffled) == multiset(deck)
  {
    var a := new Card[|deck|](k requires 0 <= k < |deck| => deck[k]);
    assert a[..] == deck;
    var i := a.Length - 1;
    while i > 0
      invariant -1 <= i < a.Length
      invariant multiset(a[..]) == multiset(deck)
    {
      var j := rand(i) % (i + 1);
      a[i], a[j] := a[j], a[i];
      i := i - 1;
    }
    shuffled := a[..];
  }

  // ---------------------------------------------------------------- totals

  /** Sum of getValue over a list of cards. */
  function SumValues(cards: seq<Card>, contract: Option<Contract>): nat
  {
    if cards == [] then 0 else Value(cards[0], contract) + SumValues(cards[1..], contract)
  }

  lemma {:induction false} SumValuesAppend(a: seq<Card>, b: seq<Card>, contract: Option<Contract>)
    ensures SumValues(a + b, contract) == SumValues(a, contract) + SumValues(b, contract)
  {
    if a != [] {
      assert (a + b)[0] == a[0];
      assert (a + b)[1..] == a[1..] + b;
      SumValuesAppend(a[1..], b, contract);
    } else {
      assert a + b == b;
    }
  }

  /** A suit block sums to 62 when its cards are trumps and to 30 otherwise. */
  lemma SuitBlockTotal(s: Suit, contract: Option<Contract>)
    ensures SumValues(SuitBlock(s), contract) == if IsTrump(Card(s, Seven), contract) then 62 else 30
  {
    var b := SuitBlock(s);
    SumOfEight(b, contract);
    var t := IsTrump(Card(s, Seven), contract);
    forall i | 0 <= i < 8
      ensures Value(b[i], contract) == if t then TrumpValue(RankOrder[i]) else NonTrumpValue(RankOrder[i])
    {
      ValueAndRankingFollowTrump(b[i], contract);
    }
  }

  lemma SumOfEight(b: seq<Card>, contract: Option<Contract>)
    requires |b| == 8
    ensures SumValues(b, contract)
         == Value(b[0], contract) + Value(b[1], contract) + Value(b[2], contract) + Value(b[3], contract)
          + Value(b[4], contract) + Value(b[5], contract) + Value(b[6], contract) + Value(b[7], contract)
  {
    var k := contract;
    assert SumValues(b[7..], k) == Value(b[7], k) + SumValues(b[8..], k);
    assert SumValues(b[6..], k) == Value(b[6], k) + SumValues(b[7..], k);
    assert SumValues(b[5..], k) == Value(b[5], k) + SumValues(b[6..], k);
    assert SumValues(b[4..], k) == Value(b[4], k) + SumValues(b[5..], k);
    assert SumValues(b[3..], k) == Value(b[3], k) + SumValues(b[4..], k);
    assert SumValues(b[2..], k) == Value(b[2], k) + SumValues(b[3..], k);
    assert SumValues(b[1..], k) == Value(b[1], k) + SumValues(b[2..], k);
    assert SumValues(b, k) == Value(b[0], k) + SumValues(b[1..], k);
  }

  /** The deck's card points total 152 in a suit contract, 248 in all-trump
      and 120 in no-trump (162 and 258 once the last trick's 10 is added). */
  lemma DeckTotals(contract: Contract)
    ensures contract.SuitContract? ==> SumValues(FullDeck(), Some(contract)) == 152
    ensures contract == AllTrump ==> SumValues(FullDeck(), Some(contract)) == 248
    ensures contract == NoTrump ==> SumValues(FullDeck(), Some(contract)) == 120
  {
    var k := Some(contract);
    var c, d, h, sp := SumValues(SuitBlock(Clubs), k), SumValues(SuitBlock(Diamonds), k),
                       SumValues(SuitBlock(Hearts), k), SumValues(SuitBlock(Spades), k);
    assert SumValues(FullDeck(), k) == c + d + h + sp by {
      SumValuesAppend(BlocksUpTo(3), SuitBlock(Spades), k);
      SumValuesAppend(BlocksUpTo(2), SuitBlock(Hearts), k);
      SumValuesAppend(BlocksUpTo(1), SuitBlock(Diamonds), k);
      SumValuesAppend(BlocksUpTo(0), SuitBlock(Clubs), k);
      assert BlocksUpTo(1) == BlocksUpTo(0) + SuitBlock(Clubs);
    }
    SuitBlockTotal(Clubs, k);
    SuitBlockTotal(Diamonds, k);
    SuitBlockTotal(Hearts, k);
    SuitBlockTotal(Spades, k);
    if contract.SuitContract? {
      match contract.trump
      case Clubs => case Diamonds => case Hearts => case Spades =>
    }
  }
}
