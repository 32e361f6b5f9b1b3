/** Premium combinations (src/game/combinations.js): same-suit runs of
    3 to 5 cards, four cards of one rank, and the trump queen and king. */
module Combinations {
  import opened Cards

  datatype Kind = Tierce | Quarte | Quint | Equal | Belot

  /** One announced record: its type, the cards that make it up and its
      points. */
  datatype Combo = Combo(kind: Kind, cards: seq<Card>, points: nat)

  // ---------------------------------------------------------------- sorting a suit

  /** cards.filter(c => c.suit === s), in hand order. */
  function OfSuit(cards: seq<Card>, s: Suit): seq<Card>
  {
    if cards == [] then []
    else (if cards[0].suit == s then [cards[0]] else []) + OfSuit(cards[1..], s)
  }

  function Repeat(c: Card, n: nat): seq<Card>
  {
    if n == 0 then [] else [c] + Repeat(c, n - 1)
  }

  /** The cards of suit s with a rank in ranks, in the order of ranks:
      each rank repeated as often as the hand holds it. */
  function SortedOver(cards: seq<Card>, s: Suit, ranks: seq<Rank>): seq<Card>
  {
    if ranks == [] then []
    else
      var d := Card(s, ranks[0]);
      Repeat(d, multiset(cards)[d]) + SortedOver(cards, s, ranks[1..])
  }

  /** The cards of suit s whose run position is at least k, ascending. */
  function SortedFrom(cards: seq<Card>, s: Suit, k: nat): seq<Card>
    requires k <= 8
  {
    SortedOver(cards, s, RankOrder[k..])
  }

  /** The suit's cards sorted by SEQUENCE_ORDER index, as findSequences
      sorts them. Cards of the same rank within a suit are equal values, so
      the order of ties does not matter (see SortedSuitIsTheSort). */
  function SortedSuit(cards: seq<Card>, s: Suit): seq<Card>
  {
    SortedOver(cards, s, RankOrder)
  }

  /** Non-decreasing by SEQUENCE_ORDER index: the comparator of the sort. */
  predicate SortedByRun(xs: seq<Card>)
  {
    forall i, j :: 0 <= i < j < |xs| ==> SequenceIndex(xs[i].rank) <= SequenceIndex(xs[j].rank)
  }

  predicate AllOfSuit(xs: seq<Card>, s: Suit)
  {
    forall i :: 0 <= i < |xs| ==> xs[i].suit == s
  }

  lemma {:induction false} OfSuitCount(cards: seq<Card>, s: Suit, c: Card)
    ensures multiset(OfSuit(cards, s))[c] == if c.suit == s then multiset(cards)[c] else 0
  {
    if cards != [] {
      assert cards == [cards[0]] + cards[1..];
      OfSuitCount(cards[1..], s, c);
    }
  }

  lemma {:induction false} RepeatCount(d: Card, n: nat, c: Card)
    ensures multiset(Repeat(d, n))[c] == if c == d then n else 0
  {
    if n > 0 {
      RepeatCount(d, n - 1, c);
    }
  }

  lemma {:induction false} RepeatElements(d: Card, n: nat)
    ensures |Repeat(d, n)| == n
    ensures forall i :: 0 <= i < n ==> Repeat(d, n)[i] == d
  {
    if n > 0 {
      RepeatElements(d, n - 1);
    }
  }

  lemma {:induction false} SortedFromCount(cards: seq<Card>, s: Suit, k: nat, c: Card)
    requires k <= 8
    ensures multiset(SortedFrom(cards, s, k))[c]
         == if c.suit == s && SequenceIndex(c.rank) >= k then multiset(cards)[c] else 0
    decreases 8 - k
  {
    if k < 8 {
      var d := Card(s, RankOrder[k]);
      var n := multiset(cards)[d];
      RankOrderSuffix(k);
      SortedFromCount(cards, s, k + 1, c);
      RepeatCount(d, n, c);
      SequenceIndexOfOrder(k);
      assert SortedFrom(cards, s, k) == Repeat(d, n) + SortedFrom(cards, s, k + 1);
      assert multiset(SortedFrom(cards, s, k)) == multiset(Repeat(d, n)) + multiset(SortedFrom(cards, s, k + 1));
      if c.suit == s && SequenceIndex(c.rank) == k {
        assert c == d;
      }
    }
  }

  lemma RankOrderSuffix(k: nat)
    requires k < 8
    ensures RankOrder[k..] == [RankOrder[k]] + RankOrder[k + 1..]
  {
  }

  lemma SequenceIndexOfOrder(k: nat)
    requires k < 8
    ensures SequenceIndex(RankOrder[k]) == k
  {
    if k == 0 {} else if k == 1 {} else if k == 2 {} else if k == 3 {}
    else if k == 4 {} else if k == 5 {} else if k == 6 {} else {}
  }

  lemma {:induction false} SortedFromShape(cards: seq<Card>, s: Suit, k: nat)
    requires k <= 8
    ensures AllOfSuit(SortedFrom(cards, s, k), s)
    ensures forall i :: 0 <= i < |SortedFrom(cards, s, k)| ==> SequenceIndex(SortedFrom(cards, s, k)[i].rank) >= k
    ensures SortedByRun(SortedFrom(cards, s, k))
    decreases 8 - k
  {
    if k < 8 {
      var d := Card(s, RankOrder[k]);
      var n := multiset(cards)[d];
      SequenceIndexOfOrder(k);
      RankOrderSuffix(k);
      SortedFromShape(cards, s, k + 1);
      RepeatElements(d, n);
      var xs := SortedFrom(cards, s, k);
      var tail := SortedFrom(cards, s, k + 1);
      assert xs == Repeat(d, n) + tail;
      assert forall i :: 0 <= i < n ==> xs[i] == d;
      assert forall i :: n <= i < |xs| ==> xs[i] == tail[i - n];
    }
  }

  /** The sorted suit is a sorted permutation of the suit's cards. */
  lemma SortedSuitIsSortedPermutation(cards: seq<Card>, s: Suit)
    ensures multiset(SortedSuit(cards, s)) == multiset(OfSuit(cards, s))
    ensures SortedByRun(SortedSuit(cards, s))
    ensures AllOfSuit(SortedSuit(cards, s), s)
    ensures |SortedSuit(cards, s)| == |OfSuit(cards, s)|
  {
    assert RankOrder[0..] == RankOrder;
    assert SortedSuit(cards, s) == SortedFrom(cards, s, 0);
    SortedFromShape(cards, s, 0);
    forall c: Card ensures multiset(SortedSuit(cards, s))[c] == multiset(OfSuit(cards, s))[c] {
      SortedFromCount(cards, s, 0, c);
      OfSuitCount(cards, s, c);
    }
    assert multiset(SortedSuit(cards, s)) == multiset(OfSuit(cards, s));
    assert |multiset(SortedSuit(cards, s))| == |SortedSuit(cards, s)|;
  }

  /** Two sorted lists of one suit holding the same cards are equal. */
  lemma {:induction false} SortedUnique(a: seq<Card>, b: seq<Card>, s: Suit)
    requires SortedByRun(a) && SortedByRun(b) && AllOfSuit(a, s) && AllOfSuit(b, s)
    requires multiset(a) == multiset(b)
    ensures a == b
  {
    assert |a| == |multiset(a)| == |multiset(b)| == |b|;
    if a != [] {
      assert a[0] in multiset(b);
      assert b[0] in multiset(a);
      SortedSameHead(a, b, s);
      SameTails(a, b);
      SortedTail(a, s);
      SortedTail(b, s);
      SortedUnique(a[1..], b[1..], s);
      assert a == [a[0]] + a[1..];
      assert b == [b[0]] + b[1..];
    }
  }

  lemma SameTails(a: seq<Card>, b: seq<Card>)
    requires a != [] && b != [] && a[0] == b[0] && multiset(a) == multiset(b)
    ensures multiset(a[1..]) == multiset(b[1..])
  {
    assert a == [a[0]] + a[1..];
    assert b == [b[0]] + b[1..];
    assert multiset(a) == multiset{a[0]} + multiset(a[1..]);
    assert multiset(b) == multiset{a[0]} + multiset(b[1..]);
    assert multiset(a[1..]) == multiset(a) - multiset{a[0]};
    assert multiset(b[1..]) == multiset(b) - multiset{a[0]};
  }

  lemma SortedTail(a: seq<Card>, s: Suit)
    requires a != [] && SortedByRun(a) && AllOfSuit(a, s)
    ensures SortedByRun(a[1..]) && AllOfSuit(a[1..], s)
  {
    assert forall k :: 0 <= k < |a| - 1 ==> a[1..][k] == a[k + 1];
  }

  lemma SortedSameHead(a: seq<Card>, b: seq<Card>, s: Suit)
    requires SortedByRun(a) && SortedByRun(b) && AllOfSuit(a, s) && AllOfSuit(b, s)
    requires a != [] && b != [] && a[0] in b && b[0] in a
    ensures a[0] == b[0]
  {
    var j :| 0 <= j < |b| && b[j] == a[0];
    var i :| 0 <= i < |a| && a[i] == b[0];
    assert SequenceIndex(a[0].rank) <= SequenceIndex(a[i].rank);
    assert SequenceIndex(b[0].rank) <= SequenceIndex(b[j].rank);
    assert a[0].rank == RankOrder[SequenceIndex(a[0].rank)] == b[0].rank;
  }

  /** Whatever order a sort leaves ties in, sorting the suit's cards by
      SEQUENCE_ORDER index yields exactly SortedSuit. */
  lemma SortedSuitIsTheSort(cards: seq<Card>, s: Suit, xs: seq<Card>)
    requires multiset(xs) == multiset(OfSuit(cards, s))
    requires SortedByRun(xs)
    ensures xs == SortedSuit(cards, s)
  {
    SortedSuitIsSortedPermutation(cards, s);
    forall i | 0 <= i < |xs| ensures xs[i].suit == s {
      assert xs[i] in multiset(OfSuit(cards, s));
      OfSuitCount(cards, s, xs[i]);
    }
    SortedUnique(xs, SortedSuit(cards, s), s);
  }

  // ---------------------------------------------------------------- sequences

  /** isConsecutive: each card's run position is one more than the previous
      card's. */
  predicate Consecutive(cs: seq<Card>)
  {
    forall i :: 0 <= i < |cs| ==> SequenceIndex(cs[i].rank) == SequenceIndex(cs[0].rank) + i
  }

  function KindOfLength(len: nat): Kind
  {
    if len == 3 then Tierce else if len == 4 then Quarte else Quint
  }

  function PointsOfLength(len: nat): nat
  {
    if len == 3 then 20 else if len == 4 then 50 else 100
  }

  /** The inner `for (len = 5; len >= 3; len--)` loop at start i, from
      length len down: the first consecutive slice that fits. */
  function TryLength(sc: seq<Card>, i: nat, len: nat): Option<Combo>
    requires 3 <= len <= 5
    decreases len
  {
    if i + len <= |sc| && Consecutive(sc[i..i + len]) then
      Some(Combo(KindOfLength(len), sc[i..i + len], PointsOfLength(len)))
    else if len == 3 then None
    else TryLength(sc, i, len - 1)
  }

  function OptionalRecord(o: Option<Combo>): seq<Combo>
  {
    match o case Some(c) => [c] case None => []
  }

  /** The records found at start indices 0 .. n-1 of a sorted suit. */
  function RunsBefore(sc: seq<Card>, n: nat): seq<Combo>
  {
    if n == 0 then [] else RunsBefore(sc, n - 1) + OptionalRecord(TryLength(sc, n - 1, 5))
  }

  function SuitSequences(cards: seq<Card>, s: Suit): seq<Combo>
  {
    var sc := SortedSuit(cards, s);
    if |sc| >= 3 then RunsBefore(sc, |sc| - 2) else []
  }

  /** The records of the first n suits of SUITS. */
  function SequencesUpTo(cards: seq<Card>, n: nat): seq<Combo>
    requires n <= 4
  {
    if n == 0 then [] else SequencesUpTo(cards, n - 1) + SuitSequences(cards, Suits[n - 1])
  }

  /** findSequences: clubs, diamonds, hearts, spades, in that order. */
  function Sequences(cards: seq<Card>): seq<Combo>
  {
    SequencesUpTo(cards, |Suits|)
  }

  /** isConsecutive, as its loop is written. */
  method IsConsecutive(cards: seq<Card>) returns (b: bool)
    ensures b <==> Consecutive(cards)
  {
    var i := 1;
    while i < |cards|
      invariant 1 <= i
      invariant forall k :: 0 <= k < i && k < |cards| ==> SequenceIndex(cards[k].rank) == SequenceIndex(cards[0].rank) + k
    {
      var prevIndex: int := SequenceIndex(cards[i - 1].rank);
      var currIndex: int := SequenceIndex(cards[i].rank);
      if currIndex - prevIndex != 1 {
        return false;
      }
      i := i + 1;
    }
    return true;
  }

  /** findSequences, with its nested loops and `break`. The suit's cards are
      filtered and sorted by the library sort, which yields SortedSuit. */
  method FindSequences(cards: seq<Card>) returns (sequences: seq<Combo>)
    ensures sequences == Sequences(cards)
  {
    sequences := [];
    for si := 0 to |Suits|
      invariant sequences == SequencesUpTo(cards, si)
    {
      var suit := Suits[si];
      sequences := PushSuitRuns(sequences, cards, suit);
    }
  }

  /** The body of findSequences for one suit: filter and sort the suit's
      cards, then loop over the start indices, pushing the longest run
      found at each onto sequences. */
  method PushSuitRuns(sequences0: seq<Combo>, cards: seq<Card>, suit: Suit) returns (sequences: seq<Combo>)
    ensures sequences == sequences0 + SuitSequences(cards, suit)
  {
    var suitCards := SortedSuit(cards, suit);
    sequences := sequences0;
    if |suitCards| >= 3 {
      var i := 0;
      while i <= |suitCards| - 3
        invariant 0 <= i <= |suitCards| - 2
        invariant sequences == sequences0 + RunsBefore(suitCards, i)
      {
        var run := LongestRunAt(suitCards, i);
        if run.Some? {
          sequences := sequences + [run.value];
        }
        i := i + 1;
      }
    } else {
      assert sequences == sequences0 + [];
    }
  }

  /** The inner loop of findSequences at start index i: try lengths 5, 4
      and 3 and stop at the first consecutive slice. */
  method LongestRunAt(suitCards: seq<Card>, i: nat) returns (run: Option<Combo>)
    ensures run == TryLength(suitCards, i, 5)
  {
    var len := 5;
    while len >= 3
      invariant 2 <= len <= 5
      invariant len >= 3 ==> TryLength(suitCards, i, 5) == TryLength(suitCards, i, len)
      invariant len == 2 ==> TryLength(suitCards, i, 5) == None
    {
      if i + len <= |suitCards| {
        var sequence := suitCards[i..i + len];
        var consecutive := IsConsecutive(sequence);
        if consecutive {
          return Some(Combo(
            if len == 3 then Tierce else if len == 4 then Quarte else Quint,
            sequence,
            if len == 3 then 20 else if len == 4 then 50 else 100));
        }
      }
      len := len - 1;
    }
    return None;
  }

  /** No consecutive slice of length l starts at i. */
  predicate NoRunAt(sc: seq<Card>, i: nat, l: nat)
  {
    i + l <= |sc| ==> !Consecutive(sc[i..i + l])
  }

  /** c is the run of length n at i, and no longer run of at most len cards
      starts there. */
  predicate LongestRunFrom(sc: seq<Card>, i: nat, n: nat, len: nat, c: Combo)
  {
    3 <= n <= len && i + n <= |sc| && IsRunAt(sc, i, n, c)
    && forall l :: n < l <= len ==> NoRunAt(sc, i, l)
  }

  /** The record a start index yields is the longest consecutive slice of
      length at most 5 (and at least 3) starting there; None when no such
      slice exists. */
  lemma {:induction false} TryLengthIsLongest(sc: seq<Card>, i: nat, len: nat)
    requires 3 <= len <= 5
    ensures match TryLength(sc, i, len)
      case Some(c) =>
        exists n: nat :: LongestRunFrom(sc, i, n, len, c)
      case None => forall l :: 3 <= l <= len ==> NoRunAt(sc, i, l)
    decreases len
  {
    if i + len <= |sc| && Consecutive(sc[i..i + len]) {
      var c := Combo(KindOfLength(len), sc[i..i + len], PointsOfLength(len));
      assert TryLength(sc, i, len) == Some(c);
      assert IsRunAt(sc, i, len, c);
      assert LongestRunFrom(sc, i, len, len, c);
    } else if len > 3 {
      assert NoRunAt(sc, i, len);
      TryLengthIsLongest(sc, i, len - 1);
      assert TryLength(sc, i, len) == TryLength(sc, i, len - 1);
      match TryLength(sc, i, len - 1)
      case Some(c) =>
        var n: nat :| LongestRunFrom(sc, i, n, len - 1, c);
        assert forall l :: n < l <= len ==> NoRunAt(sc, i, l);
        assert LongestRunFrom(sc, i, n, len, c);
      case None =>
    } else {
      assert NoRunAt(sc, i, len);
    }
  }

  /** c is the record for the consecutive slice of length n at i. */
  predicate IsRunAt(sc: seq<Card>, i: nat, n: nat, c: Combo)
    requires i + n <= |sc|
  {
    Consecutive(sc[i..i + n]) && c == Combo(KindOfLength(n), sc[i..i + n], PointsOfLength(n))
  }

  /** A well-formed run record: 3 to 5 cards of one suit, consecutive in
      SEQUENCE_ORDER, typed and scored by its length. */
  predicate WellFormedRun(c: Combo)
  {
    && 3 <= |c.cards| <= 5
    && Consecutive(c.cards)
    && (forall k :: 0 <= k < |c.cards| ==> c.cards[k].suit == c.cards[0].suit)
    && (|c.cards| == 3 ==> c.kind == Tierce && c.points == 20)
    && (|c.cards| == 4 ==> c.kind == Quarte && c.points == 50)
    && (|c.cards| == 5 ==> c.kind == Quint && c.points == 100)
  }

  /** Every card of xs is one of the hand's cards. */
  predicate FromHand(xs: seq<Card>, cards: seq<Card>)
  {
    forall k :: 0 <= k < |xs| ==> xs[k] in cards
  }

  lemma SortedSuitMembers(cards: seq<Card>, s: Suit)
    ensures FromHand(SortedSuit(cards, s), cards)
  {
    SortedSuitIsSortedPermutation(cards, s);
    var sc := SortedSuit(cards, s);
    forall k | 0 <= k < |sc| ensures sc[k] in cards {
      assert sc[k] in multiset(OfSuit(cards, s));
      OfSuitCount(cards, s, sc[k]);
    }
  }

  lemma {:induction false} RunsBeforeWellFormed(sc: seq<Card>, n: nat, s: Suit)
    requires AllOfSuit(sc, s)
    requires n + 2 <= |sc|
    ensures forall c :: c in RunsBefore(sc, n) ==> WellFormedRun(c) && c.cards[0].suit == s && FromHand(c.cards, sc)
  {
    if n > 0 {
      var i := n - 1;
      RunsBeforeWellFormed(sc, i, s);
      var o := TryLength(sc, i, 5);
      assert RunsBefore(sc, n) == RunsBefore(sc, i) + OptionalRecord(o);
      if o.Some? {
        TryLengthWellFormed(sc, i, s);
      }
    }
  }

  /** The record found at one start index is a well-formed run of the
      suit's cards. */
  lemma TryLengthWellFormed(sc: seq<Card>, i: nat, s: Suit)
    requires AllOfSuit(sc, s) && TryLength(sc, i, 5).Some?
    ensures var c := TryLength(sc, i, 5).value;
            WellFormedRun(c) && c.cards[0].suit == s && FromHand(c.cards, sc)
  {
    TryLengthIsLongest(sc, i, 5);
    var c := TryLength(sc, i, 5).value;
    var len: nat :| LongestRunFrom(sc, i, len, 5, c);
    assert forall k :: 0 <= k < len ==> c.cards[k] == sc[i + k];
  }

  /** Every record of findSequences is a well-formed run made of the hand's
      own cards. */
  lemma SequencesWellFormed(cards: seq<Card>)
    ensures forall c :: c in Sequences(cards) ==> WellFormedRun(c) && FromHand(c.cards, cards)
  {
    forall n | 0 <= n <= 4
      ensures forall c :: c in SequencesUpTo(cards, n) ==> WellFormedRun(c) && FromHand(c.cards, cards)
    {
      SequencesUpToWellFormed(cards, n);
    }
  }

  lemma {:induction false} SequencesUpToWellFormed(cards: seq<Card>, n: nat)
    requires n <= 4
    ensures forall c :: c in SequencesUpTo(cards, n) ==> WellFormedRun(c) && FromHand(c.cards, cards)
  {
    if n > 0 {
      SequencesUpToWellFormed(cards, n - 1);
      var s := Suits[n - 1];
      SortedSuitIsSortedPermutation(cards, s);
      SortedSuitMembers(cards, s);
      if |SortedSuit(cards, s)| >= 3 {
        RunsBeforeWellFormed(SortedSuit(cards, s), |SortedSuit(cards, s)| - 2, s);
      }
    }
  }

  /** A suit the hand holds fewer than 3 cards of yields no record. */
  lemma FewerThanThreeNoRun(cards: seq<Card>, s: Suit)
    requires |OfSuit(cards, s)| < 3
    ensures SuitSequences(cards, s) == []
  {
    SortedSuitIsSortedPermutation(cards, s);
  }

  lemma {:induction false} OfSuitWhenAll(xs: seq<Card>, s: Suit)
    requires AllOfSuit(xs, s)
    ensures OfSuit(xs, s) == xs
  {
    if xs != [] {
      OfSuitWhenAll(xs[1..], s);
    }
  }

  lemma {:induction false} OfSuitWhenNone(xs: seq<Card>, s: Suit)
    requires forall i :: 0 <= i < |xs| ==> xs[i].suit != s
    ensures OfSuit(xs, s) == []
  {
    if xs != [] {
      OfSuitWhenNone(xs[1..], s);
    }
  }

  /** A hand of one suit has only that suit's runs. */
  lemma SequencesOfOneSuit(cards: seq<Card>, s: Suit)
    requires AllOfSuit(cards, s)
    ensures Sequences(cards) == SuitSequences(cards, s)
  {
    var c, d, h, sp := SuitSequences(cards, Clubs), SuitSequences(cards, Diamonds),
                       SuitSequences(cards, Hearts), SuitSequences(cards, Spades);
    SequencesBySuit(cards);
    if s != Clubs { OtherSuitHasNoRun(cards, s, Clubs); }
    if s != Diamonds { OtherSuitHasNoRun(cards, s, Diamonds); }
    if s != Hearts { OtherSuitHasNoRun(cards, s, Hearts); }
    if s != Spades { OtherSuitHasNoRun(cards, s, Spades); }
  }

  /** findSequences concatenates the four suits' records. */
  lemma SequencesBySuit(cards: seq<Card>)
    ensures Sequences(cards) == SuitSequences(cards, Clubs) + SuitSequences(cards, Diamonds)
                              + SuitSequences(cards, Hearts) + SuitSequences(cards, Spades)
  {
    assert SequencesUpTo(cards, 0) == [];
    assert SequencesUpTo(cards, 1) == SuitSequences(cards, Clubs);
    assert SequencesUpTo(cards, 2) == SequencesUpTo(cards, 1) + SuitSequences(cards, Diamonds);
    assert SequencesUpTo(cards, 3) == SequencesUpTo(cards, 2) + SuitSequences(cards, Hearts);
  }

  lemma OtherSuitHasNoRun(cards: seq<Card>, s: Suit, t: Suit)
    requires AllOfSuit(cards, s) && t != s
    ensures SuitSequences(cards, t) == []
  {
    OfSuitWhenNone(cards, t);
    FewerThanThreeNoRun(cards, t);
  }

  /** A one-suit hand sorts to any ordering of it by run position. */
  lemma SortedOneSuit(hand: seq<Card>, s: Suit, sc: seq<Card>)
    requires AllOfSuit(hand, s) && multiset(sc) == multiset(hand) && SortedByRun(sc)
    ensures SortedSuit(hand, s) == sc
  {
    OfSuitWhenAll(hand, s);
    SortedSuitIsTheSort(hand, s, sc);
  }

  /** For a hand of one suit already in run order, findSequences returns
      the runs of the hand itself. */
  lemma SequencesOfSortedSuit(hand: seq<Card>, s: Suit)
    requires AllOfSuit(hand, s) && SortedByRun(hand)
    ensures Sequences(hand) == SuitSequences(hand, s)
    ensures SortedSuit(hand, s) == hand
  {
    SequencesOfOneSuit(hand, s);
    SortedOneSuit(hand, s, hand);
  }

  /** J-Q-K-A of hearts is reported twice: a quarte from the jack and a
      tierce from the queen, since later start positions of a longer run
      are not skipped. */
  lemma JackToAceGivesQuarteAndTierce(hand: seq<Card>)
    requires hand == [Card(Hearts, Jack), Card(Hearts, Queen), Card(Hearts, King), Card(Hearts, Ace)]
    ensures Sequences(hand) == [Combo(Quarte, hand, 50), Combo(Tierce, hand[1..], 20)]
  {
    SequencesOfSortedSuit(hand, Hearts);
    JackToAceRuns(hand);
  }

  lemma JackToAceRuns(sc: seq<Card>)
    requires sc == [Card(Hearts, Jack), Card(Hearts, Queen), Card(Hearts, King), Card(Hearts, Ace)]
    ensures RunsBefore(sc, 2) == [Combo(Quarte, sc, 50), Combo(Tierce, sc[1..], 20)]
  {
    assert TryLength(sc, 0, 5) == Some(Combo(Quarte, sc, 50)) by {
      assert sc[0..4] == sc;
      assert Consecutive(sc[0..4]);
    }
    assert TryLength(sc, 1, 5) == Some(Combo(Tierce, sc[1..], 20)) by {
      assert sc[1..4] == sc[1..];
      assert Consecutive(sc[1..4]);
    }
    assert RunsBefore(sc, 1) == [Combo(Quarte, sc, 50)];
  }

  /** A run with a missing rank is not reported: A-K-J-10 of hearts yields
      nothing. */
  lemma GapGivesNoSequence(hand: seq<Card>)
    requires hand == [Card(Hearts, Ace), Card(Hearts, King), Card(Hearts, Jack), Card(Hearts, Ten)]
    ensures Sequences(hand) == []
  {
    var sc := [Card(Hearts, Ten), Card(Hearts, Jack), Card(Hearts, King), Card(Hearts, Ace)];
    SameCardsReordered(hand, sc);
    GapHandSorts(hand, sc);
    GapRuns(sc);
  }

  lemma SameCardsReordered(hand: seq<Card>, sc: seq<Card>)
    requires hand == [Card(Hearts, Ace), Card(Hearts, King), Card(Hearts, Jack), Card(Hearts, Ten)]
    requires sc == [Card(Hearts, Ten), Card(Hearts, Jack), Card(Hearts, King), Card(Hearts, Ace)]
    ensures multiset(sc) == multiset(hand) && AllOfSuit(hand, Hearts) && SortedByRun(sc)
  {
    GapSameCards(hand, sc);
    GapSorted(sc);
  }

  lemma GapSameCards(hand: seq<Card>, sc: seq<Card>)
    requires hand == [Card(Hearts, Ace), Card(Hearts, King), Card(Hearts, Jack), Card(Hearts, Ten)]
    requires sc == [Card(Hearts, Ten), Card(Hearts, Jack), Card(Hearts, King), Card(Hearts, Ace)]
    ensures multiset(sc) == multiset(hand)
  {
    assert Reversed(hand[3..]) == [hand[3]];
    assert Reversed(hand[2..]) == [hand[3], hand[2]];
    assert Reversed(hand[1..]) == [hand[3], hand[2], hand[1]];
    assert sc == Reversed(hand);
    ReversedSameCards(hand);
  }

  lemma GapSorted(sc: seq<Card>)
    requires sc == [Card(Hearts, Ten), Card(Hearts, Jack), Card(Hearts, King), Card(Hearts, Ace)]
    ensures SortedByRun(sc)
  {
    var ix := [SequenceIndex(sc[0].rank), SequenceIndex(sc[1].rank), SequenceIndex(sc[2].rank), SequenceIndex(sc[3].rank)];
    assert ix == [3, 4, 6, 7];
    forall k | 0 <= k < |sc| - 1 ensures SequenceIndex(sc[k].rank) <= SequenceIndex(sc[k + 1].rank) {
      assert SequenceIndex(sc[k].rank) == ix[k] && SequenceIndex(sc[k + 1].rank) == ix[k + 1];
    }
    ChainSorted(sc);
  }

  /** Neighbours in order make the whole list sorted. */
  lemma {:induction false} ChainSorted(xs: seq<Card>)
    requires forall k :: 0 <= k < |xs| - 1 ==> SequenceIndex(xs[k].rank) <= SequenceIndex(xs[k + 1].rank)
    ensures SortedByRun(xs)
  {
    if |xs| >= 2 {
      var tl := xs[1..];
      assert forall k :: 0 <= k < |tl| ==> tl[k] == xs[k + 1];
      ChainSorted(tl);
      forall i, j | 0 <= i < j < |xs| ensures SequenceIndex(xs[i].rank) <= SequenceIndex(xs[j].rank) {
        if i == 0 {
          if j > 1 {
            assert SequenceIndex(tl[0].rank) <= SequenceIndex(tl[j - 1].rank);
          }
        } else {
          assert SequenceIndex(tl[i - 1].rank) <= SequenceIndex(tl[j - 1].rank);
        }
      }
    }
  }

  function Reversed(xs: seq<Card>): seq<Card>
  {
    if xs == [] then [] else Reversed(xs[1..]) + [xs[0]]
  }

  lemma {:induction false} ReversedSameCards(xs: seq<Card>)
    ensures multiset(Reversed(xs)) == multiset(xs)
  {
    if xs != [] {
      ReversedSameCards(xs[1..]);
      assert xs == [xs[0]] + xs[1..];
    }
  }

  lemma GapHandSorts(hand: seq<Card>, sc: seq<Card>)
    requires AllOfSuit(hand, Hearts) && multiset(sc) == multiset(hand) && SortedByRun(sc) && |sc| == 4
    ensures Sequences(hand) == RunsBefore(sc, 2)
  {
    SequencesOfOneSuit(hand, Hearts);
    SortedOneSuit(hand, Hearts, sc);
  }

  lemma GapRuns(sc: seq<Card>)
    requires sc == [Card(Hearts, Ten), Card(Hearts, Jack), Card(Hearts, King), Card(Hearts, Ace)]
    ensures RunsBefore(sc, 2) == []
  {
    assert TryLength(sc, 0, 5) == None by {
      assert sc[0..3][2] == sc[0..4][2] == Card(Hearts, King);
    }
    assert TryLength(sc, 1, 5) == None by {
      assert sc[1..4][1] == Card(Hearts, King);
    }
    assert RunsBefore(sc, 1) == [];
  }

  // ---------------------------------------------------------------- equals

  /** rankGroups[r]: the hand's cards of rank r, in hand order. */
  function RankGroup(cards: seq<Card>, r: Rank): seq<Card>
  {
    if cards == [] then []
    else RankGroup(cards[..|cards| - 1], r) + (if cards[|cards| - 1].rank == r then [cards[|cards| - 1]] else [])
  }

  /** The ranks in the order forEach first creates their group. */
  function InsertionOrder(cards: seq<Card>): seq<Rank>
  {
    if cards == [] then []
    else
      var p := InsertionOrder(cards[..|cards| - 1]);
      if cards[|cards| - 1].rank in p then p else p + [cards[|cards| - 1].rank]
  }

  /** '7', '8', '9' and '10' are array-index-like property names, which
      Object.keys lists first, in ascending numeric order. */
  const IndexKeys: seq<Rank> := [Seven, Eight, Nine, Ten]

  predicate IsIndexKey(r: Rank)
  {
    r == Seven || r == Eight || r == Nine || r == Ten
  }

  /** The ranks of order that ins holds, in the order of order. */
  function KeepHeld(order: seq<Rank>, ins: seq<Rank>): seq<Rank>
  {
    if order == [] then [] else (if order[0] in ins then [order[0]] else []) + KeepHeld(order[1..], ins)
  }

  /** The other keys, in insertion order. */
  function NamedKeys(ins: seq<Rank>): seq<Rank>
  {
    if ins == [] then [] else (if IsIndexKey(ins[0]) then [] else [ins[0]]) + NamedKeys(ins[1..])
  }

  /** Object.keys of rankGroups, given the order the keys were inserted. */
  function ObjectKeys(ins: seq<Rank>): seq<Rank>
  {
    KeepHeld(IndexKeys, ins) + NamedKeys(ins)
  }

  predicate DistinctRanks(xs: seq<Rank>)
  {
    forall i, j :: 0 <= i < j < |xs| ==> xs[i] != xs[j]
  }

  /** COMBINATIONS.equal.points, which has no entry for 7 and 8. */
  function EqualTable(r: Rank): Option<nat>
  {
    match r
    case Ten => Some(100) case Queen => Some(100) case King => Some(100) case Ace => Some(100)
    case Nine => Some(150) case Jack => Some(200)
    case Seven => None case Eight => None
  }

  /** `COMBINATIONS.equal.points[rank] || 100` */
  function EqualPoints(r: Rank): nat
  {
    match EqualTable(r) case Some(p) => (if p == 0 then 100 else p) case None => 100
  }

  /** The 'equal' record for key r, if its group has exactly 4 cards. */
  function EqualFor(cards: seq<Card>, r: Rank): seq<Combo>
  {
    if |RankGroup(cards, r)| == 4 then [Combo(Equal, RankGroup(cards, r), EqualPoints(r))] else []
  }

  /** The 'equal' records for the keys ks, in that order. */
  function EqualsOver(cards: seq<Card>, ks: seq<Rank>): seq<Combo>
  {
    if ks == [] then [] else EqualsOver(cards, ks[..|ks| - 1]) + EqualFor(cards, ks[|ks| - 1])
  }

  /** findEquals */
  function Equals(cards: seq<Card>): seq<Combo>
  {
    EqualsOver(cards, ObjectKeys(InsertionOrder(cards)))
  }

  /** The forEach of findEquals: rankGroups and the order its keys were
      created in. */
  method GroupByRank(cards: seq<Card>) returns (rankGroups: map<Rank, seq<Card>>, inserted: seq<Rank>)
    ensures inserted == InsertionOrder(cards)
    ensures forall r :: r in rankGroups <==> r in inserted
    ensures forall r :: r in rankGroups ==> rankGroups[r] == RankGroup(cards, r)
  {
    rankGroups := map[];
    inserted := [];
    for k := 0 to |cards|
      invariant inserted == InsertionOrder(cards[..k])
      invariant forall r :: r in rankGroups <==> r in inserted
      invariant forall r :: RankGroup(cards[..k], r) == if r in rankGroups then rankGroups[r] else []
    {
      var card := cards[k];
      ghost var prev := cards[..k];
      assert cards[..k + 1][..k] == prev && cards[..k + 1][k] == card;
      assert forall r :: RankGroup(cards[..k + 1], r) == RankGroup(prev, r) + (if card.rank == r then [card] else []);
      if card.rank !in rankGroups {
        rankGroups := rankGroups[card.rank := []];
        inserted := inserted + [card.rank];
      }
      rankGroups := rankGroups[card.rank := rankGroups[card.rank] + [card]];
    }
    assert cards[..|cards|] == cards;
  }

  /** findEquals: group by rank, then walk the keys in Object.keys order. */
  method FindEquals(cards: seq<Card>) returns (equals: seq<Combo>)
    ensures equals == Equals(cards)
  {
    var rankGroups: map<Rank, seq<Card>>, inserted: seq<Rank> := GroupByRank(cards);
    var keys := ObjectKeys(inserted);
    ObjectKeysMembers(inserted);
    equals := [];
    for ki := 0 to |keys|
      invariant equals == EqualsOver(cards, keys[..ki])
    {
      assert keys[..ki + 1][..ki] == keys[..ki];
      equals := PushEqual(equals, cards, rankGroups[keys[ki]], keys[ki]);
    }
    assert keys[..|keys|] == keys;
  }

  /** One key of the loop of findEquals: a group of exactly four cards
      gives an 'equal' record scored by its rank. */
  method PushEqual(equals0: seq<Combo>, cards: seq<Card>, group: seq<Card>, rankKey: Rank) returns (equals: seq<Combo>)
    requires group == RankGroup(cards, rankKey)
    ensures equals == equals0 + EqualFor(cards, rankKey)
  {
    equals := equals0;
    if |group| == 4 {
      var rank := group[0].rank;
      RankGroupRanks(cards, rankKey);
      var points := match EqualTable(rank) case Some(p) => (if p == 0 then 100 else p) case None => 100;
      equals := equals + [Combo(Equal, group, points)];
    } else {
      assert equals == equals0 + [];
    }
  }

  lemma {:induction false} RankGroupRanks(cards: seq<Card>, r: Rank)
    ensures forall i :: 0 <= i < |RankGroup(cards, r)| ==> RankGroup(cards, r)[i].rank == r
  {
    if cards != [] {
      RankGroupRanks(cards[..|cards| - 1], r);
    }
  }

  lemma {:induction false} InsertionOrderMembers(cards: seq<Card>)
    ensures forall r :: r in InsertionOrder(cards) <==> RankGroup(cards, r) != []
    ensures DistinctRanks(InsertionOrder(cards))
  {
    if cards != [] {
      InsertionOrderMembers(cards[..|cards| - 1]);
    }
  }

  lemma {:induction false} KeepHeldMembers(order: seq<Rank>, ins: seq<Rank>)
    ensures forall r :: r in KeepHeld(order, ins) <==> r in order && r in ins
    ensures DistinctRanks(order) ==> DistinctRanks(KeepHeld(order, ins))
  {
    if order != [] {
      KeepHeldMembers(order[1..], ins);
      if DistinctRanks(order) {
        assert DistinctRanks(order[1..]);
        assert order[0] !in order[1..];
        DistinctConcat(if order[0] in ins then [order[0]] else [], KeepHeld(order[1..], ins));
      }
    }
  }

  lemma {:induction false} NamedKeysMembers(ins: seq<Rank>)
    ensures forall r :: r in NamedKeys(ins) <==> r in ins && !IsIndexKey(r)
    ensures DistinctRanks(ins) ==> DistinctRanks(NamedKeys(ins))
  {
    if ins != [] {
      NamedKeysMembers(ins[1..]);
      if DistinctRanks(ins) {
        assert DistinctRanks(ins[1..]);
        assert ins[0] !in ins[1..];
        DistinctConcat(if IsIndexKey(ins[0]) then [] else [ins[0]], NamedKeys(ins[1..]));
      }
    }
  }

  lemma DistinctConcat(a: seq<Rank>, b: seq<Rank>)
    requires DistinctRanks(a) && DistinctRanks(b)
    requires forall r :: r in a ==> r !in b
    ensures DistinctRanks(a + b)
  {
    forall i, j | 0 <= i < j < |a + b| ensures (a + b)[i] != (a + b)[j] {
      if j < |a| {
      } else if i < |a| {
        assert (a + b)[i] in a && (a + b)[j] == b[j - |a|];
      } else {
        assert (a + b)[i] == b[i - |a|] && (a + b)[j] == b[j - |a|];
      }
    }
  }

  /** Object.keys lists every key exactly once. */
  lemma ObjectKeysMembers(ins: seq<Rank>)
    ensures forall r :: r in ObjectKeys(ins) <==> r in ins
    ensures DistinctRanks(ins) ==> DistinctRanks(ObjectKeys(ins))
  {
    KeepHeldMembers(IndexKeys, ins);
    NamedKeysMembers(ins);
    assert forall r :: r in IndexKeys <==> IsIndexKey(r);
    if DistinctRanks(ins) {
      assert DistinctRanks(IndexKeys);
      DistinctConcat(KeepHeld(IndexKeys, ins), NamedKeys(ins));
    }
  }

  /** Every 'equal' record for keys ks is a key's full group of 4. */
  lemma {:induction false} EqualsOverSound(cards: seq<Card>, ks: seq<Rank>)
    ensures forall e :: e in EqualsOver(cards, ks) ==>
      e.kind == Equal && |e.cards| == 4 && e.cards[0].rank in ks
      && e.cards == RankGroup(cards, e.cards[0].rank) && e.points == EqualPoints(e.cards[0].rank)
  {
    if ks != [] {
      var r := ks[|ks| - 1];
      EqualsOverSound(cards, ks[..|ks| - 1]);
      RankGroupRanks(cards, r);
      assert forall x :: x in ks[..|ks| - 1] ==> x in ks;
    }
  }

  lemma {:induction false} EqualsOverComplete(cards: seq<Card>, ks: seq<Rank>)
    ensures forall r :: r in ks && |RankGroup(cards, r)| == 4 ==>
      exists e :: e in EqualsOver(cards, ks) && |e.cards| == 4 && e.cards[0].rank == r
  {
    if ks != [] {
      var r := ks[|ks| - 1];
      var init := ks[..|ks| - 1];
      EqualsOverComplete(cards, init);
      RankGroupRanks(cards, r);
      assert ks == init + [r];
      if |RankGroup(cards, r)| == 4 {
        assert EqualsOver(cards, ks)[|EqualsOver(cards, ks)| - 1].cards[0].rank == r;
      }
    }
  }

  lemma {:induction false} EqualsOverDistinct(cards: seq<Card>, ks: seq<Rank>)
    requires DistinctRanks(ks)
    ensures forall i, j :: 0 <= i < j < |EqualsOver(cards, ks)| ==>
      EqualsOver(cards, ks)[i].cards != [] && EqualsOver(cards, ks)[j].cards != []
      && EqualsOver(cards, ks)[i].cards[0].rank != EqualsOver(cards, ks)[j].cards[0].rank
  {
    if ks != [] {
      var r := ks[|ks| - 1];
      var init := ks[..|ks| - 1];
      assert DistinctRanks(init);
      assert r !in init;
      EqualsOverDistinct(cards, init);
      EqualsOverSound(cards, init);
      RankGroupRanks(cards, r);
      var prev := EqualsOver(cards, init);
      var cur := EqualsOver(cards, ks);
      assert cur == prev + EqualFor(cards, r);
      forall i, j | 0 <= i < j < |cur|
        ensures cur[i].cards != [] && cur[j].cards != [] && cur[i].cards[0].rank != cur[j].cards[0].rank
      {
        assert cur[i] == prev[i] && prev[i] in prev;
        if j >= |prev| {
          assert cur[j].cards == RankGroup(cards, r);
        } else {
          assert cur[j] == prev[j];
        }
      }
    } else {
      assert EqualsOver(cards, ks) == [];
    }
  }

  lemma {:induction false} EqualsOverEmpty(cards: seq<Card>, ks: seq<Rank>)
    requires forall r :: r in ks ==> |RankGroup(cards, r)| != 4
    ensures EqualsOver(cards, ks) == []
  {
    if ks != [] {
      assert forall x :: x in ks[..|ks| - 1] ==> x in ks;
      EqualsOverEmpty(cards, ks[..|ks| - 1]);
    }
  }

  /** findEquals reports exactly the ranks held 4 times, each once, with
      that rank's 4 cards (in hand order) and its points. */
  lemma EqualsCharacterization(cards: seq<Card>)
    ensures forall e :: e in Equals(cards) ==>
      e.kind == Equal && |e.cards| == 4 && e.cards == RankGroup(cards, e.cards[0].rank)
      && (forall i :: 0 <= i < 4 ==> e.cards[i].rank == e.cards[0].rank)
      && e.points == EqualPoints(e.cards[0].rank)
    ensures forall r :: |RankGroup(cards, r)| == 4 <==> exists e :: e in Equals(cards) && e.cards[0].rank == r
    ensures forall i, j :: 0 <= i < j < |Equals(cards)| ==> Equals(cards)[i].cards[0].rank != Equals(cards)[j].cards[0].rank
    ensures (forall r :: |RankGroup(cards, r)| != 4) ==> Equals(cards) == []
  {
    var ins := InsertionOrder(cards);
    var keys := ObjectKeys(ins);
    InsertionOrderMembers(cards);
    ObjectKeysMembers(ins);
    EqualsOverSound(cards, keys);
    EqualsOverComplete(cards, keys);
    EqualsOverDistinct(cards, keys);
    forall r | |RankGroup(cards, r)| == 4 ensures r in keys {
    }
    forall e | e in Equals(cards)
      ensures forall i :: 0 <= i < 4 ==> e.cards[i].rank == e.cards[0].rank
    {
      RankGroupRanks(cards, e.cards[0].rank);
    }
    if forall r :: |RankGroup(cards, r)| != 4 {
      EqualsOverEmpty(cards, keys);
    }
  }

  /** Four jacks score 200, four nines 150, and any other four of a kind
      100, sevens and eights through the fallback. */
  lemma EqualPointsTable(r: Rank)
    ensures EqualPoints(r) == if r == Jack then 200 else if r == Nine then 150 else 100
  {
  }

  // ---------------------------------------------------------------- belot

  /** findBelot: the queen and king of trumpSuit, or nothing. */
  function FindBelot(cards: seq<Card>, trumpSuit: Option<Suit>): (r: Option<Combo>)
    ensures r.Some? <==> trumpSuit.Some? && Card(trumpSuit.value, Queen) in cards && Card(trumpSuit.value, King) in cards
    ensures r.Some? ==> r.value == Combo(Belot, [Card(trumpSuit.value, Queen), Card(trumpSuit.value, King)], 20)
  {
    match trumpSuit
    case None => None
    case Some(t) =>
      if Card(t, Queen) in cards && Card(t, King) in cards
      then Some(Combo(Belot, [Card(t, Queen), Card(t, King)], 20))
      else None
  }

  /** getAllCombinations: sequences, then equals, then the belot if any. */
  function AllCombinations(cards: seq<Card>, trumpSuit: Option<Suit>): seq<Combo>
  {
    Sequences(cards) + Equals(cards)
    + match FindBelot(cards, trumpSuit) case Some(b) => [b] case None => []
  }

  /** getAllCombinations, calling the two finders. */
  method GetAllCombinations(cards: seq<Card>, trumpSuit: Option<Suit>) returns (all: seq<Combo>)
    ensures all == AllCombinations(cards, trumpSuit)
  {
    var sequences := FindSequences(cards);
    var equals := FindEquals(cards);
    var belot := FindBelot(cards, trumpSuit);
    all := sequences + equals;
    if belot.Some? {
      all := all + [belot.value];
    }
  }

  /** The records come grouped: every run first, then every 'equal', then
      at most one belot, last. */
  lemma AllCombinationsOrder(cards: seq<Card>, trumpSuit: Option<Suit>)
    ensures var all := AllCombinations(cards, trumpSuit);
      var n := |Sequences(cards)|;
      var m := |Equals(cards)|;
      n + m <= |all| <= n + m + 1
      && (forall i :: 0 <= i < n ==> all[i].kind in {Tierce, Quarte, Quint})
      && (forall i :: n <= i < n + m ==> all[i].kind == Equal)
      && (forall i :: n + m <= i < |all| ==> all[i].kind == Belot)
  {
    var seqs, eqs := Sequences(cards), Equals(cards);
    var belot := match FindBelot(cards, trumpSuit) case Some(b) => [b] case None => [];
    var all := AllCombinations(cards, trumpSuit);
    assert all == seqs + eqs + belot;
    SequencesKinds(cards);
    EqualsKinds(cards);
    forall i | 0 <= i < |seqs| ensures all[i].kind in {Tierce, Quarte, Quint} {
      assert all[i] == seqs[i] && seqs[i] in seqs;
    }
    forall i | |seqs| <= i < |seqs| + |eqs| ensures all[i].kind == Equal {
      assert all[i] == eqs[i - |seqs|] && eqs[i - |seqs|] in eqs;
    }
  }

  lemma SequencesKinds(cards: seq<Card>)
    ensures forall c :: c in Sequences(cards) ==> c.kind in {Tierce, Quarte, Quint}
  {
    SequencesWellFormed(cards);
  }

  lemma EqualsKinds(cards: seq<Card>)
    ensures forall e :: e in Equals(cards) ==> e.kind == Equal
  {
    EqualsCharacterization(cards);
  }

  /** Three consecutive ranks of one suit are in the hand. */
  predicate HasThreeRun(cards: seq<Card>)
  {
    exists s: Suit, k :: 0 <= k <= 5 && ThreeRunAt(cards, s, k)
  }

  predicate ThreeRunAt(cards: seq<Card>, s: Suit, k: nat)
    requires k <= 5
  {
    Card(s, RankOrder[k]) in cards && Card(s, RankOrder[k + 1]) in cards && Card(s, RankOrder[k + 2]) in cards
  }

  /** A run record's first three cards are three consecutive ranks held
      in the hand. */
  lemma RunGivesThreeRun(cards: seq<Card>, c: Combo)
    requires WellFormedRun(c) && FromHand(c.cards, cards)
    ensures HasThreeRun(cards)
  {
    var s := c.cards[0].suit;
    var k := SequenceIndex(c.cards[0].rank);
    assert SequenceIndex(c.cards[1].rank) == k + 1;
    assert SequenceIndex(c.cards[2].rank) == k + 2;
    assert c.cards[0] == Card(s, RankOrder[k]);
    assert c.cards[1] == Card(s, RankOrder[k + 1]);
    assert c.cards[2] == Card(s, RankOrder[k + 2]);
    assert c.cards[0] in cards && c.cards[1] in cards && c.cards[2] in cards;
    assert ThreeRunAt(cards, s, k);
  }

  /** A hand with no three consecutive ranks of a suit, no rank held 4
      times and not both the trump queen and king yields no record. */
  lemma NoCombinationsWhenNothingHeld(cards: seq<Card>, trumpSuit: Option<Suit>)
    requires !HasThreeRun(cards)
    requires forall r :: |RankGroup(cards, r)| != 4
    requires trumpSuit.Some? ==> !(Card(trumpSuit.value, Queen) in cards && Card(trumpSuit.value, King) in cards)
    ensures AllCombinations(cards, trumpSuit) == []
  {
    SequencesWellFormed(cards);
    if Sequences(cards) != [] {
      RunGivesThreeRun(cards, Sequences(cards)[0]);
    }
    EqualsCharacterization(cards);
  }
}
