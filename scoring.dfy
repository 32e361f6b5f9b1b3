/** The arithmetic of BelotGame.endRound (src/game/gameLogic.js:480-625):
    the raw round scores, their rounding to game points, doubling,
    hanging points and the 151-point finish. Scores are team-indexed
    sequences of length two, as the arrays of the source are. */
module Scoring {
  import opened Cards

  /** Math.round(x / 10): the nearest integer, halves rounded up. */
  function Round10(x: int): (r: int)
    ensures 10 * r - 5 <= x < 10 * r + 5
  {
    (x + 5) / 10
  }

  /** A breakdown entry of lastRoundBreakdown. */
  datatype Breakdown = Breakdown(cardPoints: nat, combinationPoints: nat, valatPoints: nat)

  /** The result of rounding one round: the game points per team
      (lastRoundRoundedPoints) and the hanging points carried forward. */
  datatype Settlement = Settlement(rounded: seq<int>, hanging: int)

  // ---------------------------------------------------------------- raw scores

  /** Trick points once the last trick's 10 is credited (to the team of its
      winner, when there is one) and doubled under no-trump. */
  function CardPoints(trickPoints: seq<nat>, lastTeam: Option<nat>, contract: Contract): (r: seq<nat>)
    requires |trickPoints| == 2
    ensures |r| == 2
    ensures forall t :: 0 <= t < 2 ==>
      r[t] == (trickPoints[t] + (if lastTeam == Some(t) then 10 else 0)) * (if contract == NoTrump then 2 else 1)
  {
    var withLast := if lastTeam.Some? && lastTeam.value < 2
                    then trickPoints[lastTeam.value := trickPoints[lastTeam.value] + 10]
                    else trickPoints;
    if contract == NoTrump then [withLast[0] * 2, withLast[1] * 2] else withLast
  }

  /** The valat team: tricks.every(t => t.team === 0) is tried first, then
      team 1. An empty list of tricks counts as a valat of team 0. */
  function ValatTeam(teams: seq<Option<nat>>): (v: Option<nat>)
    ensures v == Some(0) <==> forall i :: 0 <= i < |teams| ==> teams[i] == Some(0)
    ensures v == Some(1) <==> |teams| > 0 && forall i :: 0 <= i < |teams| ==> teams[i] == Some(1)
    ensures v.None? <==> ((exists i :: 0 <= i < |teams| && teams[i] != Some(0))
                          && (exists i :: 0 <= i < |teams| && teams[i] != Some(1)))
  {
    if forall i :: 0 <= i < |teams| ==> teams[i] == Some(0) then
      assert |teams| > 0 ==> teams[0] != Some(1);
      Some(0)
    else if forall i :: 0 <= i < |teams| ==> teams[i] == Some(1) then Some(1)
    else None
  }

  function ValatBonus(valat: Option<nat>, t: nat): nat
  {
    if valat == Some(t) then 90 else 0
  }

  /** currentRoundScore at the end of the round: card points, the valat 90 and
      every announced combination of the team. */
  function RawScores(cardPoints: seq<nat>, valat: Option<nat>, comboPoints: seq<nat>): (raw: seq<nat>)
    requires |cardPoints| == 2 && |comboPoints| == 2
    ensures |raw| == 2
    ensures forall t :: 0 <= t < 2 ==> raw[t] == cardPoints[t] + ValatBonus(valat, t) + comboPoints[t]
  {
    [cardPoints[0] + ValatBonus(valat, 0) + comboPoints[0], cardPoints[1] + ValatBonus(valat, 1) + comboPoints[1]]
  }

  /** Every card point of the round is counted once: two teams' raw scores sum
      to the trick points, the last 10 (both doubled under no-trump), one
      valat bonus at most, and every combination. */
  lemma RawScoresTotal(trickPoints: seq<nat>, lastTeam: nat, contract: Contract, valat: Option<nat>, comboPoints: seq<nat>)
    requires |trickPoints| == 2 && |comboPoints| == 2 && lastTeam < 2
    ensures var raw := RawScores(CardPoints(trickPoints, Some(lastTeam), contract), valat, comboPoints);
            raw[0] + raw[1]
            == (trickPoints[0] + trickPoints[1] + 10) * (if contract == NoTrump then 2 else 1)
               + (if valat == Some(0) || valat == Some(1) then 90 else 0)
               + comboPoints[0] + comboPoints[1]
  {
  }

  /** A full deck played out with no valat and no combinations gives 162 in a
      suit contract, 258 in all-trump and 260 in no-trump. */
  lemma FullRoundTotals(trickPoints: seq<nat>, lastTeam: nat, contract: Contract)
    requires |trickPoints| == 2 && lastTeam < 2
    requires trickPoints[0] + trickPoints[1] == SumValues(FullDeck(), Some(contract))
    ensures var raw := RawScores(CardPoints(trickPoints, Some(lastTeam), contract), None, [0, 0]);
            raw[0] + raw[1] == match contract case SuitContract(_) => 162 case AllTrump => 258 case NoTrump => 260
  {
    DeckTotals(contract);
    RawScoresTotal(trickPoints, lastTeam, contract, None, [0, 0]);
  }

  // ---------------------------------------------------------------- rounding

  /** 4 for a redouble, 2 for a double, 1 otherwise; a valat or a tie is
      never multiplied. */
  function Multiplier(double: bool, redouble: bool, isValat: bool, isHanging: bool): (m: nat)
    ensures m == 1 || m == 2 || m == 4
    ensures isValat || isHanging || (!double && !redouble) ==> m == 1
  {
    if redouble && !isValat && !isHanging then 4
    else if double && !isValat && !isHanging then 2
    else 1
  }

  /** Both teams' points rounded to tens, with the two fix-ups: in all-trump
      the opponents gain 1 when their raw score ends in 4, otherwise outside
      no-trump the contract team loses 1 when the opponents' score ends in 6. */
  function NormalRounding(raw: seq<nat>, contractTeam: nat, contract: Contract): (r: seq<int>)
    requires |raw| == 2 && contractTeam < 2
    ensures |r| == 2
  {
    var r := [Round10(raw[0]), Round10(raw[1])];
    var opp := raw[1 - contractTeam];
    if contract == AllTrump && opp % 10 == 4 then r[1 - contractTeam := r[1 - contractTeam] + 1]
    else if contract != NoTrump && opp % 10 == 6 then r[contractTeam := r[contractTeam] - 1]
    else r
  }

  /** The points the leading team takes when it takes everything. */
  function TakeAll(team: nat, points: int): (r: seq<int>)
    requires team < 2
    ensures |r| == 2 && r[team] == points && r[1 - team] == 0
  {
    if team == 0 then [points, 0] else [0, points]
  }

  /** endRound's three outcomes (src/game/gameLogic.js:527-610), given
      the raw scores, the contract team, the contract and double flags,
      whether the round was a valat, and the points hanging from before. */
  function Settle(raw: seq<nat>, contractTeam: nat, contract: Contract, double: bool, redouble: bool,
                  isValat: bool, hanging: int): (s: Settlement)
    requires |raw| == 2 && contractTeam < 2
    ensures |s.rounded| == 2
  {
    var cp := raw[contractTeam];
    var op := raw[1 - contractTeam];
    var m := Multiplier(double, redouble, isValat, cp == op);
    if cp > op then
      var base := if !double && !redouble then NormalRounding(raw, contractTeam, contract)
                  else TakeAll(contractTeam, Round10((cp + op) * m));
      if hanging > 0 then Settlement(base[0 := base[0] + hanging], 0) else Settlement(base, hanging)
    else if cp < op then
      var base := TakeAll(1 - contractTeam, Round10((raw[0] + raw[1]) * m));
      if hanging > 0 then Settlement(base[1 - contractTeam := base[1 - contractTeam] + hanging], 0)
      else Settlement(base, hanging)
    else
      var n := NormalRounding(raw, contractTeam, contract);
      Settlement(n[contractTeam := 0], n[contractTeam])
  }

  /** Three undoubled wins by team 0 from the repository's scoring tests: 255/106 in hearts
      gives 25/11, 86/76 in spades gives 8/8, 204/54 in all-trump gives 20/6. */
  lemma SettleExamples()
    ensures Settle([255, 106], 0, SuitContract(Hearts), false, false, false, 0) == Settlement([25, 11], 0)
    ensures Settle([86, 76], 0, SuitContract(Spades), false, false, false, 0) == Settlement([8, 8], 0)
    ensures Settle([204, 54], 0, AllTrump, false, false, false, 0) == Settlement([20, 6], 0)
  {
  }

  /** A redoubled win takes the total times four before rounding: 100/62 in
      hearts scores round(648 / 10) = 65, not 4 * round(162 / 10) = 64. */
  lemma RedoubledWinExample()
    ensures Settle([100, 62], 0, SuitContract(Hearts), true, true, false, 0) == Settlement([65, 0], 0)
    ensures 4 * Round10(100 + 62) == 64
  {
  }

  /** In a suit contract whose round totals end in 2 (162 plus combinations in
      tens), the fix-up for opponents ending in 6 makes the two rounded
      scores add up to the rounded total. */
  lemma SuitFixupKeepsTotal(raw: seq<nat>, contractTeam: nat, s: Suit)
    requires |raw| == 2 && contractTeam < 2
    requires (raw[0] + raw[1]) % 10 == 2 && raw[1 - contractTeam] % 10 == 6
    ensures var r := NormalRounding(raw, contractTeam, SuitContract(s));
            r[0] + r[1] == Round10(raw[0] + raw[1])
  {
    var x, y := raw[contractTeam], raw[1 - contractTeam];
    var a, b := x / 10, y / 10;
    LastDigit(x, y, a, b, 6, 2);
    Round10Digits(a, 6);
    Round10Digits(b, 6);
    Round10Digits(a + b + 1, 2);
    assert raw[0] + raw[1] == 10 * (a + b + 1) + 2;
  }

  /** The last digit of x, given those of y and of x + y. */
  lemma LastDigit(x: nat, y: nat, a: nat, b: nat, dy: nat, dxy: nat)
    requires a == x / 10 && b == y / 10 && dy < 10 && dxy < 10
    requires y % 10 == dy && (x + y) % 10 == dxy
    ensures x == 10 * a + (dxy - dy + 10) % 10
  {
  }

  /** Round10 of a number given its tens and its last digit. */
  lemma Round10Digits(a: int, d: int)
    requires 0 <= d < 10
    ensures Round10(10 * a + d) == if d >= 5 then a + 1 else a
  {
  }

  /** In all-trump with totals ending in 8 (258 plus combinations in tens),
      the fix-up for opponents ending in 4 does the same. */
  lemma AllTrumpFixupKeepsTotal(raw: seq<nat>, contractTeam: nat)
    requires |raw| == 2 && contractTeam < 2
    requires (raw[0] + raw[1]) % 10 == 8 && raw[1 - contractTeam] % 10 == 4
    ensures var r := NormalRounding(raw, contractTeam, AllTrump);
            r[0] + r[1] == Round10(raw[0] + raw[1])
  {
    var x, y := raw[contractTeam], raw[1 - contractTeam];
    var a, b := x / 10, y / 10;
    LastDigit(x, y, a, b, 4, 8);
    Round10Digits(a, 4);
    Round10Digits(b, 4);
    Round10Digits(a + b, 8);
    assert raw[0] + raw[1] == 10 * (a + b) + 8;
  }

  /** The fix-ups do not cover every split: 85/77 in a suit contract rounds
      to 9 + 8 = 17 game points out of a rounded total of 16. */
  lemma RoundingGapExample()
    ensures Settle([85, 77], 0, SuitContract(Clubs), false, false, false, 0).rounded == [9, 8]
    ensures Round10(85 + 77) == 16
  {
  }

  /** No team is ever awarded negative game points: the −1 fix-up only
      fires when the contract team's score is at least 7. */
  lemma SettleNonNegative(raw: seq<nat>, contractTeam: nat, contract: Contract, double: bool, redouble: bool,
                          isValat: bool, hanging: int)
    requires |raw| == 2 && contractTeam < 2 && hanging >= 0
    ensures var s := Settle(raw, contractTeam, contract, double, redouble, isValat, hanging);
            s.rounded[0] >= 0 && s.rounded[1] >= 0 && s.hanging >= 0
  {
    var cp, op := raw[contractTeam], raw[1 - contractTeam];
    var m := Multiplier(double, redouble, isValat, cp == op);
    assert (cp + op) * m >= 0;
    assert (raw[0] + raw[1]) * m >= 0;
    if cp >= op {
      NormalRoundingNonNegative(raw, contractTeam, contract);
    }
  }

  lemma NormalRoundingNonNegative(raw: seq<nat>, contractTeam: nat, contract: Contract)
    requires |raw| == 2 && contractTeam < 2 && raw[contractTeam] >= raw[1 - contractTeam]
    ensures var r := NormalRounding(raw, contractTeam, contract);
            r[0] >= 0 && r[1] >= 0
  {
    var op := raw[1 - contractTeam];
    if op % 10 == 6 {
      assert raw[contractTeam] >= 6;
      assert Round10(raw[contractTeam]) >= 1;
    }
  }

  /** A doubled or redoubled win, and every loss, give the leading team the
      total times the multiplier, divided by ten and rounded, and the other
      team nothing but the hanging points: hanging points go to team 0 on a
      win and to the opponents on a loss. */
  lemma LeaderTakesAll(raw: seq<nat>, contractTeam: nat, contract: Contract, double: bool, redouble: bool,
                       isValat: bool, hanging: int)
    requires |raw| == 2 && contractTeam < 2
    requires raw[contractTeam] < raw[1 - contractTeam]
          || (raw[contractTeam] > raw[1 - contractTeam] && (double || redouble))
    ensures var s := Settle(raw, contractTeam, contract, double, redouble, isValat, hanging);
            var lead := if raw[contractTeam] > raw[1 - contractTeam] then contractTeam else 1 - contractTeam;
            var extra := if hanging > 0 then hanging else 0;
            var m := if isValat then 1 else if redouble then 4 else if double then 2 else 1;
            s.hanging == hanging - extra
            && s.rounded[lead] == Round10((raw[0] + raw[1]) * m) + (if lead == 0 || raw[contractTeam] < raw[1 - contractTeam] then extra else 0)
            && s.rounded[1 - lead] == (if lead == 1 && raw[contractTeam] > raw[1 - contractTeam] then extra else 0)
  {
  }

  /** On an undoubled win each team keeps its own rounded points, and the
      hanging points are added to team 0 whichever team holds the contract. */
  lemma UndoubledWinKeepsBoth(raw: seq<nat>, contractTeam: nat, contract: Contract, hanging: int)
    requires |raw| == 2 && contractTeam < 2 && raw[contractTeam] > raw[1 - contractTeam]
    ensures var s := Settle(raw, contractTeam, contract, false, false, false, hanging);
            var n := NormalRounding(raw, contractTeam, contract);
            s.rounded == (if hanging > 0 then [n[0] + hanging, n[1]] else n)
            && s.hanging == (if hanging > 0 then 0 else hanging)
  {
  }

  /** A tie awards the opponents their rounded points and the contract team
      nothing; the contract team's rounded points become the new hanging
      points, and whatever hung from before is lost. */
  lemma TieHangsContractPoints(raw: seq<nat>, contractTeam: nat, contract: Contract, double: bool, redouble: bool,
                               isValat: bool, hanging: int, other: int)
    requires |raw| == 2 && contractTeam < 2 && raw[0] == raw[1]
    ensures var s := Settle(raw, contractTeam, contract, double, redouble, isValat, hanging);
            var n := NormalRounding(raw, contractTeam, contract);
            s.rounded[contractTeam] == 0 && s.rounded[1 - contractTeam] == n[1 - contractTeam]
            && s.hanging == n[contractTeam]
            && s == Settle(raw, contractTeam, contract, double, redouble, isValat, other)
  {
  }

  /** The fix-ups move one game point at most, from the rounded scores. */
  lemma NormalRoundingNearRound10(raw: seq<nat>, contractTeam: nat, contract: Contract)
    requires |raw| == 2 && contractTeam < 2
    ensures var r := NormalRounding(raw, contractTeam, contract);
            Round10(raw[contractTeam]) - 1 <= r[contractTeam] <= Round10(raw[contractTeam])
            && Round10(raw[1 - contractTeam]) <= r[1 - contractTeam] <= Round10(raw[1 - contractTeam]) + 1
            && (r[contractTeam] < Round10(raw[contractTeam]) <==> contract != NoTrump && raw[1 - contractTeam] % 10 == 6)
            && (r[1 - contractTeam] > Round10(raw[1 - contractTeam]) <==> contract == AllTrump && raw[1 - contractTeam] % 10 == 4)
  {
  }

  // ---------------------------------------------------------------- finish

  /** The game ends once a team reaches 151; team 0 is named when both do. */
  function GameWinner(totals: seq<int>): (w: Option<nat>)
    requires |totals| == 2
    ensures w == Some(0) <==> totals[0] >= 151
    ensures w == Some(1) <==> totals[0] < 151 <= totals[1]
    ensures w.None? <==> totals[0] < 151 && totals[1] < 151
  {
    if totals[0] >= 151 || totals[1] >= 151 then Some(if totals[0] >= 151 then 0 else 1) else None
  }
}
