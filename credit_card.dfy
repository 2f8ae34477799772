/** Credit Card Master: a shuffled deck of credit scenarios, each accepted
    (swipe right) or declined (swipe left); the answer moves a credit score
    kept between 300 and 850. */
module CreditCard {
  import opened JsMath

  /** A scenario card: its score impact and whether accepting it is right.
      Its text, icon, category and explanation are presentation. */
  datatype Card = Card(impact: int, good: bool)

  /** The fifteen scenarios, in the order they are declared. */
  const Scenarios: seq<Card> := [
    Card(20, true), Card(-30, false), Card(15, true), Card(-10, false), Card(-15, false),
    Card(15, true), Card(-35, false), Card(25, true), Card(-20, false), Card(-25, false),
    Card(10, true), Card(-20, false), Card(-30, false), Card(10, true), Card(-40, false)
  ]

  const StartScore := 500
  const MinScore := 300
  const MaxScore := 850

  function Abs(x: int): (r: int)
    ensures r >= 0 && (r == x || r == -x)
  {
    if x < 0 then -x else x
  }

  /** An answer is right exactly when it accepts a good card or declines a bad one. */
  predicate IsCorrect(card: Card, accepted: bool)
  {
    accepted == card.good
  }

  /** The score change of an answer: the size of the impact, gained when
      right and lost when wrong. */
  function ScoreChange(card: Card, accepted: bool): (change: int)
    ensures IsCorrect(card, accepted) ==> change == Abs(card.impact) >= 0
    ensures !IsCorrect(card, accepted) ==> change == -Abs(card.impact) <= 0
  {
    if IsCorrect(card, accepted) then Abs(card.impact) else -Abs(card.impact)
  }

  /** The score after one answer, clamped into [300, 850]. */
  function ScoreAfter(score: int, card: Card, accepted: bool): (s: int)
    ensures MinScore <= s <= MaxScore
    ensures MinScore <= score <= MaxScore && IsCorrect(card, accepted) ==> s >= score
    ensures MinScore <= score <= MaxScore && !IsCorrect(card, accepted) ==> s <= score
  {
    Clamp(MinScore, MaxScore, score + ScoreChange(card, accepted))
  }

  // ---------------------------------------------------------------------
  // The game state
  // ---------------------------------------------------------------------

  /** The score, the position in the deck, the deck, whether the feedback
      popup is up, and whether the end screen has replaced the card. */
  datatype CCState = CCState(score: int, currentCardIndex: nat, deck: seq<Card>, popupActive: bool, ended: bool)

  /** While the game runs a card is on screen; while the popup is up the
      card just answered is still counted; the end screen comes only after
      the whole deck. */
  predicate Inv(st: CCState)
  {
    && MinScore <= st.score <= MaxScore
    && st.currentCardIndex <= |st.deck|
    && (!st.popupActive && !st.ended ==> st.currentCardIndex < |st.deck|)
    && (st.popupActive ==> st.currentCardIndex >= 1 && !st.ended)
    && (st.ended ==> st.currentCardIndex == |st.deck|)
  }

  /** `renderCard`: the end screen once the deck is used up. */
  function Render(st: CCState): (r: CCState)
    ensures r == st.(ended := st.currentCardIndex >= |st.deck|)
  {
    st.(ended := st.currentCardIndex >= |st.deck|)
  }

  /** A deal is the fifteen scenarios in some order. */
  predicate IsDeal(shuffled: seq<Card>)
  {
    multiset(shuffled) == multiset(Scenarios)
  }

  /** The reset of `loadCreditCardSwipe`, with the shuffled deck given:
      full score range start at 500, first card on screen. */
  function Reset(shuffled: seq<Card>): (st: CCState)
    ensures Inv(st) && st.score == StartScore && st.currentCardIndex == 0 && !st.popupActive
    ensures st.deck == shuffled && (st.ended <==> shuffled == [])
  {
    Render(CCState(StartScore, 0, shuffled, false, false))
  }

  /** A deal is never empty, so a fresh game shows its first card. */
  lemma DealStartsWithCard(shuffled: seq<Card>)
    requires IsDeal(shuffled)
    ensures !Reset(shuffled).ended && |Reset(shuffled).deck| == 15
  {
    DeckLength(shuffled);
  }

  /** `processSwipe` on the card on screen. */
  function Swipe(st: CCState, accepted: bool): (r: CCState)
    requires st.currentCardIndex < |st.deck|
    ensures r.currentCardIndex == st.currentCardIndex + 1
    ensures r.score == ScoreAfter(st.score, st.deck[st.currentCardIndex], accepted)
    ensures r.popupActive && r.deck == st.deck && r.ended == st.ended
  {
    st.(score := ScoreAfter(st.score, st.deck[st.currentCardIndex], accepted),
        currentCardIndex := st.currentCardIndex + 1,
        popupActive := true)
  }

  /** `triggerSwipe`: ignored while the popup is up or when no card is on screen. */
  function Trigger(st: CCState, right: bool): (r: CCState)
    requires Inv(st)
    ensures Inv(r)
    ensures st.popupActive || st.ended ==> r == st
    ensures !st.popupActive && !st.ended ==> r == Swipe(st, right)
  {
    if st.popupActive || st.ended then st else Swipe(st, right)
  }

  /** Closing the popup (the button, or the timer while it is up) shows the
      next card or the end screen. */
  function Close(st: CCState): (r: CCState)
    requires Inv(st)
    ensures Inv(r)
    ensures !r.popupActive && r.score == st.score && r.currentCardIndex == st.currentCardIndex
    ensures st.popupActive ==> (r.ended <==> st.currentCardIndex == |st.deck|)
  {
    Render(st.(popupActive := false))
  }

  /** The answer to the card on screen moves the position on by one and
      keeps the score in range; the popup then blocks further swipes. */
  lemma SwipeThenBlocked(st: CCState, right: bool, again: bool)
    requires Inv(st) && !st.popupActive && !st.ended
    ensures var r := Trigger(st, right);
      && r.currentCardIndex == st.currentCardIndex + 1
      && MinScore <= r.score <= MaxScore
      && Trigger(r, again) == r
  {
  }

  /** The game ends exactly when the popup of the last card closes. */
  lemma EndsAfterLastCard(st: CCState)
    requires Inv(st) && st.popupActive
    ensures Close(st).ended <==> st.currentCardIndex == |st.deck|
  {
  }

  // ---------------------------------------------------------------------
  // Gauge, rank and end-screen feedback
  // ---------------------------------------------------------------------

  /** The gauge fill in percent: where the score lies between 300 and 850. */
  function GaugePercent(score: int): (p: real)
    ensures 0.0 <= p <= 100.0
    ensures score <= MinScore ==> p == 0.0
    ensures score >= MaxScore ==> p == 100.0
  {
    MaxReal(0.0, MinReal(100.0, (score - MinScore) as real / (MaxScore - MinScore) as real * 100.0))
  }

  datatype Rank = Noob | Rookie | Pro | Elite | Legend

  function RankOf(score: int): (r: Rank)
    ensures r == Legend <==> score >= 800
    ensures r == Elite <==> 740 <= score < 800
    ensures r == Pro <==> 670 <= score < 740
    ensures r == Rookie <==> 580 <= score < 670
    ensures r == Noob <==> score < 580
  {
    if score >= 800 then Legend
    else if score >= 740 then Elite
    else if score >= 670 then Pro
    else if score >= 580 then Rookie
    else Noob
  }

  datatype Feedback = GameOverFeedback | StageComplete | LevelCleared

  function FeedbackOf(finalScore: int): (f: Feedback)
    ensures f == LevelCleared <==> finalScore >= 750
    ensures f == StageComplete <==> 650 <= finalScore < 750
    ensures f == GameOverFeedback <==> finalScore < 650
  {
    if finalScore >= 750 then LevelCleared
    else if finalScore >= 650 then StageComplete
    else GameOverFeedback
  }

  function RankLevel(r: Rank): nat
  {
    match r
    case Noob => 0
    case Rookie => 1
    case Pro => 2
    case Elite => 3
    case Legend => 4
  }

  /** A higher score never shows a lower rank, a lower gauge or worse feedback. */
  lemma DisplayMonotone(x: int, y: int)
    requires x <= y
    ensures RankLevel(RankOf(x)) <= RankLevel(RankOf(y))
    ensures GaugePercent(x) <= GaugePercent(y)
  {
    var a := (x - MinScore) as real / (MaxScore - MinScore) as real;
    var b := (y - MinScore) as real / (MaxScore - MinScore) as real;
    assert a <= b;
  }

  // ---------------------------------------------------------------------
  // A whole game
  // ---------------------------------------------------------------------

  /** The score after answering the cards of `deck` in order. */
  function Play(score: int, deck: seq<Card>, answers: seq<bool>): int
    requires |answers| == |deck|
    decreases |deck|
  {
    if deck == [] then score else Play(ScoreAfter(score, deck[0], answers[0]), deck[1..], answers[1..])
  }

  /** The answers that get every card right. */
  function RightAnswers(deck: seq<Card>): (a: seq<bool>)
    ensures |a| == |deck| && forall i :: 0 <= i < |deck| ==> IsCorrect(deck[i], a[i])
  {
    seq(|deck|, i requires 0 <= i < |deck| => deck[i].good)
  }

  /** The answers that get every card wrong. */
  function WrongAnswers(deck: seq<Card>): (a: seq<bool>)
    ensures |a| == |deck| && forall i :: 0 <= i < |deck| ==> !IsCorrect(deck[i], a[i])
  {
    seq(|deck|, i requires 0 <= i < |deck| => !deck[i].good)
  }

  /** The total size of the impacts of a deck. */
  function TotalImpact(deck: seq<Card>): (t: int)
    ensures t >= 0
  {
    if deck == [] then 0 else Abs(deck[0].impact) + TotalImpact(deck[1..])
  }

  lemma {:induction false} TotalImpactAppend(a: seq<Card>, b: seq<Card>)
    ensures TotalImpact(a + b) == TotalImpact(a) + TotalImpact(b)
  {
    if a == [] {
      assert a + b == b;
    } else {
      assert (a + b)[0] == a[0];
      assert (a + b)[1..] == a[1..] + b;
      TotalImpactAppend(a[1..], b);
    }
  }

  /** Shuffling does not change the total impact. */
  lemma {:induction false} TotalImpactPermutation(a: seq<Card>, b: seq<Card>)
    requires multiset(a) == multiset(b)
    ensures TotalImpact(a) == TotalImpact(b)
    decreases |a|
  {
    if a != [] {
      assert a[0] in multiset(b);
      var k :| 0 <= k < |b| && b[k] == a[0];
      var rest := b[..k] + b[k + 1..];
      RemoveCardCopy(b, k);
      RemoveCardImpact(b, k);
      assert a == [a[0]] + a[1..];
      assert multiset(a[1..]) == multiset(a) - multiset{a[0]};
      TotalImpactPermutation(a[1..], rest);
    }
  }

  /** Taking the card at `k` out of a deck removes its impact from the total. */
  lemma RemoveCardImpact(b: seq<Card>, k: nat)
    requires k < |b|
    ensures TotalImpact(b) == Abs(b[k].impact) + TotalImpact(b[..k] + b[k + 1..])
  {
    SplitAt(b, k);
    ImpactWithout(b[..k], b[k], b[k + 1..]);
  }

  lemma SplitAt(b: seq<Card>, k: nat)
    requires k < |b|
    ensures b == b[..k] + ([b[k]] + b[k + 1..])
  {
  }

  lemma ImpactWithout(p: seq<Card>, c: Card, q: seq<Card>)
    ensures TotalImpact(p + ([c] + q)) == Abs(c.impact) + TotalImpact(p + q)
  {
    TotalImpactAppend(p, [c] + q);
    TotalImpactAppend(p, q);
    assert ([c] + q)[1..] == q;
  }

  /** Taking the card at `k` out of a deck removes one copy of it. */
  lemma RemoveCardCopy(b: seq<Card>, k: nat)
    requires k < |b|
    ensures multiset(b[..k] + b[k + 1..]) == multiset(b) - multiset{b[k]}
  {
    assert b == b[..k] + [b[k]] + b[k + 1..];
  }

  /** The screens answering `answers` in turn: each swipe followed by the
      closing of its popup. */
  function Run(st: CCState, answers: seq<bool>): (r: CCState)
    requires Inv(st) && !st.popupActive
    ensures Inv(r) && !r.popupActive
    decreases |answers|
  {
    if answers == [] then st else Run(Close(Trigger(st, answers[0])), answers[1..])
  }

  /** Answering the rest of the deck through the screens scores exactly as
      `Play` does, and ends on the end screen. */
  lemma {:induction false} RunAgreesWithPlay(st: CCState, answers: seq<bool>)
    requires Inv(st) && !st.popupActive
    requires st.currentCardIndex + |answers| == |st.deck|
    ensures Run(st, answers).score == Play(st.score, st.deck[st.currentCardIndex..], answers)
    ensures Run(st, answers).ended
    decreases |answers|
  {
    var rest := st.deck[st.currentCardIndex..];
    if answers != [] {
      var next := Close(Trigger(st, answers[0]));
      assert rest[0] == st.deck[st.currentCardIndex];
      assert rest[1..] == st.deck[next.currentCardIndex..];
      RunAgreesWithPlay(next, answers[1..]);
    }
  }

  /** Right answers only gain: below the cap, the score climbs by the whole total impact. */
  lemma {:induction false} RightAnswersClimb(score: int, deck: seq<Card>)
    requires MinScore <= score && score + TotalImpact(deck) <= MaxScore
    ensures Play(score, deck, RightAnswers(deck)) == score + TotalImpact(deck)
    decreases |deck|
  {
    if deck != [] {
      assert RightAnswers(deck)[1..] == RightAnswers(deck[1..]);
      RightAnswersClimb(score + Abs(deck[0].impact), deck[1..]);
    }
  }

  /** Wrong answers only lose: the score falls by the total impact, but not below 300. */
  lemma {:induction false} WrongAnswersFall(score: int, deck: seq<Card>)
    requires MinScore <= score <= MaxScore
    ensures Play(score, deck, WrongAnswers(deck)) == Max(MinScore, score - TotalImpact(deck))
    decreases |deck|
  {
    if deck != [] {
      assert WrongAnswers(deck)[1..] == WrongAnswers(deck[1..]);
      WrongAnswersFall(Max(MinScore, score - Abs(deck[0].impact)), deck[1..]);
    }
  }

  /** Whatever the shuffle, a game with every answer right ends at 820 with
      the top rank and the best feedback, and a game with every answer wrong
      ends at the floor of 300. */
  lemma PerfectAndHopelessGames(shuffled: seq<Card>)
    requires IsDeal(shuffled)
    ensures Play(StartScore, shuffled, RightAnswers(shuffled)) == 820
    ensures RankOf(820) == Legend && FeedbackOf(820) == LevelCleared
    ensures Play(StartScore, shuffled, WrongAnswers(shuffled)) == MinScore
  {
    TotalImpactPermutation(shuffled, Scenarios);
    ScenariosTotal();
    RightAnswersClimb(StartScore, shuffled);
    WrongAnswersFall(StartScore, shuffled);
  }

  lemma ScenariosTotal()
    ensures TotalImpact(Scenarios) == 320
  {
    assert Scenarios == Scenarios[..5] + Scenarios[5..10] + Scenarios[10..];
    TotalImpactAppend(Scenarios[..5], Scenarios[5..10]);
    TotalImpactAppend(Scenarios[..5] + Scenarios[5..10], Scenarios[10..]);
    FirstFiveTotal();
    MiddleFiveTotal();
    LastFiveTotal();
  }

  lemma FirstFiveTotal()
    ensures TotalImpact(Scenarios[..5]) == 90
  {
    assert Scenarios[..5] == [Card(20, true), Card(-30, false), Card(15, true), Card(-10, false), Card(-15, false)];
    assert TotalImpact([Card(20, true), Card(-30, false), Card(15, true), Card(-10, false), Card(-15, false)]) == 90;
  }

  lemma MiddleFiveTotal()
    ensures TotalImpact(Scenarios[5..10]) == 120
  {
    assert Scenarios[5..10] == [Card(15, true), Card(-35, false), Card(25, true), Card(-20, false), Card(-25, false)];
    assert TotalImpact([Card(15, true), Card(-35, false), Card(25, true), Card(-20, false), Card(-25, false)]) == 120;
  }

  lemma LastFiveTotal()
    ensures TotalImpact(Scenarios[10..]) == 110
  {
    assert Scenarios[10..] == [Card(10, true), Card(-20, false), Card(-30, false), Card(10, true), Card(-40, false)];
    assert TotalImpact([Card(10, true), Card(-20, false), Card(-30, false), Card(10, true), Card(-40, false)]) == 110;
  }

  lemma DeckLength(shuffled: seq<Card>)
    requires IsDeal(shuffled)
    ensures |shuffled| == |Scenarios| == 15
  {
    assert |shuffled| == |multiset(shuffled)| == |multiset(Scenarios)| == |Scenarios|;
  }

  // ---------------------------------------------------------------------
  // The game, updated in place
  // ---------------------------------------------------------------------

  class CreditGame {
    var score: int
    var currentCardIndex: nat
    var deck: seq<Card>
    var popupActive: bool
    var ended: bool

    function Snapshot(): CCState
      reads this
    {
      CCState(score, currentCardIndex, deck, popupActive, ended)
    }

    predicate Valid()
      reads this
    {
      Inv(Snapshot())
    }

    /** `loadCreditCardSwipe`: the reset and the first card. */
    constructor (shuffled: seq<Card>)
      ensures Valid() && Snapshot() == Reset(shuffled)
    {
      score := StartScore;
      currentCardIndex := 0;
      deck := shuffled;
      popupActive := false;
      ended := false;
      new;
      RenderCard();
    }

    method RenderCard()
      modifies this
      ensures Snapshot() == Render(old(Snapshot()))
    {
      ended := currentCardIndex >= |deck|;
    }

    /** `triggerSwipe('right')` when `right`, else `triggerSwipe('left')`. */
    method TriggerSwipe(right: bool)
      requires Valid()
      modifies this
      ensures Valid() && Snapshot() == Trigger(old(Snapshot()), right)
    {
      if popupActive {
        return;
      }
      if ended {
        return;
      }
      ProcessSwipe(right);
    }

    method ProcessSwipe(accepted: bool)
      requires currentCardIndex < |deck|
      modifies this
      ensures Snapshot() == Swipe(old(Snapshot()), accepted)
    {
      var scenario := deck[currentCardIndex];
      var isCorrect := accepted == scenario.good;
      var scoreChange := if isCorrect then Abs(scenario.impact) else -Abs(scenario.impact);
      score := Max(MinScore, Min(MaxScore, score + scoreChange));
      popupActive := true;
      currentCardIndex := currentCardIndex + 1;
    }

    /** The close button of the popup. */
    method CloseClicked()
      requires Valid()
      modifies this
      ensures Valid() && Snapshot() == Close(old(Snapshot()))
    {
      popupActive := false;
      RenderCard();
    }

    /** The popup timer: closes the popup only if it is still up. */
    method PopupTimerFired()
      requires Valid()
      modifies this
      ensures Valid()
      ensures Snapshot() == if old(popupActive) then Close(old(Snapshot())) else old(Snapshot())
    {
      if popupActive {
        popupActive := false;
        RenderCard();
      }
    }
  }
}
