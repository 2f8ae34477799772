/** Money Memory: twelve face-down cards, the term and the definition of
    six money terms; a move turns two cards, a pair showing the same term
    stays face up, and the score loses 5 for every move beyond the six a
    perfect game needs. Cards are identified by position; a card is
    represented by the id of its term, the only thing a match compares. */
module MoneyMemory {
  import opened JsMath
  import opened Records

  /** The number of terms, and so of pairs. */
  const Terms := 6

  // ---------------------------------------------------------------------
  // The deck
  // ---------------------------------------------------------------------

  /** The unshuffled deck: for each term in turn, its term card then its
      definition card, both carrying the term's index. */
  function Pairs(n: nat): (cards: seq<nat>)
    ensures |cards| == 2 * n
  {
    if n == 0 then [] else Pairs(n - 1) + [n - 1, n - 1]
  }

  /** A deck: every term id below `Terms` on exactly two of twelve cards. */
  predicate IsDeck(cards: seq<nat>)
  {
    && |cards| == 2 * Terms
    && (forall p :: 0 <= p < |cards| ==> cards[p] < Terms)
    && (forall id :: 0 <= id < Terms ==> multiset(cards)[id] == 2)
  }

  lemma {:induction false} PairsCount(n: nat, id: nat)
    ensures multiset(Pairs(n))[id] == if id < n then 2 else 0
  {
    if n > 0 {
      var prev := Pairs(n - 1);
      PairsCount(n - 1, id);
      assert Pairs(n) == prev + [n - 1, n - 1];
      assert multiset(Pairs(n))[id] == multiset(prev)[id] + multiset([n - 1, n - 1])[id];
      assert multiset([n - 1, n - 1])[id] == if id == n - 1 then 2 else 0;
    }
  }

  lemma {:induction false} PairsBelow(n: nat)
    ensures forall p :: 0 <= p < |Pairs(n)| ==> Pairs(n)[p] < n
  {
    if n > 0 {
      PairsBelow(n - 1);
      var prev := Pairs(n - 1);
      assert Pairs(n) == prev + [n - 1, n - 1];
      forall p | 0 <= p < |Pairs(n)|
        ensures Pairs(n)[p] < n
      {
        if p < |prev| {
          assert Pairs(n)[p] == prev[p];
        }
      }
    }
  }

  /** However the twelve cards are shuffled, the result is a deck. */
  lemma ShuffledPairsAreDeck(shuffled: seq<nat>)
    requires multiset(shuffled) == multiset(Pairs(Terms))
    ensures IsDeck(shuffled)
  {
    var built := Pairs(Terms);
    assert |shuffled| == |multiset(shuffled)| == |multiset(built)| == |built|;
    forall id | 0 <= id < Terms
      ensures multiset(shuffled)[id] == 2
    {
      PairsCount(Terms, id);
    }
    PairsBelow(Terms);
    forall p | 0 <= p < |shuffled|
      ensures shuffled[p] < Terms
    {
      assert shuffled[p] in multiset(built);
      var q :| 0 <= q < |built| && built[q] == shuffled[p];
    }
  }

  // ---------------------------------------------------------------------
  // The board
  // ---------------------------------------------------------------------

  /** `gameState` with the classes of the cards: the cards turned in the
      current move, the cards showing their face ('flipped'), the cards of
      found pairs ('matched'), the term ids found, and the moves made. */
  datatype Memory = Memory(flipped: seq<nat>, faceUp: set<nat>, matchedCards: set<nat>, matched: seq<nat>, clicks: nat)

  /** At most two cards are turned in a move, both real, distinct and not
      yet matched, and two only while a mismatch waits to be turned back;
      exactly the matched and the turned cards show their face; every found
      pair took its own move and marks two cards. */
  predicate Inv(m: Memory, cards: seq<nat>)
  {
    && |m.flipped| <= 2
    && (forall k :: 0 <= k < |m.flipped| ==> m.flipped[k] < |cards| && m.flipped[k] !in m.matchedCards)
    && (|m.flipped| == 2 ==> m.flipped[0] != m.flipped[1] && cards[m.flipped[0]] != cards[m.flipped[1]])
    && (forall p :: p in m.faceUp ==> p in m.matchedCards || p in m.flipped)
    && (forall p :: p in m.matchedCards ==> p in m.faceUp)
    && (forall p :: p in m.flipped ==> p in m.faceUp)
    && (forall p :: p in m.matchedCards ==> p < |cards|)
    && |m.matchedCards| == 2 * |m.matched|
    && m.clicks >= |m.matched|
  }

  /** A fresh board: every card face down, no move made. */
  function Initial(): (m: Memory)
    ensures forall cards :: Inv(m, cards)
    ensures m.faceUp == {} && m.clicks == 0
  {
    Memory([], {}, {}, [], 0)
  }

  /** The score of a finished game: 100, less 5 for each move beyond six,
      never below 0. */
  function MemoryScore(clicks: int): (s: int)
    ensures 0 <= s
    ensures clicks >= Terms ==> s <= 100
    ensures clicks >= Terms ==> (s == 100 <==> clicks == Terms)
    ensures s == 0 <==> clicks >= Terms + 20
  {
    Max(0, 100 - (clicks - Terms) * 5)
  }

  /** More moves never score more. */
  lemma ScoreFallsWithMoves(c1: int, c2: int)
    requires c1 <= c2
    ensures MemoryScore(c2) <= MemoryScore(c1)
  {
  }

  /** A board after an event, and the score handed to `finishGame` when the
      event found the last pair. */
  datatype Step = Step(next: Memory, finished: Option<int>)

  /** `flipCard` ignores the click while two cards are turned or when the
      card already shows its face or is matched. */
  predicate Accepts(m: Memory, i: nat)
  {
    |m.flipped| < 2 && i !in m.faceUp && i !in m.matchedCards
  }

  /** `checkMatch` on the two turned cards: the same term makes them a
      found pair and ends the move; the last pair finishes the game. A
      mismatch stays on the board until its timer. */
  function CheckMatch(m: Memory, cards: seq<nat>): (r: Step)
    requires |m.flipped| == 2 && m.flipped[0] != m.flipped[1]
    requires forall k :: 0 <= k < 2 ==> m.flipped[k] < |cards| && m.flipped[k] !in m.matchedCards
    requires forall p :: p in m.faceUp ==> p in m.matchedCards || p in m.flipped
    requires forall p :: p in m.matchedCards ==> p in m.faceUp
    requires forall p :: p in m.flipped ==> p in m.faceUp
    requires forall p :: p in m.matchedCards ==> p < |cards|
    requires |m.matchedCards| == 2 * |m.matched| && m.clicks >= |m.matched| + 1
    ensures Inv(r.next, cards)
    ensures cards[m.flipped[0]] == cards[m.flipped[1]] ==>
      && r.next.flipped == [] && r.next.faceUp == m.faceUp
      && r.next.matchedCards == m.matchedCards + {m.flipped[0], m.flipped[1]}
      && r.next.matched == m.matched + [cards[m.flipped[0]]]
    ensures cards[m.flipped[0]] != cards[m.flipped[1]] ==> r.next == m
    ensures r.next.clicks == m.clicks
    ensures r.finished.Some? <==> cards[m.flipped[0]] == cards[m.flipped[1]] && |m.matched| + 1 == Terms
    ensures r.finished.Some? ==> r.finished.value == MemoryScore(m.clicks)
  {
    var a, b := m.flipped[0], m.flipped[1];
    if cards[a] == cards[b] then
      var next := m.(matchedCards := m.matchedCards + {a, b}, matched := m.matched + [cards[a]], flipped := []);
      assert next.faceUp == m.matchedCards + {a, b};
      Step(next, if |next.matched| == Terms then Some(MemoryScore(next.clicks)) else None)
    else
      Step(m, None)
  }

  /** `flipCard`: an accepted click turns the card; turning the second card
      of a move counts the move and checks the pair. */
  function Flip(m: Memory, cards: seq<nat>, i: nat): (r: Step)
    requires Inv(m, cards) && i < |cards|
    ensures Inv(r.next, cards)
  {
    if !Accepts(m, i) then Step(m, None)
    else
      var turned := m.(faceUp := m.faceUp + {i}, flipped := m.flipped + [i]);
      if |turned.flipped| == 2 then CheckMatch(turned.(clicks := m.clicks + 1), cards)
      else Step(turned, None)
  }

  /** The mismatch timer: both cards are turned face down and the move ends. */
  function Unflip(m: Memory, cards: seq<nat>): (r: Memory)
    requires Inv(m, cards) && |m.flipped| == 2
    ensures Inv(r, cards)
    ensures r.faceUp == m.matchedCards && r.flipped == []
    ensures r.matchedCards == m.matchedCards && r.matched == m.matched && r.clicks == m.clicks
  {
    m.(faceUp := m.faceUp - {m.flipped[0], m.flipped[1]}, flipped := [])
  }

  // ---------------------------------------------------------------------
  // What the rules promise
  // ---------------------------------------------------------------------

  /** A move is counted exactly when an accepted click turns the second card. */
  lemma MoveCountedOnSecondCard(m: Memory, cards: seq<nat>, i: nat)
    requires Inv(m, cards) && i < |cards|
    ensures Flip(m, cards, i).next.clicks == m.clicks + (if Accepts(m, i) && |m.flipped| == 1 then 1 else 0)
  {
  }

  /** A refused click changes nothing. */
  lemma RefusedClickIsIgnored(m: Memory, cards: seq<nat>, i: nat)
    requires Inv(m, cards) && i < |cards| && !Accepts(m, i)
    ensures Flip(m, cards, i) == Step(m, None)
  {
  }

  /** The second card makes a pair exactly when it shows the same term as
      the first: then both stay face up and the term is found; otherwise
      both wait face up for the timer, which turns them back. */
  lemma PairIffSameTerm(m: Memory, cards: seq<nat>, i: nat)
    requires Inv(m, cards) && i < |cards| && Accepts(m, i) && |m.flipped| == 1
    ensures var r := Flip(m, cards, i).next;
      && (cards[m.flipped[0]] == cards[i] <==> r.matched == m.matched + [cards[i]])
      && (cards[m.flipped[0]] == cards[i] ==> r.flipped == [] && r.matchedCards == m.matchedCards + {m.flipped[0], i})
      && (cards[m.flipped[0]] != cards[i] ==> r.flipped == m.flipped + [i] && Unflip(r, cards).faceUp == m.matchedCards)
  {
  }

  /** The game finishes on the sixth pair, and its score is between 0 and
      100, exactly 100 for six moves. */
  lemma FinishScore(m: Memory, cards: seq<nat>, i: nat)
    requires Inv(m, cards) && i < |cards|
    requires Flip(m, cards, i).finished.Some?
    ensures var r := Flip(m, cards, i);
      && |r.next.matched| == Terms
      && r.finished.value == MemoryScore(r.next.clicks)
      && 0 <= r.finished.value <= 100
      && (r.finished.value == 100 <==> r.next.clicks == Terms)
  {
  }

  /** The cards below `n`. */
  function Positions(n: nat): (s: set<nat>)
    ensures forall p: nat :: p in s <==> p < n
    ensures |s| == n
  {
    if n == 0 then {}
    else
      var below := Positions(n - 1);
      assert n - 1 !in below;
      below + {n - 1}
  }

  lemma SubsetSize(a: set<nat>, b: set<nat>)
    requires a <= b
    ensures |a| <= |b|
  {
    assert b == a + (b - a);
    assert a * (b - a) == {};
  }

  lemma {:induction false} FullSubset(s: set<nat>, n: nat)
    requires forall p :: p in s ==> p < n
    requires |s| == n
    ensures forall p: nat :: p < n ==> p in s
  {
    forall p: nat | p < n
      ensures p in s
    {
      if p !in s {
        assert s <= Positions(n) - {p};
        var all := Positions(n);
        assert p in all;
        assert all == (all - {p}) + {p};
        assert |all - {p}| == n - 1;
        SubsetSize(s, Positions(n) - {p});
        assert false;
      }
    }
  }

  /** Once the six pairs are found every card is matched, so no click is
      accepted any more: the game finishes at most once. */
  lemma FinishedBoardIgnoresClicks(m: Memory, cards: seq<nat>, i: nat)
    requires Inv(m, cards) && IsDeck(cards) && |m.matched| == Terms && i < |cards|
    ensures Flip(m, cards, i) == Step(m, None)
  {
    FullSubset(m.matchedCards, |cards|);
  }

  /** The event that finishes the game leaves a board that ignores every click. */
  lemma FinishesOnce(m: Memory, cards: seq<nat>, i: nat, j: nat)
    requires Inv(m, cards) && IsDeck(cards) && i < |cards| && j < |cards|
    requires Flip(m, cards, i).finished.Some?
    ensures var r := Flip(m, cards, i).next;
      Flip(r, cards, j) == Step(r, None)
  {
    FinishedBoardIgnoresClicks(Flip(m, cards, i).next, cards, j);
  }

  // ---------------------------------------------------------------------
  // The game, updated in place
  // ---------------------------------------------------------------------

  class Game {
    const cards: seq<nat>
    var flipped: seq<nat>
    var faceUp: set<nat>
    var matchedCards: set<nat>
    var matched: seq<nat>
    var clicks: nat

    function Snapshot(): Memory
      reads this
    {
      Memory(flipped, faceUp, matchedCards, matched, clicks)
    }

    predicate Valid()
      reads this
    {
      Inv(Snapshot(), cards)
    }

    /** `loadMoneyMemory` with the shuffled deck given. */
    constructor (shuffled: seq<nat>)
      requires IsDeck(shuffled)
      ensures Valid() && cards == shuffled && Snapshot() == Initial()
    {
      cards := shuffled;
      flipped := [];
      faceUp := {};
      matchedCards := {};
      matched := [];
      clicks := 0;
    }

    /** A click on card `i`; the score comes back when the last pair is found. */
    method FlipCard(i: nat) returns (finished: Option<int>)
      requires Valid() && i < |cards|
      modifies this
      ensures Valid() && Step(Snapshot(), finished) == Flip(old(Snapshot()), cards, i)
    {
      ghost var m0 := Snapshot();
      if |flipped| >= 2 || i in faceUp || i in matchedCards {
        return None;
      }
      faceUp := faceUp + {i};
      flipped := flipped + [i];
      if |flipped| == 2 {
        clicks := clicks + 1;
        ghost var m1 := Snapshot();
        assert m1 == m0.(faceUp := m0.faceUp + {i}, flipped := m0.flipped + [i], clicks := m0.clicks + 1);
        finished := CheckPair();
        assert Step(Snapshot(), finished) == CheckMatch(m1, cards);
      } else {
        finished := None;
        assert Snapshot() == m0.(faceUp := m0.faceUp + {i}, flipped := m0.flipped + [i]);
      }
    }

    method CheckPair() returns (finished: Option<int>)
      requires |flipped| == 2 && flipped[0] != flipped[1]
      requires forall k :: 0 <= k < 2 ==> flipped[k] < |cards| && flipped[k] !in matchedCards
      requires forall p :: p in faceUp ==> p in matchedCards || p in flipped
      requires forall p :: p in matchedCards ==> p in faceUp
      requires forall p :: p in flipped ==> p in faceUp
      requires forall p :: p in matchedCards ==> p < |cards|
      requires |matchedCards| == 2 * |matched| && clicks >= |matched| + 1
      modifies this
      ensures Step(Snapshot(), finished) == CheckMatch(old(Snapshot()), cards)
    {
      var a, b := flipped[0], flipped[1];
      if cards[a] == cards[b] {
        matchedCards := matchedCards + {a, b};
        matched := matched + [cards[a]];
        flipped := [];
        if |matched| == Terms {
          finished := Some(Max(0, 100 - (clicks - Terms) * 5));
        } else {
          finished := None;
        }
      } else {
        finished := None;
      }
    }

    /** The timer of a mismatch. */
    method MismatchTimerFired()
      requires Valid() && |flipped| == 2
      modifies this
      ensures Valid() && Snapshot() == Unflip(old(Snapshot()), cards)
    {
      ghost var m0 := Snapshot();
      faceUp := faceUp - {flipped[0], flipped[1]};
      flipped := [];
      assert Snapshot() == Unflip(m0, cards);
    }
  }
}
