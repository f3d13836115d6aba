/**
 * What the score board means. A game's history is the sequence of judged
 * rounds, true for a correct answer and false for a miss (submissions with an
 * empty field are not rounds). The streak is the number of consecutive correct
 * rounds since the last miss, the best streak is the longest such run ever, and
 * the score is 30 points per correct round.
 */
module Rounds {

  const PointsPerRound := 30

  function Max(a: int, b: int): int {
    if a < b then b else a
  }

  /** Number of correct rounds. */
  function Wins(h: seq<bool>): (n: nat)
    ensures n <= |h|
  {
    if h == [] then 0 else Wins(h[..|h| - 1]) + (if h[|h| - 1] then 1 else 0)
  }

  /** Length of the run of correct rounds at the end of the history. */
  function Streak(h: seq<bool>): (n: nat)
    ensures n <= |h|
    ensures forall k :: |h| - n <= k < |h| ==> h[k]
    ensures n < |h| ==> !h[|h| - 1 - n]
  {
    if h == [] || !h[|h| - 1] then 0 else Streak(h[..|h| - 1]) + 1
  }

  /** Longest streak seen at any point of the history. */
  function Best(h: seq<bool>): (n: nat)
    ensures Streak(h) <= n <= |h|
  {
    if h == [] then 0 else Max(Best(h[..|h| - 1]), Streak(h))
  }

  /** h[i..j] is a run of correct rounds. */
  ghost predicate RunOfWins(h: seq<bool>, i: int, j: int) {
    0 <= i <= j <= |h| && forall k :: i <= k < j ==> h[k]
  }

  /** A run that reaches the end of the history is no longer than the streak. */
  lemma RunAtEndWithinStreak(h: seq<bool>, i: int)
    requires RunOfWins(h, i, |h|)
    ensures |h| - i <= Streak(h)
  {
    var n := Streak(h);
    if n < |h| {
      assert !h[|h| - 1 - n];
    }
  }

  /** The best streak is exactly the length of the longest run of correct rounds. */
  lemma {:induction false} BestIsLongestRun(h: seq<bool>)
    ensures forall i, j :: RunOfWins(h, i, j) ==> j - i <= Best(h)
    ensures exists i, j :: RunOfWins(h, i, j) && j - i == Best(h)
  {
    if h == [] {
      assert RunOfWins(h, 0, 0);
    } else {
      var p := h[..|h| - 1];
      BestIsLongestRun(p);
      forall i, j | RunOfWins(h, i, j) ensures j - i <= Best(h) {
        if j == |h| {
          RunAtEndWithinStreak(h, i);
        } else {
          assert RunOfWins(p, i, j);
        }
      }
      if Best(h) == Streak(h) {
        assert RunOfWins(h, |h| - Streak(h), |h|);
      } else {
        var i, j :| RunOfWins(p, i, j) && j - i == Best(p);
        assert RunOfWins(h, i, j);
      }
    }
  }

  /** How one more judged round changes the board. */
  lemma Record(h: seq<bool>, correct: bool)
    ensures Wins(h + [correct]) == Wins(h) + (if correct then 1 else 0)
    ensures Streak(h + [correct]) == (if correct then Streak(h) + 1 else 0)
    ensures Best(h + [correct]) == (if correct then Max(Best(h), Streak(h) + 1) else Best(h))
  {
    assert (h + [correct])[..|h|] == h;
  }
}
