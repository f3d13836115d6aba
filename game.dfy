/**
 * The quiz controller: the current number, the score board, the three answer
 * fields and what submitting, refreshing and clearing do to them. Work that
 * the source defers with a timer (the advance after a correct answer, the
 * clearing after a miss, a reaction's completion) is a method of its own that
 * the environment calls when the timer fires.
 */
module Game {
  import opened Wrappers
  import opened Rounds
  import opened Quiz
  import opened Character

  class NumberGame {
    var currentNumber: int
    var score: int
    var streak: int
    var bestStreak: int
    /** The three answer fields, first to third; None is a field that parses to NaN. */
    const inputs: array<Option<int>>
    /** The fields currently drawn with the red "wrong" style. */
    var highlighted: set<nat>
    const unicorn: Unicorn
    /** Every judged round so far, true for correct. */
    ghost var rounds: seq<bool>

    ghost predicate Valid()
      reads this, inputs, unicorn
    {
      && inputs.Length == 3
      && (forall i :: i in highlighted ==> i < 3)
      && currentNumber >= Lowest
      && score == PointsPerRound * Wins(rounds)
      && streak == Streak(rounds)
      && bestStreak == Best(rounds)
      && unicorn.Valid()
    }

    /** The current number and the score board are as they were. */
    twostate predicate SameBoard()
      reads this
    {
      && currentNumber == old(currentNumber) && score == old(score)
      && streak == old(streak) && bestStreak == old(bestStreak) && rounds == old(rounds)
    }

    /** What a correct round did, before the deferred advance. */
    twostate predicate ScoredCorrect()
      reads this, inputs, unicorn
    {
      && rounds == old(rounds) + [true]
      && streak == old(streak) + 1
      && bestStreak == Max(old(bestStreak), streak)
      && score == old(score) + PointsPerRound
      && currentNumber == old(currentNumber)
      && inputs[..] == [None, None, None] && highlighted == {}
      && unicorn.Requested(Happy)
    }

    /** What a missed round did to the board and the character, before the deferred clearing. */
    twostate predicate ScoredMiss()
      reads this, inputs, unicorn
    {
      && rounds == old(rounds) + [false]
      && streak == 0
      && bestStreak == old(bestStreak) && score == old(score)
      && currentNumber == old(currentNumber)
      && inputs[..] == old(inputs[..])
      && unicorn.Requested(Sad)
    }

    /** Start-up: a drawn number, an empty board and empty fields; the asset is still loading. */
    constructor (u: real)
      requires 0.0 <= u < 1.0
      ensures Valid() && fresh(inputs) && fresh(unicorn)
      ensures currentNumber == DrawNumber(u)
      ensures score == 0 && streak == 0 && bestStreak == 0 && rounds == []
      ensures inputs[..] == [None, None, None] && highlighted == {}
      ensures !unicorn.modelLoaded && !unicorn.isAnimating
    {
      currentNumber := DrawNumber(u);
      score := 0;
      streak := 0;
      bestStreak := 0;
      inputs := new Option<int>[3](_ => None);
      highlighted := {};
      unicorn := new Unicorn();
      rounds := [];
    }

    /** The player types into field i (the browser's doing, not the game's). */
    method EnterAnswer(i: nat, value: Option<int>)
      requires Valid() && i < 3
      modifies inputs
      ensures Valid()
      ensures inputs[..] == old(inputs[..])[i := value]
    {
      inputs[i] := value;
    }

    /** `clearInputs`: every field emptied and its style reset. */
    method ClearInputs()
      requires Valid()
      modifies this, inputs
      ensures Valid() && SameBoard()
      ensures inputs[..] == [None, None, None] && highlighted == {}
    {
      for i := 0 to inputs.Length
        invariant forall k :: 0 <= k < i ==> inputs[k] == None
        invariant forall k :: k in highlighted ==> i <= k < 3
        invariant SameBoard()
      {
        inputs[i] := None;
        highlighted := highlighted - {i};
      }
    }

    /** Escape in the focused field: that field is emptied and its style reset. */
    method ClearActiveInput(focused: Option<nat>)
      requires Valid() && (focused.Some? ==> focused.value < 3)
      modifies this, inputs
      ensures Valid() && SameBoard()
      ensures focused.None? ==> inputs[..] == old(inputs[..]) && highlighted == old(highlighted)
      ensures focused.Some? ==>
        && inputs[..] == old(inputs[..])[focused.value := None]
        && highlighted == old(highlighted) - {focused.value}
    {
      if focused.Some? {
        inputs[focused.value] := None;
        highlighted := highlighted - {focused.value};
      }
    }

    /**
     * The score board after a correct round: the streak grows by one, the
     * best streak follows it when exceeded and the score grows by 30.
     */
    method RecordWin()
      requires Valid()
      modifies this
      ensures Valid()
      ensures rounds == old(rounds) + [true]
      ensures streak == old(streak) + 1 && bestStreak == Max(old(bestStreak), streak)
      ensures score == old(score) + PointsPerRound
      ensures currentNumber == old(currentNumber) && highlighted == old(highlighted)
    {
      Record(rounds, true);
      rounds := rounds + [true];
      streak := streak + 1;
      if streak > bestStreak {
        bestStreak := streak;
      }
      score := score + PointsPerRound;
    }

    /** The score board after a miss: the streak returns to 0, the rest stays. */
    method RecordMiss()
      requires Valid()
      modifies this
      ensures Valid()
      ensures rounds == old(rounds) + [false]
      ensures streak == 0 && bestStreak == old(bestStreak) && score == old(score)
      ensures currentNumber == old(currentNumber) && highlighted == old(highlighted)
    {
      Record(rounds, false);
      rounds := rounds + [false];
      streak := 0;
    }

    /** `handleCorrectSequence`, without the part it defers. */
    method HandleCorrectSequence()
      requires Valid()
      modifies this, inputs, unicorn
      ensures Valid() && ScoredCorrect()
    {
      RecordWin();
      unicorn.PlayHappyAnimation();
      ClearInputs();
    }

    /** The deferred part of `handleCorrectSequence`: move on three numbers, empty fields. */
    method AdvanceToNextSequence()
      requires Valid()
      modifies this, inputs
      ensures Valid()
      ensures currentNumber == old(currentNumber) + 3
      ensures score == old(score) && streak == old(streak) && bestStreak == old(bestStreak)
      ensures rounds == old(rounds)
      ensures inputs[..] == [None, None, None] && highlighted == {}
    {
      currentNumber := currentNumber + 3;
      ClearInputs();
    }

    /**
     * `handleIncorrectSequence`, without the part it defers; that part is
     * `ClearInputs` and keeps the current number, so the player retries it.
     */
    method HandleIncorrectSequence()
      requires Valid()
      modifies this, unicorn
      ensures Valid() && ScoredMiss()
      ensures highlighted == old(highlighted)
    {
      RecordMiss();
      unicorn.PlaySadAnimation();
    }

    /** The red style put on each field whose position is listed in wrong. */
    method Highlight(wrong: seq<nat>)
      requires Valid() && forall k :: k in wrong ==> k < 3
      modifies this
      ensures Valid() && SameBoard()
      ensures highlighted == old(highlighted) + (set k | k in wrong)
    {
      for i := 0 to inputs.Length
        invariant highlighted == old(highlighted) + (set k | k in wrong && k < i)
        invariant SameBoard()
      {
        if i in wrong {
          highlighted := highlighted + {i};
        }
      }
      assert (set k | k in wrong && k < 3) == (set k | k in wrong);
    }

    /** `checkAnswers`: judge the fields against the three numbers after the current one. */
    method CheckAnswers() returns (v: Verdict)
      requires Valid()
      modifies this, inputs, unicorn
      ensures Valid()
      ensures v == Judge(old(inputs[..]), old(currentNumber))
      ensures v.MissingInput? ==> unchanged(this, inputs, unicorn)
      ensures v.Correct? ==> ScoredCorrect()
      ensures v.Incorrect? ==> ScoredMiss() && highlighted == old(highlighted) + (set k | k in v.wrong)
    {
      v := Judge(inputs[..], currentNumber);
      match v
      case MissingInput =>
        return;
      case Correct =>
        HandleCorrectSequence();
      case Incorrect(wrong) =>
        Highlight(wrong);
        HandleIncorrectSequence();
    }

    /** `refreshNumber` for a draw u of `Math.random()`: a new number, empty fields, the same board. */
    method RefreshNumber(u: real)
      requires Valid() && 0.0 <= u < 1.0
      modifies this, inputs
      ensures Valid()
      ensures currentNumber == DrawNumber(u) && Lowest <= currentNumber <= Lowest + Choices - 1
      ensures score == old(score) && streak == old(streak) && bestStreak == old(bestStreak)
      ensures rounds == old(rounds)
      ensures inputs[..] == [None, None, None] && highlighted == {}
    {
      currentNumber := DrawNumber(u);
      ClearInputs();
    }

    /**
     * `checkAnswers` run twice in a row. The first run decides the round; the
     * second finds the fields emptied after a correct answer, or the same
     * fields wrong again after a miss, which then counts as a second miss.
     */
    method CheckAnswersTwice() returns (first: Verdict, second: Verdict)
      requires Valid()
      modifies this, inputs, unicorn
      ensures Valid()
      ensures first == Judge(old(inputs[..]), old(currentNumber))
      ensures first.MissingInput? ==> second == MissingInput && unchanged(this, inputs, unicorn)
      ensures first.Correct? ==> second == MissingInput && ScoredCorrect()
      ensures first.Incorrect? ==>
        && second == first
        && rounds == old(rounds) + [false, false] && streak == 0
        && score == old(score) && bestStreak == old(bestStreak)
        && currentNumber == old(currentNumber) && inputs[..] == old(inputs[..])
        && highlighted == old(highlighted) + (set k | k in first.wrong)
        && unicorn.Requested(Sad)
    {
      first := CheckAnswers();
      if !first.Correct? {
        assert inputs[..] == old(inputs[..]) && currentNumber == old(currentNumber);
      }
      second := CheckAgain(first);
    }

    /**
     * `checkAnswers` run again straight after a check whose verdict was
     * `previous`, on the fields and the number that check left: after a
     * correct answer the fields are empty; otherwise they are unchanged, and
     * after a miss the sad reaction is running or was refused.
     */
    method CheckAgain(previous: Verdict) returns (v: Verdict)
      requires Valid()
      requires previous.Correct? ==> inputs[..] == [None, None, None]
      requires !previous.Correct? ==> Judge(inputs[..], currentNumber) == previous
      requires previous.Incorrect? ==> !unicorn.CanReact()
      modifies this, inputs, unicorn
      ensures Valid()
      ensures v == if previous.Correct? then MissingInput else previous
      ensures !previous.Incorrect? ==> unchanged(this, inputs, unicorn)
      ensures previous.Incorrect? ==>
        ScoredMiss() && highlighted == old(highlighted) + (set k | k in previous.wrong) && unicorn.Kept()
    {
      v := CheckAnswers();
    }

    /**
     * Enter as the page handles it. The keydown event reaches the focused
     * field's own listener first and then bubbles up to the document's
     * listener, and both act on it. In the third field both of them run the
     * check. In the first two fields the field's listener only moves the focus
     * (not modelled), and the document's listener still runs the check. Each
     * check reports its verdict as a message, so the last verdict is the one
     * the player sees.
     */
    method PressEnter(field: Option<nat>) returns (verdicts: seq<Verdict>)
      requires Valid() && (field.Some? ==> field.value < 3)
      modifies this, inputs, unicorn
      ensures Valid()
      ensures |verdicts| == if field == Some(2) then 2 else 1
      ensures verdicts[0] == Judge(old(inputs[..]), old(currentNumber))
      // a correct answer typed into the third field is scored once, and then
      // reported as having an empty field
      ensures field == Some(2) && verdicts[0].Correct? ==>
        verdicts == [Correct, MissingInput] && ScoredCorrect()
      // a wrong one is judged, and the same fields found wrong, twice: the
      // round is counted as two misses
      ensures field == Some(2) && verdicts[0].Incorrect? ==>
        && verdicts[1] == verdicts[0]
        && rounds == old(rounds) + [false, false] && streak == 0
        && score == old(score) && bestStreak == old(bestStreak)
        && currentNumber == old(currentNumber) && inputs[..] == old(inputs[..])
        && highlighted == old(highlighted) + (set k | k in verdicts[0].wrong)
        && unicorn.Requested(Sad)
      // one check, in the first two fields or with no field focused
      ensures field != Some(2) && verdicts[0].Correct? ==> ScoredCorrect()
      ensures field != Some(2) && verdicts[0].Incorrect? ==>
        ScoredMiss() && highlighted == old(highlighted) + (set k | k in verdicts[0].wrong)
      // with a field empty nothing changes, and every check says so
      ensures verdicts[0].MissingInput? ==>
        (forall i :: 0 <= i < |verdicts| ==> verdicts[i] == MissingInput) && unchanged(this, inputs, unicorn)
      ensures bestStreak >= old(bestStreak) && old(rounds) <= rounds
    {
      if field == Some(2) {
        var first, second := CheckAnswersTwice();
        verdicts := [first, second];
      } else {
        var v := CheckAnswers();
        verdicts := [v];
      }
    }

    /**
     * Enter handled once, as evidently intended: by the focused field's
     * listener when a field has focus (the first two move the focus on, the
     * third checks the answers), by the document's listener otherwise.
     */
    method PressEnterOnce(field: Option<nat>) returns (verdicts: seq<Verdict>)
      requires Valid() && (field.Some? ==> field.value < 3)
      modifies this, inputs, unicorn
      ensures Valid()
      ensures field == Some(0) || field == Some(1) ==> verdicts == [] && unchanged(this, inputs, unicorn)
      ensures field.None? || field == Some(2) ==> verdicts == [Judge(old(inputs[..]), old(currentNumber))]
      ensures verdicts == [Correct] ==> ScoredCorrect()
      ensures verdicts == [MissingInput] ==> unchanged(this, inputs, unicorn)
      ensures |verdicts| == 1 && verdicts[0].Incorrect? ==>
        ScoredMiss() && highlighted == old(highlighted) + (set k | k in verdicts[0].wrong)
      ensures bestStreak >= old(bestStreak) && old(rounds) <= rounds
    {
      if field == Some(0) || field == Some(1) {
        return [];
      }
      var v := CheckAnswers();
      verdicts := [v];
    }
  }

  /** A game whose first number is 19, with the asset loaded. */
  method ExampleStartAtNineteen() returns (game: NumberGame)
    ensures game.Valid() && fresh(game) && fresh(game.inputs) && fresh(game.unicorn)
    ensures game.currentNumber == 19 && game.score == 0 && game.streak == 0 && game.bestStreak == 0
    ensures game.unicorn.CanReact()
  {
    Quiz.DrawPreimage(8.0 / 89.0, 19);
    game := new NumberGame(8.0 / 89.0);
    game.unicorn.LoadModel();
  }

  /**
   * In that game, 20, 21, 22 is correct and the game advances to 22; the
   * happy reaction starts.
   */
  method ExampleFromNineteen() returns (game: NumberGame)
    ensures game.Valid()
    ensures game.currentNumber == 22 && game.score == 30 && game.streak == 1 && game.bestStreak == 1
    ensures game.unicorn.reaction == Happy
  {
    game := ExampleStartAtNineteen();
    game.EnterAnswer(0, Some(20));
    game.EnterAnswer(1, Some(21));
    game.EnterAnswer(2, Some(22));
    assert game.inputs[..] == [Some(20), Some(21), Some(22)];
    NextThreeAreCorrect(19);
    var v := game.CheckAnswers();
    assert game.score == 30 && game.streak == 1 && game.bestStreak == 1;
    assert game.unicorn.reaction == Happy;
    game.AdvanceToNextSequence();
  }

  /**
   * Continuing that game: 1, 2, 3 is a miss with all three fields wrong. It
   * comes while the happy reaction still runs, so no sad reaction starts.
   */
  method ExampleMissAtTwentyTwo(game: NumberGame)
    requires game.Valid() && game.currentNumber == 22 && game.bestStreak == 1 && game.score == 30
    requires game.unicorn.reaction == Happy
    modifies game, game.inputs, game.unicorn
  {
    game.EnterAnswer(0, Some(1));
    game.EnterAnswer(1, Some(2));
    game.EnterAnswer(2, Some(3));
    assert game.inputs[..] == [Some(1), Some(2), Some(3)];
    var v := game.CheckAnswers();
    assert v.Incorrect? && 0 in v.wrong && 1 in v.wrong && 2 in v.wrong;
    assert game.currentNumber == 22 && game.streak == 0 && game.bestStreak == 1 && game.score == 30;
    assert game.unicorn.reaction == Happy;
    game.unicorn.FinishReaction();
    assert game.unicorn.isWalking && !game.unicorn.isAnimating;
  }

  /**
   * The right answers typed and Enter pressed in the third field: the round is
   * scored once, and the message left on screen asks for the missing numbers.
   */
  method ExampleEnterInThirdField(game: NumberGame)
    requires game.Valid()
    modifies game, game.inputs, game.unicorn
  {
    var n := game.currentNumber;
    game.EnterAnswer(0, Some(n + 1));
    game.EnterAnswer(1, Some(n + 2));
    game.EnterAnswer(2, Some(n + 3));
    assert game.inputs[..] == [Some(n + 1), Some(n + 2), Some(n + 3)];
    NextThreeAreCorrect(n);
    var seen := game.PressEnter(Some(2));
    assert seen == [Correct, MissingInput];
  }

  /** The same with Enter handled once: the round is scored and reported as correct. */
  method ExampleEnterOnceInThirdField(game: NumberGame)
    requires game.Valid()
    modifies game, game.inputs, game.unicorn
  {
    var n := game.currentNumber;
    game.EnterAnswer(0, Some(n + 1));
    game.EnterAnswer(1, Some(n + 2));
    game.EnterAnswer(2, Some(n + 3));
    assert game.inputs[..] == [Some(n + 1), Some(n + 2), Some(n + 3)];
    NextThreeAreCorrect(n);
    var seen := game.PressEnterOnce(Some(2));
    assert seen == [Correct];
  }
}
