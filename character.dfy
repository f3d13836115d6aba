/**
 * The unicorn character: its patrol along the x axis and the guard that lets
 * only one reaction (happy or sad) run at a time. The reaction timelines
 * themselves are not modelled; what is modelled is what happens when one is
 * asked for, and what its completion handler does.
 */
module Character {

  /** The model's rotation about the vertical axis: 0 or pi. */
  datatype Facing = FaceRight | FaceLeft

  /** Which reaction, if any, is running (the source keeps only a flag). */
  datatype Reaction = Idle | Happy | Sad

  const WalkSpeed: real := 1.2
  const LeftBound: real := -4.0
  const RightBound: real := 4.0

  /** The facing that goes with a walking direction. */
  function FacingFor(direction: int): Facing {
    if direction < 0 then FaceLeft else FaceRight
  }

  function MinReal(a: real, b: real): real {
    if a < b then a else b
  }

  function MaxReal(a: real, b: real): real {
    if a < b then b else a
  }

  class Unicorn {
    var modelLoaded: bool
    var isAnimating: bool
    var isWalking: bool
    var walkDirection: int
    var facing: Facing
    var x: real
    var z: real
    ghost var reaction: Reaction

    /** The invariant every operation keeps. */
    ghost predicate Valid()
      reads this
    {
      && (walkDirection == 1 || walkDirection == -1)
      && facing == FacingFor(walkDirection)
      && isWalking == !isAnimating
      && (isAnimating <==> reaction != Idle)
      && (isAnimating ==> modelLoaded)
      && (!modelLoaded ==> walkDirection == 1)
      // outside the patrol range the unicorn is always headed back in
      && (x >= RightBound ==> walkDirection == -1)
      && (x <= LeftBound ==> walkDirection == 1)
    }

    /** A reaction may start: none is running and the model has loaded. */
    predicate CanReact()
      reads this
    {
      !isAnimating && modelLoaded
    }

    /**
     * What asking for reaction r did: if a reaction could start, it is running
     * and patrol is paused; otherwise the flags are as they were. Nothing else
     * about the character changes either way.
     */
    twostate predicate Requested(r: Reaction)
      reads this
    {
      && walkDirection == old(walkDirection) && facing == old(facing)
      && x == old(x) && z == old(z) && modelLoaded == old(modelLoaded)
      && if old(CanReact()) then isAnimating && !isWalking && reaction == r
         else isAnimating == old(isAnimating) && isWalking == old(isWalking) && reaction == old(reaction)
    }

    /** Nothing about the character changed. */
    twostate predicate Kept()
      reads this
    {
      && modelLoaded == old(modelLoaded) && isAnimating == old(isAnimating) && isWalking == old(isWalking)
      && walkDirection == old(walkDirection) && facing == old(facing)
      && x == old(x) && z == old(z) && reaction == old(reaction)
    }

    constructor ()
      ensures Valid()
      ensures !modelLoaded && !isAnimating && isWalking && reaction == Idle
      ensures walkDirection == 1 && facing == FaceRight
    {
      modelLoaded := false;
      isAnimating := false;
      isWalking := true;
      walkDirection := 1;
      facing := FaceRight;
      x := LeftBound;
      z := 0.0;
      reaction := Idle;
    }

    /** The asset has loaded: the model starts at the left bound, facing right. */
    method LoadModel()
      requires Valid() && !modelLoaded
      modifies this
      ensures Valid() && modelLoaded
      ensures x == LeftBound && facing == FaceRight && walkDirection == 1
      ensures isAnimating == old(isAnimating) && isWalking == old(isWalking)
      ensures z == old(z) && reaction == old(reaction)
    {
      modelLoaded := true;
      x := LeftBound;
    }

    /** One frame of patrol: move by speed * dt in the walking direction, turning at a bound. */
    method UpdateWalking(dt: real)
      requires Valid()
      modifies this
      ensures Valid()
      ensures !old(modelLoaded && isWalking) ==> unchanged(this)
      ensures old(modelLoaded && isWalking) ==>
        && x == old(x) + WalkSpeed * dt * old(walkDirection) as real
        && (x >= RightBound ==> walkDirection == -1 && facing == FaceLeft)
        && (LeftBound < x < RightBound ==> walkDirection == old(walkDirection) && facing == old(facing))
        && (x <= LeftBound ==> walkDirection == 1 && facing == FaceRight)
        && modelLoaded && isWalking && !isAnimating
        && z == old(z) && reaction == old(reaction)
      // for a forward step of time: at or past a bound it walks back, and one
      // frame takes it at most one step beyond a bound
      ensures 0.0 <= dt && old(x) >= RightBound ==> x <= old(x)
      ensures 0.0 <= dt && old(x) <= LeftBound ==> x >= old(x)
      ensures 0.0 <= dt ==>
        MinReal(old(x), LeftBound - WalkSpeed * dt) <= x <= MaxReal(old(x), RightBound + WalkSpeed * dt)
    {
      if !modelLoaded || !isWalking {
        return;
      }
      x := x + WalkSpeed * dt * walkDirection as real;
      if x >= RightBound {
        walkDirection := -1;
        facing := FaceLeft;
      } else if x <= LeftBound {
        walkDirection := 1;
        facing := FaceRight;
      }
    }

    /** `playHappyAnimation`: refused while a reaction runs or before the model has loaded. */
    method PlayHappyAnimation()
      requires Valid()
      modifies this
      ensures Valid()
      ensures !old(CanReact()) ==> unchanged(this)
      ensures old(CanReact()) ==> isAnimating && !isWalking && reaction == Happy
      ensures Requested(Happy)
    {
      if isAnimating || !modelLoaded {
        return;
      }
      isAnimating := true;
      isWalking := false;
      reaction := Happy;
    }

    /** `playSadAnimation`: the same guard and the same flags as the happy reaction. */
    method PlaySadAnimation()
      requires Valid()
      modifies this
      ensures Valid()
      ensures !old(CanReact()) ==> unchanged(this)
      ensures old(CanReact()) ==> isAnimating && !isWalking && reaction == Sad
      ensures Requested(Sad)
    {
      if isAnimating || !modelLoaded {
        return;
      }
      isAnimating := true;
      isWalking := false;
      reaction := Sad;
    }

    /**
     * The `onComplete` handler of either reaction's timeline: patrol resumes,
     * the facing is set from the walking direction and z returns to 0. The
     * timeline's last steps bring x back to where the reaction started, so x
     * is as it was; the facing set here is the one the reaction started with.
     */
    method FinishReaction()
      requires Valid() && isAnimating
      modifies this
      ensures Valid()
      ensures !isAnimating && isWalking && reaction == Idle
      ensures facing == FacingFor(walkDirection) && z == 0.0
      ensures facing == old(facing)
      ensures walkDirection == old(walkDirection) && x == old(x) && modelLoaded == old(modelLoaded)
    {
      isAnimating := false;
      isWalking := true;
      reaction := Idle;
      facing := FacingFor(walkDirection);
      z := 0.0;
    }
  }
}
