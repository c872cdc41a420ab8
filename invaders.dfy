/**
 * The marching invaders of the Week 1 SDL exercise (sdl_invaders.cpp): the 4 x 5 grid the game
 * starts from, updateInvaders' horizontal and vertical steps with the global direction flag, and
 * the launcher's clamped left/right movement.
 *
 * The game's state is a class: the invader rectangles (a fixed-size vector, so an array), the
 * global invaderDir, the launcher rectangle and the frame counter. Keyboard state is a
 * parameter of each frame; rendering, timing and events are not modelled.
 */
module Invaders {

  // ---------------------------------------------------------------------------
  // Constants

  const WinWidth: int := 1024
  const WinHeight: int := 768

  const InvaderNRows: int := 4
  const InvaderNCols: int := 5
  const InvaderSize: int := 50
  const InvaderSeparation: int := 20
  const InvaderInitX: int := 50
  const InvaderInitY: int := 50
  const InvaderFrameStep: int := 30
  const InvaderStepSize: int := 25
  /** How many horizontal steps fit between the grid and the window's right margin. */
  const InvaderHorzSteps: int :=
    (WinWidth - 2 * InvaderInitX - InvaderNCols * (InvaderSize + InvaderSeparation)) / InvaderStepSize

  const LauncherSize: int := 50
  const LauncherY: int := WinHeight - 50 - LauncherSize
  const LauncherMinX: int := 50
  const LauncherMaxX: int := WinWidth - LauncherMinX - LauncherSize
  const LauncherMoveSpeed: int := 4

  /** The integer division gives 22 steps, so a row of invaders sweeps 550 pixels. */
  lemma HorzStepsValue()
    ensures InvaderHorzSteps == 22
    ensures InvaderHorzSteps * InvaderStepSize == 550
    ensures LauncherMaxX == 924 && LauncherY == 668
  {
  }

  /** An SDL_Rect. */
  datatype Rect = Rect(x: int, y: int, w: int, h: int)

  /** The rectangle moved by (dx, dy). */
  function Translate(r: Rect, dx: int, dy: int): Rect
  {
    r.(x := r.x + dx, y := r.y + dy)
  }

  /** Every rectangle moved by the same (dx, dy). */
  function Shifted(rs: seq<Rect>, dx: int, dy: int): seq<Rect>
  {
    seq(|rs|, i requires 0 <= i < |rs| => Translate(rs[i], dx, dy))
  }

  /**
   * Moving every invader by one delta keeps their number, their sizes and every pairwise
   * offset between them.
   */
  lemma ShiftedKeepsFormation(rs: seq<Rect>, dx: int, dy: int)
    ensures |Shifted(rs, dx, dy)| == |rs|
    ensures forall i :: 0 <= i < |rs| ==>
              Shifted(rs, dx, dy)[i].w == rs[i].w && Shifted(rs, dx, dy)[i].h == rs[i].h
    ensures forall i, j :: 0 <= i < |rs| && 0 <= j < |rs| ==>
              Shifted(rs, dx, dy)[i].x - Shifted(rs, dx, dy)[j].x == rs[i].x - rs[j].x &&
              Shifted(rs, dx, dy)[i].y - Shifted(rs, dx, dy)[j].y == rs[i].y - rs[j].y
  {
  }

  // ---------------------------------------------------------------------------
  // The grid

  /** The rectangle the set-up loop gives the invader in row r, column c. */
  function GridRect(r: int, c: int): Rect
  {
    Rect(InvaderInitX + c * (InvaderSize + InvaderSeparation),
         InvaderInitY + r * (InvaderSize + InvaderSeparation),
         InvaderSize, InvaderSize)
  }

  /** The vector index the set-up loop writes row r, column c to. */
  function GridIndex(r: int, c: int): int
  {
    r * InvaderNCols + c
  }

  /** The rectangle of the invader at vector index i. */
  function InvaderHome(i: int): Rect
  {
    GridRect(i / InvaderNCols, i % InvaderNCols)
  }

  /** The invader written to row r, column c is found there again. */
  lemma HomeOfGridIndex(r: int, c: int)
    requires 0 <= r && 0 <= c < InvaderNCols
    ensures InvaderHome(GridIndex(r, c)) == GridRect(r, c)
  {
    assert GridIndex(r, c) / InvaderNCols == r && GridIndex(r, c) % InvaderNCols == c;
  }

  /**
   * The set-up loop's indices cover 0..19 exactly once: each (row, column) pair lands in range,
   * distinct pairs land on distinct indices, and every index is reached from its own row and
   * column.
   */
  lemma GridIndexBijective()
    ensures forall r, c :: 0 <= r < InvaderNRows && 0 <= c < InvaderNCols ==>
              0 <= GridIndex(r, c) < InvaderNRows * InvaderNCols
    ensures forall r, c, r', c' ::
              (0 <= r < InvaderNRows && 0 <= c < InvaderNCols &&
               0 <= r' < InvaderNRows && 0 <= c' < InvaderNCols &&
               GridIndex(r, c) == GridIndex(r', c')) ==> r == r' && c == c'
    ensures forall i :: 0 <= i < InvaderNRows * InvaderNCols ==>
              0 <= i / InvaderNCols < InvaderNRows && GridIndex(i / InvaderNCols, i % InvaderNCols) == i
  {
  }

  // ---------------------------------------------------------------------------
  // The march

  /** What updateInvaders does on a given frame. */
  datatype Step = Idle | Down | Across

  /**
   * Every InvaderFrameStep-th frame is a step frame; of the step frames, every
   * (InvaderHorzSteps + 1)-th is a vertical step and the others are horizontal.
   */
  function StepAt(frame: nat): Step
  {
    if frame % InvaderFrameStep != InvaderFrameStep - 1 then Idle
    else if (frame / InvaderFrameStep) % (InvaderHorzSteps + 1) == InvaderHorzSteps then Down
    else Across
  }

  /** The march so far: the direction flag and the total displacement of every invader. */
  datatype March = March(dir: int, dx: int, dy: int)

  /** One frame of updateInvaders applied to the march. */
  function Advance(m: March, frame: nat): March
  {
    match StepAt(frame)
    case Idle => m
    case Down => March(-m.dir, m.dx, m.dy + InvaderStepSize)
    case Across => March(m.dir, m.dx + m.dir * InvaderStepSize, m.dy)
  }

  /** The march after updateInvaders has run on frames 0, 1, ..., n - 1, from invaderDir = 1. */
  function MarchAfter(n: nat): March
  {
    if n == 0 then March(1, 0, 0) else Advance(MarchAfter(n - 1), n - 1)
  }

  /**
   * The march after k steps in closed form: q = k / 23 of them were vertical. In an even sweep
   * the row has moved r = k % 23 steps right from the start, in an odd sweep r steps left from
   * the right end.
   */
  function MarchAfterSteps(k: nat): March
  {
    var q := k / (InvaderHorzSteps + 1);
    var r := k % (InvaderHorzSteps + 1);
    if q % 2 == 0 then March(1, r * InvaderStepSize, q * InvaderStepSize)
    else March(-1, (InvaderHorzSteps - r) * InvaderStepSize, q * InvaderStepSize)
  }

  /** After n frames, n / InvaderFrameStep steps have been taken. */
  function MarchClosedForm(n: nat): March
  {
    MarchAfterSteps(n / InvaderFrameStep)
  }

  /** A vertical step of the closed form: the next sweep starts, at the same end, going back. */
  lemma StepsAdvanceDown(k: nat)
    requires k % (InvaderHorzSteps + 1) == InvaderHorzSteps
    ensures MarchAfterSteps(k + 1) ==
              MarchAfterSteps(k).(dir := -MarchAfterSteps(k).dir, dy := MarchAfterSteps(k).dy + InvaderStepSize)
  {
    HorzStepsValue();
    assert (k + 1) / 23 == k / 23 + 1;
    assert (k + 1) % 23 == 0;
  }

  /** A horizontal step of the closed form: one more step in the sweep's direction. */
  lemma StepsAdvanceAcross(k: nat)
    requires k % (InvaderHorzSteps + 1) != InvaderHorzSteps
    ensures MarchAfterSteps(k + 1) ==
              MarchAfterSteps(k).(dx := MarchAfterSteps(k).dx + MarchAfterSteps(k).dir * InvaderStepSize)
  {
    HorzStepsValue();
    assert (k + 1) / 23 == k / 23;
    assert (k + 1) % 23 == k % 23 + 1;
  }

  /** Step k of the closed form is the k-th step frame's update. */
  lemma StepsAdvance(k: nat)
    ensures MarchAfterSteps(k + 1) == Advance(MarchAfterSteps(k), k * InvaderFrameStep + InvaderFrameStep - 1)
  {
    var f := k * InvaderFrameStep + InvaderFrameStep - 1;
    assert f % InvaderFrameStep == InvaderFrameStep - 1 && f / InvaderFrameStep == k;
    if k % (InvaderHorzSteps + 1) == InvaderHorzSteps {
      StepsAdvanceDown(k);
    } else {
      StepsAdvanceAcross(k);
    }
  }

  /** One frame of updateInvaders moves the closed form on by one frame. */
  lemma ClosedFormAdvances(n: nat)
    ensures MarchClosedForm(n + 1) == Advance(MarchClosedForm(n), n)
  {
    var k := n / InvaderFrameStep;
    if n % InvaderFrameStep == InvaderFrameStep - 1 {
      assert n == k * InvaderFrameStep + InvaderFrameStep - 1;
      assert (n + 1) / InvaderFrameStep == k + 1;
      StepsAdvance(k);
    } else {
      assert (n + 1) / InvaderFrameStep == k;
      assert StepAt(n) == Idle;
    }
  }

  /** Stepping frame by frame gives the closed form. */
  lemma {:induction false} MarchAfterIsClosedForm(n: nat)
    ensures MarchAfter(n) == MarchClosedForm(n)
  {
    if n > 0 {
      MarchAfterIsClosedForm(n - 1);
      ClosedFormAdvances(n - 1);
    }
  }

  /**
   * Over any run from frame 0, invaderDir is 1 or -1, the horizontal offset from the start
   * stays within [0, InvaderHorzSteps * InvaderStepSize] = [0, 550], and the vertical offset
   * is never negative.
   */
  lemma {:induction false} MarchBounded(n: nat)
    ensures MarchAfter(n).dir == 1 || MarchAfter(n).dir == -1
    ensures 0 <= MarchAfter(n).dx <= InvaderHorzSteps * InvaderStepSize
    ensures 0 <= MarchAfter(n).dy
  {
    MarchAfterIsClosedForm(n);
  }

  /** Invaders never move up, and the direction flips exactly on vertical steps. */
  lemma {:induction false} MarchMonotone(n: nat)
    ensures MarchAfter(n).dy <= MarchAfter(n + 1).dy
    ensures MarchAfter(n + 1).dir != MarchAfter(n).dir <==> StepAt(n) == Down
  {
    MarchBounded(n);
  }

  // ---------------------------------------------------------------------------
  // The launcher

  /** One frame of the launcher's movement: left then right, each clamped to the window. */
  function LauncherStep(x: int, left: bool, right: bool): (r: int)
    ensures !left && !right ==> r == x
    ensures left && !right ==> r <= x || r == LauncherMinX
    ensures right && !left ==> r >= x || r == LauncherMaxX
  {
    var afterLeft := if left then Max(x - LauncherMoveSpeed, LauncherMinX) else x;
    if right then Min(afterLeft + LauncherMoveSpeed, LauncherMaxX) else afterLeft
  }

  function Max(a: int, b: int): int { if a < b then b else a }
  function Min(a: int, b: int): int { if a < b then a else b }

  /**
   * From inside [LauncherMinX, LauncherMaxX] the launcher stays inside; it moves by at most
   * LauncherMoveSpeed, and exactly that far when one key is held and the clamp does not bite.
   */
  lemma LauncherStepStaysInRange(x: int, left: bool, right: bool)
    requires LauncherMinX <= x <= LauncherMaxX
    ensures LauncherMinX <= LauncherStep(x, left, right) <= LauncherMaxX
    ensures -LauncherMoveSpeed <= LauncherStep(x, left, right) - x <= LauncherMoveSpeed
    ensures left && !right && x - LauncherMoveSpeed >= LauncherMinX ==>
              LauncherStep(x, left, right) == x - LauncherMoveSpeed
    ensures right && !left && x + LauncherMoveSpeed <= LauncherMaxX ==>
              LauncherStep(x, left, right) == x + LauncherMoveSpeed
  {
  }

  // ---------------------------------------------------------------------------
  // The game

  /** The keys held during a frame. */
  datatype Keys = Keys(left: bool, right: bool)

  class Game {
    /** The invader rectangles; the vector is sized once and never replaced. */
    const invaders: array<Rect>
    /** The global direction flag: 1 to the right, -1 to the left. */
    var invaderDir: int
    var launcher: Rect
    /** The index of the next frame. */
    var frameIdx: nat

    /**
     * Every invader sits at its grid position displaced by the march so far, the direction
     * flag is the march's, and the launcher is on its row inside its range.
     */
    ghost predicate Valid()
      reads this, invaders
      ensures Valid() ==> invaderDir == 1 || invaderDir == -1
    {
      MarchBounded(frameIdx);
      invaders.Length == InvaderNRows * InvaderNCols &&
      invaderDir == MarchAfter(frameIdx).dir &&
      (forall i :: 0 <= i < invaders.Length ==>
         invaders[i] == Translate(InvaderHome(i), MarchAfter(frameIdx).dx, MarchAfter(frameIdx).dy)) &&
      launcher.y == LauncherY && launcher.w == LauncherSize && launcher.h == LauncherSize &&
      LauncherMinX <= launcher.x <= LauncherMaxX
    }

    /** The set-up in main: the invader grid filled row by row, the launcher at its left end. */
    constructor Init()
      ensures Valid() && fresh(invaders) && frameIdx == 0
      ensures forall r, c :: 0 <= r < InvaderNRows && 0 <= c < InvaderNCols ==>
                invaders[GridIndex(r, c)] == GridRect(r, c)
      ensures launcher == Rect(LauncherMinX, LauncherY, LauncherSize, LauncherSize)
    {
      var rects := new Rect[InvaderNRows * InvaderNCols](_ => Rect(0, 0, 0, 0));
      for r := 0 to InvaderNRows
        invariant forall i :: 0 <= i < GridIndex(r, 0) ==> rects[i] == InvaderHome(i)
      {
        for c := 0 to InvaderNCols
          invariant forall i :: 0 <= i < GridIndex(r, c) ==> rects[i] == InvaderHome(i)
        {
          HomeOfGridIndex(r, c);
          rects[GridIndex(r, c)] := GridRect(r, c);
        }
      }
      forall r, c | 0 <= r < InvaderNRows && 0 <= c < InvaderNCols
        ensures rects[GridIndex(r, c)] == GridRect(r, c)
      {
        HomeOfGridIndex(r, c);
      }
      assert MarchAfter(0) == March(1, 0, 0);
      invaders := rects;
      invaderDir := 1;
      launcher := Rect(LauncherMinX, LauncherY, LauncherSize, LauncherSize);
      frameIdx := 0;
    }

    /**
     * updateInvaders: on a vertical step frame every invader moves down one step and the
     * direction flips; on another step frame every invader moves one step in the current
     * direction; on any other frame nothing changes.
     */
    method UpdateInvaders(currFrameIdx: nat)
      modifies this, invaders
      ensures launcher == old(launcher) && frameIdx == old(frameIdx)
      ensures StepAt(currFrameIdx) == Idle ==>
                invaders[..] == old(invaders[..]) && invaderDir == old(invaderDir)
      ensures StepAt(currFrameIdx) == Down ==>
                invaders[..] == Shifted(old(invaders[..]), 0, InvaderStepSize) &&
                invaderDir == -old(invaderDir)
      ensures StepAt(currFrameIdx) == Across ==>
                invaders[..] == Shifted(old(invaders[..]), old(invaderDir) * InvaderStepSize, 0) &&
                invaderDir == old(invaderDir)
    {
      if currFrameIdx % InvaderFrameStep == InvaderFrameStep - 1 {
        var stepIdx := currFrameIdx / InvaderFrameStep;
        if stepIdx % (InvaderHorzSteps + 1) == InvaderHorzSteps {
          for i := 0 to invaders.Length
            modifies invaders
            invariant forall j :: 0 <= j < i ==> invaders[j] == Translate(old(invaders[j]), 0, InvaderStepSize)
            invariant forall j :: i <= j < invaders.Length ==> invaders[j] == old(invaders[j])
          {
            invaders[i] := invaders[i].(y := invaders[i].y + InvaderStepSize);
          }
          invaderDir := -invaderDir;
        } else {
          for i := 0 to invaders.Length
            modifies invaders
            invariant forall j :: 0 <= j < i ==>
                        invaders[j] == Translate(old(invaders[j]), invaderDir * InvaderStepSize, 0)
            invariant forall j :: i <= j < invaders.Length ==> invaders[j] == old(invaders[j])
          {
            invaders[i] := invaders[i].(x := invaders[i].x + invaderDir * InvaderStepSize);
          }
        }
      }
    }

    /** The launcher's update for one frame's keyboard state. */
    method MoveLauncher(keys: Keys)
      modifies this
      ensures launcher == old(launcher).(x := LauncherStep(old(launcher.x), keys.left, keys.right))
      ensures invaderDir == old(invaderDir) && frameIdx == old(frameIdx)
    {
      if keys.left {
        launcher := launcher.(x := launcher.x - LauncherMoveSpeed);
        launcher := launcher.(x := Max(launcher.x, LauncherMinX));
      }
      if keys.right {
        launcher := launcher.(x := launcher.x + LauncherMoveSpeed);
        launcher := launcher.(x := Min(launcher.x, LauncherMaxX));
      }
    }

    /** One pass of main's loop: move the launcher, update the invaders, count the frame. */
    method Frame(keys: Keys)
      requires Valid()
      modifies this, invaders
      ensures Valid() && frameIdx == old(frameIdx) + 1
      ensures launcher.x == LauncherStep(old(launcher.x), keys.left, keys.right)
    {
      MoveLauncher(keys);
      LauncherStepStaysInRange(old(launcher.x), keys.left, keys.right);
      ghost var before := invaders[..];
      UpdateInvaders(frameIdx);
      ghost var m := MarchAfter(frameIdx);
      assert forall i :: 0 <= i < invaders.Length ==>
               invaders[i] == Translate(InvaderHome(i), MarchAfter(frameIdx + 1).dx, MarchAfter(frameIdx + 1).dy) by {
        forall i | 0 <= i < invaders.Length
          ensures invaders[i] == Translate(InvaderHome(i), MarchAfter(frameIdx + 1).dx, MarchAfter(frameIdx + 1).dy)
        {
          assert before[i] == Translate(InvaderHome(i), m.dx, m.dy);
        }
      }
      frameIdx := frameIdx + 1;
    }

    /** main's loop over a sequence of frames' keyboard states. */
    method Play(frames: seq<Keys>)
      requires Valid()
      modifies this, invaders
      ensures Valid() && frameIdx == old(frameIdx) + |frames|
    {
      for k := 0 to |frames|
        invariant Valid() && frameIdx == old(frameIdx) + k
      {
        Frame(frames[k]);
      }
    }
  }

  /**
   * In any reachable state every invader is within its sweep: at or right of its grid column,
   * at most 550 pixels further right, and never above its grid row.
   */
  lemma {:induction false} InvadersStayInBand(g: Game)
    requires g.Valid()
    ensures forall i :: 0 <= i < g.invaders.Length ==>
              InvaderHome(i).x <= g.invaders[i].x <= InvaderHome(i).x + InvaderHorzSteps * InvaderStepSize &&
              InvaderHome(i).y <= g.invaders[i].y
  {
    MarchBounded(g.frameIdx);
  }
}
