/** The tank carousel: which tanks are drawn, which one is active, and how
    the Prev and Next buttons move the selection.

    The selected index lives in the session state and survives page runs.
    With one or two tanks there are no buttons and every tank is drawn
    active; otherwise the selected tank is drawn in the middle, active, with
    its two neighbours (wrapping around the tank list) drawn dimmed.  A tank
    count of zero falls into the carousel branch too, where `% 0` raises
    ZeroDivisionError. */
module Carousel {
  import opened Failures

  /** Which button, if any, was pressed in a page run.  A run reports at
      most one click. */
  datatype Command = NoPress | PressPrev | PressNext

  /** The indices of the tanks drawn left, center and right. */
  datatype Window = Window(left: int, center: int, right: int)

  /** One drawn tank: its index in the tank list and whether it is drawn as
      the active one (full opacity, dark border, dimensions shown). */
  datatype Slot = Slot(tank: int, active: bool)

  /** The selected index after a page run with tank count n in which `cmd`
      was pressed.  Python's `%` with a positive divisor is Dafny's `%`.  With
      fewer than three tanks there are no buttons; with no tanks pressing a
      button raises before the assignment, so the index stays. */
  function Step(n: nat, idx: int, cmd: Command): (r: int)
    ensures n >= 3 && cmd != NoPress ==> 0 <= r < n
    ensures n < 3 || cmd == NoPress ==> r == idx
  {
    if n >= 3 then
      match cmd
      case NoPress => idx
      case PressPrev => (idx - 1) % n
      case PressNext => (idx + 1) % n
    else idx
  }

  /** The selected index after a sequence of page runs, starting from the
      initial session value 0. */
  function Run(n: nat, cmds: seq<Command>): (r: int)
    ensures n < 3 ==> r == 0
  {
    if cmds == [] then 0 else Step(n, Run(n, cmds[..|cmds| - 1]), cmds[|cmds| - 1])
  }

  /** The center tank and its neighbours one step away in each direction,
      wrapping modulo n. */
  function Neighbours(center: int, n: nat): (r: Result<Window>)
    ensures r.Error? <==> n == 0
    ensures r.Error? ==> r.fault == ZeroDivision
    ensures r.Ok? ==> r.value.center == center
    ensures r.Ok? ==> 0 <= r.value.left < n && 0 <= r.value.right < n
  {
    if n == 0 then Error(ZeroDivision)
    else Ok(Window((center - 1) % n, center, (center + 1) % n))
  }

  /** The tanks drawn for tank count n and selected index idx. */
  function Layout(n: nat, idx: int): (r: Result<seq<Slot>>)
    ensures r.Error? <==> n == 0
    ensures 1 <= n <= 2 ==> r.Ok? && |r.value| == n
    ensures 1 <= n <= 2 ==> forall i :: 0 <= i < |r.value| ==> r.value[i] == Slot(i, true)
    ensures n >= 3 ==> r.Ok? && |r.value| == 3 && r.value[1] == Slot(idx, true)
    ensures n >= 3 ==> r.value[0] == Slot((idx - 1) % n, false) && r.value[2] == Slot((idx + 1) % n, false)
  {
    if n == 1 then Ok([Slot(0, true)])
    else if n == 2 then Ok([Slot(0, true), Slot(1, true)])
    else
      match Neighbours(idx, n)
      case Error(f) => Error(f)
      case Ok(w) => Ok([Slot(w.left, false), Slot(w.center, true), Slot(w.right, false)])
  }

  /** Next from the last tank wraps to the first; otherwise it moves one on. */
  lemma NextWraps(n: nat, idx: int)
    requires n >= 3 && 0 <= idx < n
    ensures Step(n, idx, PressNext) == if idx == n - 1 then 0 else idx + 1
  {
  }

  /** Prev from the first tank wraps to the last; otherwise it moves one back. */
  lemma PrevWraps(n: nat, idx: int)
    requires n >= 3 && 0 <= idx < n
    ensures Step(n, idx, PressPrev) == if idx == 0 then n - 1 else idx - 1
  {
  }

  /** Prev and Next undo each other. */
  lemma PrevNextInverse(n: nat, idx: int)
    requires 0 <= idx < n
    ensures Step(n, Step(n, idx, PressPrev), PressNext) == idx
    ensures Step(n, Step(n, idx, PressNext), PressPrev) == idx
  {
    if n >= 3 {
      PrevWraps(n, idx);
      NextWraps(n, idx);
      PrevWraps(n, Step(n, idx, PressNext));
      NextWraps(n, Step(n, idx, PressPrev));
    }
  }

  /** The left neighbour is the tank Prev would select and the right
      neighbour the tank Next would select. */
  lemma NeighboursAreSteps(n: nat, idx: int)
    requires n >= 3 && 0 <= idx < n
    ensures Neighbours(idx, n) == Ok(Window(Step(n, idx, PressPrev), idx, Step(n, idx, PressNext)))
  {
  }

  /** From a valid selection, the three drawn tanks of a carousel of three or
      more are three different tanks. */
  lemma WindowDistinct(n: nat, idx: int)
    requires n >= 3 && 0 <= idx < n
    ensures Neighbours(idx, n).Ok?
    ensures var w := Neighbours(idx, n).value;
            w.left != w.center && w.center != w.right && w.left != w.right
  {
    NeighboursAreSteps(n, idx);
    PrevWraps(n, idx);
    NextWraps(n, idx);
  }

  /** Starting from 0, the selected index always names a tank; with one or
      two tanks no run ever moves it. */
  lemma {:induction false} RunStaysInRange(n: nat, cmds: seq<Command>)
    ensures n < 3 ==> Run(n, cmds) == 0
    ensures n >= 3 ==> 0 <= Run(n, cmds) < n
  {
    if cmds != [] {
      RunStaysInRange(n, cmds[..|cmds| - 1]);
    }
  }

  /** With five tanks, Next from 0 selects 1 and Prev from 0 selects 4. */
  lemma FiveTanks()
    ensures Run(5, [PressNext]) == 1
    ensures Run(5, [PressPrev]) == 4
    ensures Run(5, [PressPrev, PressNext]) == 0
  {
    assert [PressPrev, PressNext][..1] == [PressPrev];
  }

  /** The carousel's session state: the selected index, kept across page
      runs, and the number of configured tanks. */
  class TankCarousel {
    const tankCount: nat
    var selectedIdx: int

    /** The selection names a tank, or is the initial 0 when there is none. */
    ghost predicate Valid()
      reads this
    {
      0 <= selectedIdx && (selectedIdx < tankCount || selectedIdx == 0)
    }

    /** A fresh session starts with the first tank selected. */
    constructor (tankCount: nat)
      ensures Valid()
      ensures this.tankCount == tankCount && selectedIdx == 0
    {
      this.tankCount := tankCount;
      selectedIdx := 0;
    }

    /** The Next button; `ok` is false when the tank count is zero, where
        the script raises ZeroDivisionError. */
    method Next() returns (ok: bool)
      requires Valid()
      modifies this
      ensures Valid()
      ensures ok <==> tankCount != 0
      ensures selectedIdx == Step(tankCount, old(selectedIdx), PressNext)
    {
      ok := tankCount != 0;
      if tankCount >= 3 {
        selectedIdx := (selectedIdx + 1) % tankCount;
      }
    }

    /** The Prev button, as Next. */
    method Prev() returns (ok: bool)
      requires Valid()
      modifies this
      ensures Valid()
      ensures ok <==> tankCount != 0
      ensures selectedIdx == Step(tankCount, old(selectedIdx), PressPrev)
    {
      ok := tankCount != 0;
      if tankCount >= 3 {
        selectedIdx := (selectedIdx - 1) % tankCount;
      }
    }

    /** The window around the current selection. */
    function CurrentWindow(): (r: Result<Window>)
      reads this
      requires Valid()
      ensures tankCount >= 3 ==> r.Ok? && r.value.center == selectedIdx
      ensures tankCount >= 3 ==> r.value.left == Step(tankCount, selectedIdx, PressPrev)
                                 && r.value.right == Step(tankCount, selectedIdx, PressNext)
      ensures r.Ok? ==> 0 <= r.value.left < tankCount && 0 <= r.value.center < tankCount
                        && 0 <= r.value.right < tankCount
    {
      Neighbours(selectedIdx, tankCount)
    }

    /** One page run of the carousel section: apply the pressed button (only
        the carousel branch has buttons), then lay out the tanks. */
    method Render(cmd: Command) returns (r: Result<seq<Slot>>)
      requires Valid()
      modifies this
      ensures Valid()
      ensures selectedIdx == Step(tankCount, old(selectedIdx), cmd)
      ensures r == Layout(tankCount, selectedIdx)
      ensures r.Ok? ==> forall i :: 0 <= i < |r.value| ==> 0 <= r.value[i].tank < tankCount
    {
      if tankCount != 1 && tankCount != 2 {
        match cmd
        case NoPress =>
        case PressPrev =>
          var _ := Prev();
        case PressNext =>
          var _ := Next();
      }
      r := Layout(tankCount, selectedIdx);
    }
  }
}
