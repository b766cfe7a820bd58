/**
  The drag-resize controller of `useDragSideBar` (app/components/sidebar.tsx).
  DragState is the controller's whole state as a value; Start, Move, End and
  Toggle are its transitions; the class SidebarDrag holds the same state in
  mutable fields and its methods are proved to perform those transitions.
*/
module DragSideBar {
  import opened Layout

  /** Minimum time, in milliseconds, between two applied pointer moves. */
  const ThrottleMs := 20
  /** A gesture shorter than this, in milliseconds, counts as a click. */
  const ClickMs := 300

  /**
    sidebarWidth is the config store's value; startX, startDragWidth and
    lastUpdateTime are the refs; dragStartTime is the current gesture's start;
    moveListening and upListening say whether the pointermove and pointerup
    handlers are registered on the window.
  */
  datatype DragState = DragState(
    sidebarWidth: int,
    startX: int,
    startDragWidth: int,
    lastUpdateTime: int,
    dragStartTime: int,
    moveListening: bool,
    upListening: bool)
  {
    /** The two gesture handlers are registered and removed together. */
    predicate Valid() {
      moveListening == upListening
    }

    predicate Idle() {
      !moveListening && !upListening
    }
  }

  /** `toggleSideBar`'s mutator, applied to the width stored at the time of the call. */
  function ToggleWidth(w: int): (r: int)
    ensures w < MinSidebarWidth ==> r == DefaultSidebarWidth
    ensures w >= MinSidebarWidth ==> r == NarrowSidebarWidth
    ensures WidthsOrdered() ==> WidthInRange(r)
    ensures WidthsOrdered() ==> (ShouldNarrow(r, false) <==> !ShouldNarrow(w, false))
  {
    if w < MinSidebarWidth then DefaultSidebarWidth else NarrowSidebarWidth
  }

  /** The width an applied move stores, for a pointer that has moved by d since the drag start. */
  function MoveTarget(startDragWidth: int, d: int): (w: int)
    ensures WidthInRange(w)
    ensures MinSidebarWidth <= startDragWidth + d <= MaxSidebarWidth ==> w == startDragWidth + d
    ensures startDragWidth + d < MinSidebarWidth ==> w == NarrowSidebarWidth
    ensures MinSidebarWidth <= MaxSidebarWidth < startDragWidth + d ==> w == MaxSidebarWidth
  {
    var nextWidth := Limit(startDragWidth + d);
    if nextWidth < MinSidebarWidth then NarrowSidebarWidth else nextWidth
  }

  /** `onDragStart`: snapshot the pointer, the stored width and the time; register the handlers. */
  function Start(s: DragState, clientX: int, now: int): (t: DragState)
    requires s.Idle()
    ensures t.Valid() && t.moveListening
    ensures t.startX == clientX && t.startDragWidth == s.sidebarWidth && t.dragStartTime == now
    ensures t.sidebarWidth == s.sidebarWidth && t.lastUpdateTime == s.lastUpdateTime
  {
    s.(startX := clientX, startDragWidth := s.sidebarWidth, dragStartTime := now,
       moveListening := true, upListening := true)
  }

  /** A pointer move at time now reaches a registered handler and passes the throttle. */
  predicate MoveApplies(s: DragState, now: int) {
    s.moveListening && now >= s.lastUpdateTime + ThrottleMs
  }

  /** `handleDragMove`, or nothing when no move handler is registered. */
  function Move(s: DragState, clientX: int, now: int): (t: DragState)
    ensures !MoveApplies(s, now) ==> t == s
    ensures MoveApplies(s, now) ==>
      t == s.(sidebarWidth := t.sidebarWidth, lastUpdateTime := now) &&
      t.sidebarWidth == MoveTarget(s.startDragWidth, clientX - s.startX)
    ensures t.Valid() == s.Valid()
    ensures s.moveListening ==> WidthInRange(t.sidebarWidth) || t.sidebarWidth == s.sidebarWidth
  {
    if !s.moveListening || now < s.lastUpdateTime + ThrottleMs then s
    else s.(lastUpdateTime := now, sidebarWidth := MoveTarget(s.startDragWidth, clientX - s.startX))
  }

  /** The pointer-up at time now ends a gesture that counts as a click. */
  predicate IsClick(s: DragState, now: int) {
    now - s.dragStartTime < ClickMs
  }

  /** `handleDragEnd`, or nothing when no up handler is registered. */
  function End(s: DragState, now: int): (t: DragState)
    ensures s.Valid() ==> t.Idle()
    ensures !s.upListening ==> t == s
    ensures s.upListening ==>
      t == s.(sidebarWidth := t.sidebarWidth, moveListening := false, upListening := false)
    ensures s.upListening && IsClick(s, now) ==> t.sidebarWidth == ToggleWidth(s.sidebarWidth)
    ensures !IsClick(s, now) ==> t.sidebarWidth == s.sidebarWidth
  {
    if !s.upListening then s
    else
      var u := s.(moveListening := false, upListening := false);
      if IsClick(s, now) then u.(sidebarWidth := ToggleWidth(u.sidebarWidth)) else u
  }

  /** With the constants ordered, every transition keeps the stored width in range. */
  lemma TransitionsKeepWidthInRange(s: DragState, clientX: int, now: int)
    requires WidthsOrdered() && WidthInRange(s.sidebarWidth)
    ensures s.Idle() ==> WidthInRange(Start(s, clientX, now).sidebarWidth)
    ensures WidthInRange(Move(s, clientX, now).sidebarWidth)
    ensures WidthInRange(End(s, now).sidebarWidth)
    ensures WidthInRange(ToggleWidth(s.sidebarWidth))
  {
  }

  /** A pointer position with its time stamp, as delivered to the move handler. */
  datatype Pointer = Pointer(clientX: int, time: int)

  /** The state after a stream of pointer moves. */
  function MoveRun(s: DragState, ms: seq<Pointer>): (t: DragState)
    ensures t == s.(sidebarWidth := t.sidebarWidth, lastUpdateTime := t.lastUpdateTime)
    ensures t.lastUpdateTime >= s.lastUpdateTime
    ensures s.moveListening ==> WidthInRange(t.sidebarWidth) || t.sidebarWidth == s.sidebarWidth
    decreases |ms|
  {
    if ms == [] then s else MoveRun(Move(s, ms[0].clientX, ms[0].time), ms[1..])
  }

  /** The times of the moves in a stream that write the config store. */
  function AppliedTimes(s: DragState, ms: seq<Pointer>): (ts: seq<int>)
    decreases |ms|
  {
    if ms == [] then []
    else
      (if MoveApplies(s, ms[0].time) then [ms[0].time] else [])
      + AppliedTimes(Move(s, ms[0].clientX, ms[0].time), ms[1..])
  }

  /** ts are at least ThrottleMs apart, and the first is at least ThrottleMs after last. */
  predicate Spaced(ts: seq<int>, last: int) {
    (|ts| > 0 ==> ts[0] >= last + ThrottleMs) &&
    forall i :: 0 < i < |ts| ==> ts[i - 1] + ThrottleMs <= ts[i]
  }

  /**
    The throttle: in any stream of moves, applied updates are at least ThrottleMs
    apart, the first at least ThrottleMs after the last update before the stream,
    and lastUpdateTime ends at the last applied one.
  */
  lemma {:induction false} ThrottleSpacing(s: DragState, ms: seq<Pointer>)
    ensures Spaced(AppliedTimes(s, ms), s.lastUpdateTime)
    ensures var ts := AppliedTimes(s, ms);
      MoveRun(s, ms).lastUpdateTime == if ts == [] then s.lastUpdateTime else ts[|ts| - 1]
    decreases |ms|
  {
    if ms != [] {
      var s' := Move(s, ms[0].clientX, ms[0].time);
      ThrottleSpacing(s', ms[1..]);
      var rest := AppliedTimes(s', ms[1..]);
      if MoveApplies(s, ms[0].time) {
        assert AppliedTimes(s, ms) == [ms[0].time] + rest;
        assert s'.lastUpdateTime == ms[0].time;
      } else {
        assert AppliedTimes(s, ms) == rest;
      }
    }
  }

  /** Every move in the stream falls in the window [lo, hi]. */
  predicate Within(ms: seq<Pointer>, lo: int, hi: int) {
    forall j :: 0 <= j < |ms| ==> lo <= ms[j].time <= hi
  }

  lemma {:induction false} AppliedWithin(s: DragState, ms: seq<Pointer>, lo: int, hi: int)
    requires Within(ms, lo, hi)
    ensures forall i :: 0 <= i < |AppliedTimes(s, ms)| ==> lo <= AppliedTimes(s, ms)[i] <= hi
    decreases |ms|
  {
    if ms != [] {
      var s' := Move(s, ms[0].clientX, ms[0].time);
      assert Within(ms[1..], lo, hi) by {
        forall j | 0 <= j < |ms[1..]| ensures lo <= ms[1..][j].time <= hi {
          assert ms[1..][j] == ms[j + 1];
        }
      }
      AppliedWithin(s', ms[1..], lo, hi);
    }
  }

  /** A spaced sequence spans at least ThrottleMs per gap. */
  lemma {:induction false} SpacedSpan(ts: seq<int>, last: int)
    requires Spaced(ts, last) && |ts| > 0
    ensures ts[|ts| - 1] - ts[0] >= ThrottleMs * (|ts| - 1)
    decreases |ts|
  {
    if |ts| > 1 {
      var init := ts[..|ts| - 1];
      assert Spaced(init, last) by {
        forall i | 0 < i < |init| ensures init[i - 1] + ThrottleMs <= init[i] {
          assert init[i - 1] == ts[i - 1] && init[i] == ts[i];
        }
      }
      SpacedSpan(init, last);
    }
  }

  /** Moves that all fall in a window of D milliseconds write the store at most D / 20 + 1 times. */
  lemma ThrottleBound(s: DragState, ms: seq<Pointer>, lo: int, hi: int)
    requires lo <= hi && Within(ms, lo, hi)
    ensures |AppliedTimes(s, ms)| <= (hi - lo) / ThrottleMs + 1
  {
    var ts := AppliedTimes(s, ms);
    if |ts| > 0 {
      ThrottleSpacing(s, ms);
      AppliedWithin(s, ms, lo, hi);
      SpacedSpan(ts, s.lastUpdateTime);
      assert ThrottleMs * (|ts| - 1) <= hi - lo;
    }
  }

  /** A stream of moves spread over 100 ms writes the store at most six times. */
  lemma ThrottleOver100Ms(s: DragState, ms: seq<Pointer>, t0: int)
    requires Within(ms, t0, t0 + 100)
    ensures |AppliedTimes(s, ms)| <= 6
  {
    ThrottleBound(s, ms, t0, t0 + 100);
  }

  /** A drag whose pointer never leaves its starting position keeps an in-range width as it is. */
  lemma {:induction false} StillMovesKeepWidth(s: DragState, ms: seq<Pointer>)
    requires WidthsOrdered() && WidthInRange(s.sidebarWidth) && s.startDragWidth == s.sidebarWidth
    requires forall j :: 0 <= j < |ms| ==> ms[j].clientX == s.startX
    ensures MoveRun(s, ms).sidebarWidth == s.sidebarWidth
    decreases |ms|
  {
    if ms != [] {
      var s' := Move(s, ms[0].clientX, ms[0].time);
      assert s'.sidebarWidth == s.sidebarWidth;
      assert s' == s.(lastUpdateTime := s'.lastUpdateTime);
      StillMovesKeepWidth(s', ms[1..]);
    }
  }

  /**
    A whole gesture with no net pointer movement: it toggles the width exactly
    when the pointer is released less than ClickMs after it was pressed.
  */
  lemma StillGesture(s: DragState, x: int, t0: int, ms: seq<Pointer>, t1: int)
    requires WidthsOrdered() && WidthInRange(s.sidebarWidth) && s.Idle()
    requires forall j :: 0 <= j < |ms| ==> ms[j].clientX == x
    ensures var e := End(MoveRun(Start(s, x, t0), ms), t1);
      e.Idle() &&
      e.sidebarWidth == if t1 - t0 < ClickMs then ToggleWidth(s.sidebarWidth) else s.sidebarWidth
  {
    StillMovesKeepWidth(Start(s, x, t0), ms);
  }

  /** The boundary of the click rule: released after 299 ms it toggles, after 301 ms it does not. */
  lemma ClickBoundary(s: DragState, x: int, t0: int, ms: seq<Pointer>)
    requires WidthsOrdered() && WidthInRange(s.sidebarWidth) && s.Idle()
    requires forall j :: 0 <= j < |ms| ==> ms[j].clientX == x
    ensures End(MoveRun(Start(s, x, t0), ms), t0 + 299).sidebarWidth == ToggleWidth(s.sidebarWidth)
    ensures End(MoveRun(Start(s, x, t0), ms), t0 + 301).sidebarWidth == s.sidebarWidth
  {
    StillGesture(s, x, t0, ms, t0 + 299);
    StillGesture(s, x, t0, ms, t0 + 301);
  }

  /**
    A short drag toggles the width it has already moved to, not the width at
    the start: a narrow sidebar dragged wide within ClickMs ends narrow again.
  */
  lemma ShortDragTogglesMovedWidth(s: DragState, x0: int, t0: int, x1: int, t1: int, t2: int)
    requires s.Idle() && t1 >= s.lastUpdateTime + ThrottleMs && t2 - t0 < ClickMs
    requires MinSidebarWidth <= s.sidebarWidth + (x1 - x0) <= MaxSidebarWidth
    ensures Move(Start(s, x0, t0), x1, t1).sidebarWidth == s.sidebarWidth + (x1 - x0)
    ensures End(Move(Start(s, x0, t0), x1, t1), t2).sidebarWidth == NarrowSidebarWidth
  {
  }

  /** A whole gesture keeps the handlers paired, ends with none registered and the width in range. */
  lemma GestureKeepsInvariants(s: DragState, x: int, t0: int, ms: seq<Pointer>, t1: int)
    requires WidthsOrdered() && WidthInRange(s.sidebarWidth) && s.Idle()
    ensures var e := End(MoveRun(Start(s, x, t0), ms), t1);
      e.Idle() && WidthInRange(e.sidebarWidth) && e.lastUpdateTime >= s.lastUpdateTime
  {
  }

  /** The controller as it is mounted: the refs, the gesture record and the stored width. */
  class SidebarDrag {
    var sidebarWidth: int
    var startX: int
    var startDragWidth: int
    var lastUpdateTime: int
    var dragStartTime: int
    var moveListening: bool
    var upListening: bool

    function State(): DragState
      reads this
    {
      DragState(sidebarWidth, startX, startDragWidth, lastUpdateTime, dragStartTime,
                moveListening, upListening)
    }

    /** Mounting: the refs start at 0, the stored width and the mount time. */
    constructor (storedWidth: int, mountTime: int)
      ensures sidebarWidth == storedWidth && startDragWidth == storedWidth
      ensures startX == 0 && lastUpdateTime == mountTime && dragStartTime == 0
      ensures State().Valid() && State().Idle()
    {
      sidebarWidth := storedWidth;
      startX := 0;
      startDragWidth := storedWidth;
      lastUpdateTime := mountTime;
      dragStartTime := 0;  // unused until the first DragStart sets it
      moveListening := false;
      upListening := false;
    }

    method Toggle()
      modifies this
      ensures State() == old(State()).(sidebarWidth := ToggleWidth(old(sidebarWidth)))
    {
      if sidebarWidth < MinSidebarWidth {
        sidebarWidth := DefaultSidebarWidth;
      } else {
        sidebarWidth := NarrowSidebarWidth;
      }
    }

    method DragStart(clientX: int, now: int)
      requires !moveListening && !upListening
      modifies this
      ensures State() == Start(old(State()), clientX, now)
    {
      startX := clientX;
      startDragWidth := sidebarWidth;
      dragStartTime := now;
      moveListening := true;
      upListening := true;
    }

    method DragMove(clientX: int, now: int)
      modifies this
      ensures State() == Move(old(State()), clientX, now)
    {
      if !moveListening {
        return;
      }
      if now < lastUpdateTime + ThrottleMs {
        return;
      }
      lastUpdateTime := now;
      var d := clientX - startX;
      var nextWidth := Limit(startDragWidth + d);
      if nextWidth < MinSidebarWidth {
        sidebarWidth := NarrowSidebarWidth;
      } else {
        sidebarWidth := nextWidth;
      }
    }

    method DragEnd(now: int)
      modifies this
      ensures State() == End(old(State()), now)
    {
      if !upListening {
        return;
      }
      moveListening := false;
      upListening := false;
      var shouldFireClick := now - dragStartTime < ClickMs;
      if shouldFireClick {
        Toggle();
      }
    }
  }
}
