/**
 * The geometry and lifecycle of one desktop window, as implemented twice, by
 * src/components/PortfolioWindow.tsx and src/components/ProjectWindow.tsx.
 * The two differ only in the constants of `Kind` and in when the restore
 * animation enters `InitRestore` (see `Frame.SetMinimized` and `Frame.Fire`).
 *
 * Timers (`setTimeout`) and animation frames (`requestAnimationFrame`) are
 * pending callbacks; `Fire(i)` runs one of them.  Any pending callback may fire
 * next: the model does not order them by delay.  `timerRef` is `animTimerRef`,
 * the handle that `clearTimeout` cancels.
 */
module WindowFrame {
  import opened Wrappers
  import Lists

  datatype Kind = Portfolio | ProjectViewer

  function MinWidth(kind: Kind): int {
    if kind.Portfolio? then 360 else 400
  }

  const MinHeight: int := 300

  function DefaultWidth(kind: Kind): int {
    if kind.Portfolio? then 480 else 800
  }

  function DefaultHeight(kind: Kind): int {
    if kind.Portfolio? then 520 else 560
  }

  function Max(a: int, b: int): int {
    if a < b then b else a
  }

  datatype Rect = Rect(x: int, y: int, width: int, height: int)

  datatype AnimState = Idle | PreClose | Closing | Minimizing | InitRestore | Restoring

  /**
   * What a pending callback does when it fires.  The first three and
   * `RestoreDone` are timers of 70, 260, 420 and 500 ms; the two
   * `RestoreFrame`s are animation frames.
   */
  datatype Job = PreCloseDone | CloseDone | MinimizeDone | RestoreFrame1 | RestoreFrame2 | RestoreDone

  datatype Callback = Callback(id: nat, job: Job)

  /** `clearTimeout(ref)`: drops the pending callback with that handle, if there is one. */
  function Cancel(pending: seq<Callback>, ref: Option<nat>): seq<Callback> {
    if pending == [] then []
    else (if ref == Some(pending[0].id) then [] else [pending[0]]) + Cancel(pending[1..], ref)
  }

  /** Cancelling keeps, in order, every pending callback except the referenced one. */
  lemma {:induction false} CancelSpec(pending: seq<Callback>, ref: Option<nat>)
    ensures Lists.IsSubsequence(Cancel(pending, ref), pending)
    ensures forall c :: c in Cancel(pending, ref) <==> c in pending && ref != Some(c.id)
    ensures ref.None? ==> Cancel(pending, ref) == pending
    ensures |Cancel(pending, ref)| <= |pending|
  {
    if pending != [] {
      CancelSpec(pending[1..], ref);
      var rest := Cancel(pending[1..], ref);
      if ref == Some(pending[0].id) {
        assert Cancel(pending, ref) == rest;
      } else {
        assert Cancel(pending, ref) == [pending[0]] + rest;
        assert ([pending[0]] + rest)[1..] == rest;
      }
      assert forall c :: c in pending <==> c == pending[0] || c in pending[1..];
      if ref.None? {
        assert pending == [pending[0]] + pending[1..];
      }
    }
  }

  class Frame {
    const kind: Kind
    var x: int
    var y: int
    var width: int
    var height: int
    var isDragging: bool
    var isResizing: bool
    /** `dragOffset`: the grab offset while dragging, the last pointer while resizing. */
    var offX: int
    var offY: int
    var isMaximized: bool
    /** `prevRectRef`: the rectangle saved by maximize. */
    var prevRect: Option<Rect>
    var animState: AnimState
    var pending: seq<Callback>
    var timerRef: Option<nat>
    var nextId: nat
    /** The `minimized` prop, set by the parent. */
    var minimized: bool
    /** How often the `onClose` and `onMinimize` callbacks have been called. */
    var closeCalls: nat
    var minimizeCalls: nat

    ghost predicate Valid()
      reads this
    {
      && (isMaximized ==> prevRect.Some?)
      && (forall c :: c in pending ==> c.id < nextId)
    }

    function Bounds(): Rect
      reads this
    {
      Rect(x, y, width, height)
    }

    /** The window is `visibility: hidden` and `pointerEvents: none` exactly when this holds. */
    predicate Hidden()
      reads this
    {
      minimized && animState == Idle
    }

    /**
     * A window at `(x0, y0)` with the default size, or, for a portfolio window
     * grown from a card, at the card's rectangle `initial`.
     */
    constructor(kind: Kind, x0: int, y0: int, initial: Option<Rect>, minimized: bool)
      requires kind.ProjectViewer? ==> initial.None?
      ensures Valid()
      ensures this.kind == kind && this.minimized == minimized
      ensures initial.None? ==> Bounds() == Rect(x0, y0, DefaultWidth(kind), DefaultHeight(kind))
      ensures initial.Some? ==> Bounds() == initial.value
      ensures !isDragging && !isResizing && !isMaximized && prevRect == None
      ensures animState == Idle && pending == [] && timerRef == None
      ensures closeCalls == 0 && minimizeCalls == 0
    {
      this.kind := kind;
      if initial.Some? {
        x, y, width, height := initial.value.x, initial.value.y, initial.value.width, initial.value.height;
      } else {
        x, y, width, height := x0, y0, DefaultWidth(kind), DefaultHeight(kind);
      }
      isDragging, isResizing := false, false;
      offX, offY := 0, 0;
      isMaximized, prevRect := false, None;
      animState := Idle;
      pending, timerRef, nextId := [], None, 0;
      this.minimized := minimized;
      closeCalls, minimizeCalls := 0, 0;
    }

    method Schedule(job: Job) returns (id: nat)
      requires Valid()
      modifies this`pending, this`nextId
      ensures Valid()
      ensures id == old(nextId) && nextId == old(nextId) + 1
      ensures pending == old(pending) + [Callback(id, job)]
    {
      id := nextId;
      pending := pending + [Callback(id, job)];
      nextId := nextId + 1;
    }

    /**
     * `handleMouseDownDrag`, the title bar's handler: a press on a button
     * returns at once; otherwise it focuses and records the grab offset.
     * The window's own focus on every press is `PressTitleBar`.
     */
    method MouseDownDrag(onButton: bool, px: int, py: int) returns (focus: bool)
      modifies this`isDragging, this`offX, this`offY
      ensures focus == !onButton
      ensures onButton ==> isDragging == old(isDragging) && offX == old(offX) && offY == old(offY)
      ensures !onButton ==> isDragging && offX == px - x && offY == py - y
    {
      if onButton {
        return false;
      }
      focus := true;
      isDragging := true;
      offX, offY := px - x, py - y;
    }

    /**
     * A press on the title bar as the window sees it: the title bar's handler
     * runs, then the press bubbles to the window's own `onMouseDown={onFocus}`.
     * So every press focuses the window (twice when a drag starts), and only a
     * press outside the buttons starts a drag.
     */
    method PressTitleBar(onButton: bool, px: int, py: int) returns (focusCalls: nat)
      modifies this`isDragging, this`offX, this`offY
      ensures focusCalls == if onButton then 1 else 2
      ensures onButton ==> isDragging == old(isDragging) && offX == old(offX) && offY == old(offY)
      ensures !onButton ==> isDragging && offX == px - x && offY == py - y
    {
      var titleFocus := MouseDownDrag(onButton, px, py);
      focusCalls := (if titleFocus then 1 else 0) + 1;
    }

    /** `handleMouseDownResize`: remembers the pointer as the resize origin. */
    method MouseDownResize(px: int, py: int) returns (focus: bool)
      modifies this`isResizing, this`offX, this`offY
      ensures focus && isResizing && offX == px && offY == py
    {
      focus := true;
      isResizing := true;
      offX, offY := px, py;
    }

    /**
     * The window's mousemove listener (attached while dragging or resizing):
     * dragging puts the window at pointer minus grab offset; resizing grows by
     * the pointer's movement, never below the minimum size.
     */
    method MouseMove(px: int, py: int)
      modifies this`x, this`y, this`width, this`height, this`offX, this`offY
      ensures isDragging ==> x == px - old(offX) && y == py - old(offY)
      ensures !isDragging ==> x == old(x) && y == old(y)
      ensures isResizing ==>
        && width == Max(MinWidth(kind), old(width) + px - old(offX))
        && height == Max(MinHeight, old(height) + py - old(offY))
        && offX == px && offY == py
      ensures isResizing ==> width >= MinWidth(kind) && height >= MinHeight
      ensures !isResizing ==>
        width == old(width) && height == old(height) && offX == old(offX) && offY == old(offY)
    {
      if !isDragging && !isResizing {
        return;
      }
      if isDragging {
        x, y := px - offX, py - offY;
      }
      if isResizing {
        var dx, dy := px - offX, py - offY;
        width, height := Max(MinWidth(kind), width + dx), Max(MinHeight, height + dy);
        offX, offY := px, py;
      }
    }

    /** The window's mouseup listener. */
    method MouseUp()
      modifies this`isDragging, this`isResizing
      ensures !isDragging && !isResizing
    {
      isDragging, isResizing := false, false;
    }

    /**
     * `handleToggleMaximize` for a viewport of `vw` by `vh`: maximizing saves
     * the rectangle and fills the viewport; the next toggle puts the saved
     * rectangle back.
     */
    method ToggleMaximize(vw: int, vh: int)
      requires Valid()
      modifies this`x, this`y, this`width, this`height, this`isMaximized, this`prevRect
      ensures Valid()
      ensures old(isMaximized) ==> !isMaximized && prevRect == old(prevRect) && Bounds() == old(prevRect).value
      ensures !old(isMaximized) ==>
        isMaximized && prevRect == Some(old(Bounds())) && Bounds() == Rect(0, 0, vw, vh)
    {
      if isMaximized {
        if prevRect.Some? {
          x, y := prevRect.value.x, prevRect.value.y;
          width, height := prevRect.value.width, prevRect.value.height;
        }
        isMaximized := false;
      } else {
        prevRect := Some(Rect(x, y, width, height));
        x, y := 0, 0;
        width, height := vw, vh;
        isMaximized := true;
      }
    }

    /** `handleCloseClick`: cancels the pending animation timer and starts the close animation. */
    method CloseClick()
      requires Valid()
      modifies this`animState, this`pending, this`timerRef, this`nextId
      ensures Valid()
      ensures animState == PreClose
      ensures pending == Cancel(old(pending), old(timerRef)) + [Callback(old(nextId), PreCloseDone)]
      ensures timerRef == Some(old(nextId)) && nextId == old(nextId) + 1
    {
      CancelSpec(pending, timerRef);
      pending := Cancel(pending, timerRef);
      animState := PreClose;
      var id := Schedule(PreCloseDone);
      timerRef := Some(id);
    }

    /** `handleMinimizeClick`: cancels the pending animation timer and starts the minimize animation. */
    method MinimizeClick()
      requires Valid()
      modifies this`animState, this`pending, this`timerRef, this`nextId
      ensures Valid()
      ensures animState == Minimizing
      ensures pending == Cancel(old(pending), old(timerRef)) + [Callback(old(nextId), MinimizeDone)]
      ensures timerRef == Some(old(nextId)) && nextId == old(nextId) + 1
    {
      CancelSpec(pending, timerRef);
      pending := Cancel(pending, timerRef);
      animState := Minimizing;
      var id := Schedule(MinimizeDone);
      timerRef := Some(id);
    }

    /**
     * The parent sets the `minimized` prop; the effect plays the restore
     * animation when it flips from true to false.  A portfolio window enters
     * `InitRestore` in the first animation frame, a project window at once.
     */
    method SetMinimized(m: bool)
      requires Valid()
      modifies this`minimized, this`animState, this`pending, this`nextId
      ensures Valid()
      ensures minimized == m
      ensures old(minimized) && !m ==>
        && pending == old(pending) + [Callback(old(nextId), RestoreFrame1)]
        && nextId == old(nextId) + 1
        && animState == (if kind.Portfolio? then old(animState) else InitRestore)
      ensures !(old(minimized) && !m) ==>
        pending == old(pending) && nextId == old(nextId) && animState == old(animState)
    {
      if minimized && !m {
        if kind.ProjectViewer? {
          animState := InitRestore;
        }
        var _ := Schedule(RestoreFrame1);
      }
      minimized := m;
    }

    /** Runs the pending callback at index `i` and removes it from the queue. */
    method Fire(i: nat)
      requires Valid()
      requires i < |pending|
      modifies this`animState, this`pending, this`timerRef, this`nextId, this`closeCalls, this`minimizeCalls
      ensures Valid()
      ensures var rest := old(pending[..i] + pending[i + 1..]);
        match old(pending[i].job)
        case PreCloseDone =>
          animState == Closing && pending == rest + [Callback(old(nextId), CloseDone)]
          && timerRef == Some(old(nextId)) && nextId == old(nextId) + 1
          && closeCalls == old(closeCalls) && minimizeCalls == old(minimizeCalls)
        case CloseDone =>
          animState == old(animState) && pending == rest && timerRef == old(timerRef) && nextId == old(nextId)
          && closeCalls == old(closeCalls) + 1 && minimizeCalls == old(minimizeCalls)
        case MinimizeDone =>
          animState == Idle && pending == rest && timerRef == old(timerRef) && nextId == old(nextId)
          && closeCalls == old(closeCalls) && minimizeCalls == old(minimizeCalls) + 1
        case RestoreFrame1 =>
          animState == (if kind.Portfolio? then InitRestore else old(animState))
          && pending == rest + [Callback(old(nextId), RestoreFrame2)]
          && timerRef == old(timerRef) && nextId == old(nextId) + 1
          && closeCalls == old(closeCalls) && minimizeCalls == old(minimizeCalls)
        case RestoreFrame2 =>
          animState == Restoring && pending == rest + [Callback(old(nextId), RestoreDone)]
          && timerRef == Some(old(nextId)) && nextId == old(nextId) + 1
          && closeCalls == old(closeCalls) && minimizeCalls == old(minimizeCalls)
        case RestoreDone =>
          animState == Idle && pending == rest && timerRef == old(timerRef) && nextId == old(nextId)
          && closeCalls == old(closeCalls) && minimizeCalls == old(minimizeCalls)
    {
      var job := pending[i].job;
      assert forall c :: c in pending[..i] + pending[i + 1..] ==> c in pending;
      pending := pending[..i] + pending[i + 1..];
      match job
      case PreCloseDone =>
        animState := Closing;
        var id := Schedule(CloseDone);
        timerRef := Some(id);
      case CloseDone =>
        closeCalls := closeCalls + 1;
      case MinimizeDone =>
        minimizeCalls := minimizeCalls + 1;
        animState := Idle;
      case RestoreFrame1 =>
        if kind.Portfolio? {
          animState := InitRestore;
        }
        var _ := Schedule(RestoreFrame2);
      case RestoreFrame2 =>
        animState := Restoring;
        var id := Schedule(RestoreDone);
        timerRef := Some(id);
      case RestoreDone =>
        animState := Idle;
    }
  }

  /** Close on a quiet window: idle, pre-close, closing, then `onClose` is called once. */
  method CloseSequence(kind: Kind, x0: int, y0: int) returns (trace: seq<AnimState>, closes: nat)
    ensures trace == [Idle, PreClose, Closing, Closing]
    ensures closes == 1
  {
    var f := new Frame(kind, x0, y0, None, false);
    trace := [f.animState];
    f.CloseClick();
    trace := trace + [f.animState];
    f.Fire(0);
    trace := trace + [f.animState];
    f.Fire(0);
    trace := trace + [f.animState];
    closes := f.closeCalls;
  }

  /**
   * Minimize: idle, minimizing, back to idle with `onMinimize` called once;
   * once the parent sets `minimized` the window is hidden.
   */
  method MinimizeSequence(kind: Kind, x0: int, y0: int) returns (trace: seq<AnimState>, signals: nat, hidden: bool)
    ensures trace == [Idle, Minimizing, Idle]
    ensures signals == 1 && hidden
  {
    var f := new Frame(kind, x0, y0, None, false);
    trace := [f.animState];
    f.MinimizeClick();
    trace := trace + [f.animState];
    f.Fire(0);
    trace := trace + [f.animState];
    signals := f.minimizeCalls;
    f.SetMinimized(true);
    hidden := f.Hidden();
  }

  /**
   * Restore after un-minimizing: init-restore, restoring, idle, the window
   * visible throughout.  The state right after the prop flips is where the two
   * components differ.
   */
  method RestoreSequence(kind: Kind, x0: int, y0: int) returns (trace: seq<AnimState>, visible: seq<bool>)
    ensures trace == [if kind.Portfolio? then Idle else InitRestore, InitRestore, Restoring, Idle]
    ensures visible == [true, true, true, true]
  {
    var f := new Frame(kind, x0, y0, None, true);
    f.SetMinimized(false);
    trace, visible := [f.animState], [!f.Hidden()];
    f.Fire(0);
    trace, visible := trace + [f.animState], visible + [!f.Hidden()];
    f.Fire(0);
    trace, visible := trace + [f.animState], visible + [!f.Hidden()];
    f.Fire(0);
    trace, visible := trace + [f.animState], visible + [!f.Hidden()];
  }

  /** Closing while minimizing cancels the minimize timer: `onMinimize` is never called. */
  method CloseDuringMinimize(kind: Kind, x0: int, y0: int) returns (jobs: seq<Job>)
    ensures jobs == [PreCloseDone]
  {
    var f := new Frame(kind, x0, y0, None, false);
    f.MinimizeClick();
    f.CloseClick();
    assert Cancel([Callback(0, MinimizeDone)], Some(0)) == [];
    var p := f.pending;
    jobs := seq(|p|, k requires 0 <= k < |p| => p[k].job);
  }

  /** A drag whose pointer returns to where it was pressed leaves the window where it was. */
  method DragBack(kind: Kind, x0: int, y0: int, px: int, py: int, qx: int, qy: int) returns (pos: (int, int))
    ensures pos == (x0, y0)
  {
    var f := new Frame(kind, x0, y0, None, false);
    var _ := f.MouseDownDrag(false, px, py);
    f.MouseMove(qx, qy);
    f.MouseMove(px, py);
    f.MouseUp();
    pos := (f.x, f.y);
  }

  /** Maximize, drag the maximized window, restore: the window is back at exactly its prior rectangle. */
  method MaximizeRoundTrip(start: Rect, vw: int, vh: int, px: int, py: int, qx: int, qy: int)
    returns (back: Rect, maximized: Rect)
    ensures maximized == Rect(0, 0, vw, vh)
    ensures back == start
  {
    var f := new Frame(Portfolio, 0, 0, Some(start), false);
    f.ToggleMaximize(vw, vh);
    maximized := f.Bounds();
    var _ := f.MouseDownDrag(false, px, py);
    f.MouseMove(qx, qy);
    f.MouseUp();
    f.ToggleMaximize(vw, vh);
    back := f.Bounds();
  }
}
