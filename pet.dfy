/** The desktop pet widget: which clip it shows, whether it is being dragged,
    where its window is, and whether the one-shot reset timer is armed.

    The pure part (PetState, the step functions, Step and Run) is the
    specification; the class DesktopPet holds the same state in fields and
    its event handlers are proved to follow the step functions. */
module Pet {
  import opened Keyboard

  /** A screen point or offset, in pixels. */
  datatype Point = Point(x: int, y: int) {
    function Plus(o: Point): Point { Point(x + o.x, y + o.y) }
    function Minus(o: Point): Point { Point(x - o.x, y - o.y) }
  }

  /** The size of the screen's available area, or of the widget. */
  datatype Size = Size(width: nat, height: nat)

  /** The four animation clips the pet owns. */
  datatype Clip = DefaultClip | ClickClip | LeftClip | RightClip

  datatype MouseButton = LeftButton | RightButton | MiddleButton | OtherButton

  /** Everything the handlers read or write. */
  datatype PetState = PetState(
    clip: Clip,
    dragging: bool,
    dragPos: Point,
    pos: Point,
    timerPending: bool)

  /** The events the pet reacts to: a raw key event from the hook (classified
      and forwarded), the reset timer's timeout, and the three mouse events. */
  datatype Event =
    | Key(kind: EventType, name: string)
    | Timeout
    | Press(button: MouseButton, at: Point)
    | Move(at: Point)
    | Release(button: MouseButton)

  /** The typing clip for a hand label. */
  function ClipFor(h: Hand): Clip {
    match h
    case Left => LeftClip
    case Right => RightClip
  }

  predicate IsTyping(c: Clip) {
    c == LeftClip || c == RightClip
  }

  /** The top-left corner that centres the widget on the screen, with the
      differences halved by floor division (for a divisor of 2, Dafny's `/`
      rounds down like Python's `//`, also when the widget is larger than
      the screen). */
  function Centered(screen: Size, widget: Size): (p: Point)
    ensures 2 * p.x <= screen.width - widget.width < 2 * p.x + 2
    ensures 2 * p.y <= screen.height - widget.height < 2 * p.y + 2
    // the right margin equals the left one or exceeds it by one pixel
    ensures 0 <= (screen.width - (p.x + widget.width)) - p.x <= 1
    ensures 0 <= (screen.height - (p.y + widget.height)) - p.y <= 1
  {
    Point((screen.width - widget.width) / 2, (screen.height - widget.height) / 2)
  }

  /** The state right after construction. */
  function Initial(screen: Size, widget: Size): PetState {
    PetState(DefaultClip, false, Point(0, 0), Centered(screen, widget), false)
  }

  /** play_typing_animation: show the hand's clip and (re)start the timer. */
  function TypingStep(s: PetState, h: Hand): PetState {
    s.(clip := ClipFor(h), timerPending := true)
  }

  /** reset_animation: back to the default clip unless a drag is on. */
  function ResetStep(s: PetState): PetState {
    if s.dragging then s else s.(clip := DefaultClip)
  }

  /** The single-shot timer fires: it is no longer pending and the reset
      runs. A stopped timer delivers nothing. */
  function TimeoutStep(s: PetState): PetState {
    if s.timerPending then ResetStep(s.(timerPending := false)) else s
  }

  /** mousePressEvent: only the left button grabs the pet. */
  function PressStep(s: PetState, b: MouseButton, global: Point): PetState {
    if b == LeftButton then
      s.(dragPos := global.Minus(s.pos), clip := ClickClip, dragging := true)
    else
      s
  }

  /** mouseMoveEvent: while dragging, the window follows the cursor. */
  function MoveStep(s: PetState, global: Point): PetState {
    if s.dragging then s.(pos := global.Minus(s.dragPos)) else s
  }

  /** mouseReleaseEvent: any button ends the drag, then the reset runs. */
  function ReleaseStep(s: PetState): PetState {
    ResetStep(s.(dragging := false))
  }

  /** A raw key event: classified, and forwarded when it yields a hand. */
  function KeyStep(s: PetState, kind: EventType, name: string): PetState {
    match OnKeyEvent(kind, name)
    case None => s
    case Some(h) => TypingStep(s, h)
  }

  function Step(s: PetState, e: Event): PetState {
    match e
    case Key(kind, name) => KeyStep(s, kind, name)
    case Timeout => TimeoutStep(s)
    case Press(b, g) => PressStep(s, b, g)
    case Move(g) => MoveStep(s, g)
    case Release(_) => ReleaseStep(s)
  }

  /** The state after a sequence of events. */
  function Run(s: PetState, events: seq<Event>): PetState
    decreases |events|
  {
    if events == [] then s else Run(Step(s, events[0]), events[1..])
  }

  // ---------------------------------------------------------------------
  // Properties of single transitions

  /** A typing clip is shown even during a drag, and only the clip and the
      timer change. */
  lemma TypingStepFacts(s: PetState, h: Hand)
    ensures TypingStep(s, h).clip == ClipFor(h) && TypingStep(s, h).timerPending
    ensures TypingStep(s, h).dragging == s.dragging
    ensures TypingStep(s, h).pos == s.pos && TypingStep(s, h).dragPos == s.dragPos
  {
  }

  /** The reset shows the default clip when no drag is on, and changes
      nothing at all during a drag. */
  lemma ResetStepFacts(s: PetState)
    ensures !s.dragging ==> ResetStep(s) == s.(clip := DefaultClip)
    ensures s.dragging ==> ResetStep(s) == s
  {
  }

  /** A press with a button other than the left one changes nothing; a left
      press records the grab offset and shows the click clip. */
  lemma PressStepFacts(s: PetState, b: MouseButton, global: Point)
    ensures b != LeftButton ==> PressStep(s, b, global) == s
    ensures b == LeftButton ==>
      var t := PressStep(s, b, global);
      t.dragging && t.clip == ClickClip && t.dragPos.Plus(s.pos) == global && t.pos == s.pos
  {
  }

  /** Release with any button ends the drag and shows the default clip,
      whatever the timer state; position and timer are left as they were. */
  lemma ReleaseStepFacts(s: PetState)
    ensures !ReleaseStep(s).dragging && ReleaseStep(s).clip == DefaultClip
    ensures ReleaseStep(s).timerPending == s.timerPending
    ensures ReleaseStep(s).pos == s.pos && ReleaseStep(s).dragPos == s.dragPos
  {
  }

  /** A typing clip shown during a drag survives the timer: the reset is
      suppressed, and only the release brings the default clip back. */
  lemma TypingDuringDragPersists(s: PetState, h: Hand)
    requires s.dragging
    ensures TimeoutStep(TypingStep(s, h)).clip == ClipFor(h)
    ensures !TimeoutStep(TypingStep(s, h)).timerPending
    ensures ReleaseStep(TimeoutStep(TypingStep(s, h))).clip == DefaultClip
  {
  }

  // ---------------------------------------------------------------------
  // The display invariant

  /** The click clip is only shown while the pet is held, and a typing clip
      shown outside a drag always has its reset timer armed. */
  predicate Consistent(s: PetState) {
    (s.clip == ClickClip ==> s.dragging) &&
    (IsTyping(s.clip) && !s.dragging ==> s.timerPending)
  }

  lemma InitialConsistent(screen: Size, widget: Size)
    ensures Consistent(Initial(screen, widget))
    ensures Initial(screen, widget).clip == DefaultClip
    ensures !Initial(screen, widget).dragging && !Initial(screen, widget).timerPending
  {
  }

  lemma StepConsistent(s: PetState, e: Event)
    requires Consistent(s)
    ensures Consistent(Step(s, e))
  {
  }

  lemma {:induction false} RunConsistent(s: PetState, events: seq<Event>)
    requires Consistent(s)
    ensures Consistent(Run(s, events))
    decreases |events|
  {
    if events != [] {
      StepConsistent(s, events[0]);
      RunConsistent(Step(s, events[0]), events[1..]);
    }
  }

  /** Every state the pet can reach from its initial state is consistent. */
  lemma ReachableConsistent(screen: Size, widget: Size, events: seq<Event>)
    ensures Consistent(Run(Initial(screen, widget), events))
  {
    InitialConsistent(screen, widget);
    RunConsistent(Initial(screen, widget), events);
  }

  /** Outside a drag, a typing clip is always waiting on the timer, and the
      timeout brings the default clip back. */
  lemma TypingReverts(s: PetState)
    requires Consistent(s) && !s.dragging && IsTyping(s.clip)
    ensures s.timerPending
    ensures Step(s, Timeout).clip == DefaultClip && !Step(s, Timeout).timerPending
  {
  }

  // ---------------------------------------------------------------------
  // Dragging

  /** Events that can arrive while the left button stays held: anything but
      a release or another left press. */
  predicate WhileHeld(e: Event) {
    !e.Release? && !(e.Press? && e.button == LeftButton)
  }

  /** The cursor position after the events: the target of the last move,
      or `g` when there is none. */
  function LastCursor(events: seq<Event>, g: Point): Point
    decreases |events|
  {
    if events == [] then g
    else LastCursor(events[1..], if events[0].Move? then events[0].at else g)
  }

  lemma {:induction false} DragRun(s: PetState, g: Point, events: seq<Event>)
    requires s.dragging && s.pos == g.Minus(s.dragPos)
    requires forall i :: 0 <= i < |events| ==> WhileHeld(events[i])
    ensures Run(s, events).dragging
    ensures Run(s, events).dragPos == s.dragPos
    ensures Run(s, events).pos == LastCursor(events, g).Minus(s.dragPos)
    decreases |events|
  {
    if events != [] {
      var e := events[0];
      assert WhileHeld(e);
      var g' := if e.Move? then e.at else g;
      var t := Step(s, e);
      assert t.dragging && t.dragPos == s.dragPos && t.pos == g'.Minus(s.dragPos);
      assert forall i :: 0 <= i < |events[1..]| ==> WhileHeld(events[1..][i]) by {
        forall i | 0 <= i < |events[1..]| ensures WhileHeld(events[1..][i]) {
          assert events[1..][i] == events[i + 1];
        }
      }
      DragRun(t, g', events[1..]);
    }
  }

  /** After a left press at `p0` with the window at `w0`, and as long as the
      button is held, the window sits at `w0` moved by the cursor's
      displacement since the press. */
  lemma DragTracksCursor(s: PetState, p0: Point, events: seq<Event>)
    requires forall i :: 0 <= i < |events| ==> WhileHeld(events[i])
    ensures Run(PressStep(s, LeftButton, p0), events).dragging
    ensures Run(PressStep(s, LeftButton, p0), events).pos ==
            s.pos.Plus(LastCursor(events, p0).Minus(p0))
  {
    var t := PressStep(s, LeftButton, p0);
    DragRun(t, p0, events);
  }

  /** Without a drag, mouse moves leave the window where it is. */
  lemma MoveWithoutDrag(s: PetState, g: Point)
    requires !s.dragging
    ensures Step(s, Move(g)) == s
  {
  }

  // ---------------------------------------------------------------------
  // Scenarios

  /** Pressing `a` shows the left typing clip, and the timeout restores the
      default clip; pressing `j` shows the right typing clip. */
  lemma KeyScenario(s: PetState)
    requires !s.dragging
    ensures Run(s, [Key(KeyDown, "a")]).clip == LeftClip
    ensures Run(s, [Key(KeyDown, "a"), Timeout]).clip == DefaultClip
    ensures Run(s, [Key(KeyDown, "j")]).clip == RightClip
  {
    OnKeyEventExamples();
    assert [Key(KeyDown, "a"), Timeout][1..] == [Timeout];
  }

  /** Dragging from (100, 100) to (150, 120) moves the window by (50, 20). */
  lemma DragScenario(s: PetState)
    ensures
      var evs := [Move(Point(150, 120))];
      Run(PressStep(s, LeftButton, Point(100, 100)), evs).pos ==
      Point(s.pos.x + 50, s.pos.y + 20)
  {
    DragTracksCursor(s, Point(100, 100), [Move(Point(150, 120))]);
  }

  // ---------------------------------------------------------------------
  // The widget

  class DesktopPet {
    var clip: Clip
    var isDragging: bool
    var dragPos: Point
    var pos: Point
    var timerPending: bool

    /** The fields as a value. */
    function State(): PetState
      reads this
    {
      PetState(clip, isDragging, dragPos, pos, timerPending)
    }

    /** The display invariant, on the fields. */
    ghost predicate Valid()
      reads this
    {
      Consistent(State())
    }

    /** The default clip, a centred window, no drag and a stopped timer. */
    constructor (screen: Size, widget: Size)
      ensures State() == Initial(screen, widget)
      ensures clip == DefaultClip && !isDragging && !timerPending
      ensures pos == Centered(screen, widget)
      ensures Valid()
    {
      clip := DefaultClip;
      pos := Point(0, 0);
      new;
      MoveCenter(screen, widget);
      dragPos := Point(0, 0);
      isDragging := false;
      timerPending := false;
    }

    method MoveCenter(screen: Size, widget: Size)
      modifies this
      ensures old(Valid()) ==> Valid()
      ensures pos == Centered(screen, widget)
      ensures State() == old(State()).(pos := Centered(screen, widget))
    {
      pos := Centered(screen, widget);
    }

    method PlayTypingAnimation(hand: Hand)
      modifies this
      ensures old(Valid()) ==> Valid()
      ensures clip == ClipFor(hand) && timerPending
      ensures isDragging == old(isDragging) && dragPos == old(dragPos) && pos == old(pos)
      ensures State() == TypingStep(old(State()), hand)
    {
      clip := ClipFor(hand);
      timerPending := true;
    }

    method ResetAnimation()
      modifies this
      ensures old(Valid()) ==> Valid()
      ensures clip == (if old(isDragging) then old(clip) else DefaultClip)
      ensures isDragging == old(isDragging) && dragPos == old(dragPos) && pos == old(pos)
      ensures timerPending == old(timerPending)
      ensures State() == ResetStep(old(State()))
    {
      if !isDragging {
        clip := DefaultClip;
      }
    }

    /** The single-shot timer's timeout, connected to the reset. */
    method TimerFires()
      modifies this
      ensures old(Valid()) ==> Valid()
      ensures !timerPending
      ensures clip == (if old(timerPending) && !old(isDragging) then DefaultClip else old(clip))
      ensures isDragging == old(isDragging) && dragPos == old(dragPos) && pos == old(pos)
      ensures State() == Step(old(State()), Timeout)
    {
      if timerPending {
        timerPending := false;
        ResetAnimation();
      }
    }

    /** A key event from the listener: classified, and forwarded to the
      typing animation when it yields a hand. */
    method HandleKeyEvent(kind: EventType, name: string)
      modifies this
      ensures old(Valid()) ==> Valid()
      ensures State() == Step(old(State()), Key(kind, name))
    {
      var hand := OnKeyEvent(kind, name);
      if hand.Some? {
        PlayTypingAnimation(hand.value);
      }
    }

    method MousePressEvent(button: MouseButton, global: Point)
      modifies this
      ensures old(Valid()) ==> Valid()
      ensures button == LeftButton ==>
        dragPos == global.Minus(old(pos)) && clip == ClickClip && isDragging
      ensures button != LeftButton ==> State() == old(State())
      ensures pos == old(pos) && timerPending == old(timerPending)
      ensures State() == Step(old(State()), Press(button, global))
    {
      if button == LeftButton {
        dragPos := global.Minus(pos);
        clip := ClickClip;
        isDragging := true;
      }
    }

    method MouseMoveEvent(global: Point)
      modifies this
      ensures old(Valid()) ==> Valid()
      ensures pos == (if old(isDragging) then global.Minus(old(dragPos)) else old(pos))
      ensures clip == old(clip) && isDragging == old(isDragging)
      ensures dragPos == old(dragPos) && timerPending == old(timerPending)
      ensures State() == Step(old(State()), Move(global))
    {
      if isDragging {
        pos := global.Minus(dragPos);
      }
    }

    /** Any button's release ends the drag; the timer is left alone. */
    method MouseReleaseEvent(button: MouseButton)
      modifies this
      ensures old(Valid()) ==> Valid()
      ensures !isDragging && clip == DefaultClip
      ensures dragPos == old(dragPos) && pos == old(pos) && timerPending == old(timerPending)
      ensures State() == Step(old(State()), Release(button))
    {
      isDragging := false;
      ResetAnimation();
    }
  }
}
