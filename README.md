# Desktop pet: keyboard classification and widget state machine

This project models the event logic of a desktop pet, `pa.py`. The pet is a
frameless, always-on-top animated sprite. A global keyboard hook sorts every
key-down into a left-hand or right-hand key. The pet then briefly plays the matching
typing clip. On a timeout it goes back to its default clip. It can also be
dragged with the left mouse button.

- `keyboard.dfy`, module `Keyboard`, models `KeyboardThread.on_key_event`.
  It is a pure function from an event kind and a key name to an optional hand.
  One lemma ties it to an independent definition: a single letter of the
  fifteen-key set, in either case.
- `pet.dfy`, module `Pet`, models `DesktopPet` in two parts:
  - a specification: the value `PetState` and one pure step function per
    handler, combined into `Step` and `Run` over event sequences;
  - the class `Pet.DesktopPet`, whose handlers update the fields in place and
    are proved to agree with the step functions.

  The lemmas cover single transitions and the display invariant `Consistent`,
  which holds in every reachable state. The click clip is only shown while the
  pet is held. A typing clip shown outside a drag always has its timer armed.
  The lemmas also show that the window follows the cursor during a drag.

The Qt single-shot `QTimer` becomes a `timerPending` flag and an explicit
`Timeout` event. Starting the timer sets the flag, which also covers
restarting a timer that is already running. A timeout with no pending timer
does nothing.

Key names are lower-cased with the ASCII case mapping. Python's `str.lower`
does more, but no character outside `A`-`Z` lower-cases to one of the fifteen
letters. Multi-character names never match anyway, since lower-casing never
shortens a name to one character. So the classification is the same.

The comment at pa.py:101 says the clip is restored after 100 ms, but that
does not always happen. A key event during a drag replaces the click clip with
a typing clip (pa.py:99). The reset that follows is skipped because
`is_dragging` is set (pa.py:105), so the typing clip stays until the release.
`Pet.TypingDuringDragPersists` states this.

The class `Pet.DesktopPet` carries the display invariant as `Valid()`. The
constructor establishes it, and every handler keeps it.

## Model

| member | source | states |
|---|---|---|
| `Keyboard.Lower` | pa.py:36 | the lower-cased name has the same length and each character is the case-mapped original |
| `Keyboard.LowerIdempotent` | pa.py:36 | lower-casing a lower-cased name changes nothing |
| `Keyboard.LowerChar` | pa.py:36 | an upper-case ASCII letter maps to the letter 32 code points above it, which is lower-case; every other character is unchanged |
| `Keyboard.LeftHandKeys` | pa.py:37 | the fifteen left-hand key names q w e r t a s d f g z x c v b |
| `Keyboard.OnKeyEvent` | pa.py:34-41 | the callback yields no hand exactly for events that are not key-downs |
| `Keyboard.OnKeyEventLeftIff` | pa.py:35-40 | a key-down yields `Left` if and only if the name is one of q w e r t a s d f g z x c v b in either case, and `Right` if and only if it is not |
| `Keyboard.OnKeyEventCaseInsensitive` | pa.py:36-37 | a name and its lower-cased form are classified alike |
| `Keyboard.OnKeyEventExamples` | pa.py:35-40 | `a` and `Q` give `Left`; `j` and `space` give `Right`; a key-up gives nothing |
| `Pet.Centered` | pa.py:89-95 | each coordinate is the floor of half the free space, so the right or bottom margin equals the left or top one or exceeds it by one pixel, also when the widget is larger than the screen |
| `Pet.Initial` | pa.py:66-77 | the state after construction: default clip, no drag, zero offset, centred window, timer stopped; its properties are in `Pet.InitialConsistent` |
| `Pet.TypingStep` | pa.py:97-101 | the state after play_typing_animation: the hand's clip, timer pending, all else kept; properties in `Pet.TypingStepFacts` |
| `Pet.ResetStep` | pa.py:103-107 | the state after reset_animation: the default clip unless dragging, all else kept; properties in `Pet.ResetStepFacts` |
| `Pet.TimeoutStep` | pa.py:80-82 | the single-shot timer's timeout: when pending, the flag is cleared and the reset runs; a stopped timer changes nothing; properties in `Pet.TypingReverts` |
| `Pet.PressStep` | pa.py:110-115 | the state after mousePressEvent: a left press records the offset, shows the click clip and starts the drag; others change nothing; properties in `Pet.PressStepFacts` |
| `Pet.MoveStep` | pa.py:117-119 | the state after mouseMoveEvent: while dragging the position becomes global minus offset; properties in `Pet.DragRun` and `Pet.MoveWithoutDrag` |
| `Pet.ReleaseStep` | pa.py:121-123 | the state after mouseReleaseEvent: the drag ends, then the reset runs; properties in `Pet.ReleaseStepFacts` |
| `Pet.KeyStep` | pa.py:34-41 | a raw key event is classified and, when it yields a hand, the typing step runs (the signal connection at pa.py:86); properties in `Pet.KeyScenario` |
| `Pet.Step` | pa.py:97-123 | one event dispatched to its handler's step function; properties in `Pet.StepConsistent` |
| `Pet.Run` | pa.py:97-123 | a sequence of events applied in order; properties in `Pet.RunConsistent` and `Pet.DragTracksCursor` |
| `Pet.TypingStepFacts` | pa.py:97-101 | the typing step shows the hand's clip and arms the timer, even during a drag; dragging, position and offset are unchanged |
| `Pet.ResetStepFacts` | pa.py:103-107 | the reset shows the default clip when not dragging and leaves the whole state unchanged while dragging |
| `Pet.PressStepFacts` | pa.py:110-115 | a left press records offset = global - pos, shows the click clip and starts dragging; any other button changes nothing |
| `Pet.ReleaseStepFacts` | pa.py:121-123 | a release ends the drag and shows the default clip whatever the timer state, leaving position and timer as they were |
| `Pet.TypingDuringDragPersists` | pa.py:97-107 | a typing clip shown during a drag survives the timeout, and the release restores the default clip |
| `Pet.InitialConsistent` | pa.py:66-67 | the initial state shows the default clip, is not dragging, has no pending timer and is consistent |
| `Pet.StepConsistent` | pa.py:97-123 | every event preserves the display invariant |
| `Pet.RunConsistent` | pa.py:97-123 | any sequence of events preserves the display invariant |
| `Pet.ReachableConsistent` | pa.py:46-123 | every state reachable from construction satisfies the display invariant |
| `Pet.TypingReverts` | pa.py:80-82 | in a consistent state outside a drag, a typing clip has its timer pending and the timeout restores the default clip |
| `Pet.DragRun` | pa.py:117-119 | while the button is held, the offset stays fixed and the window sits at the last cursor position minus the offset |
| `Pet.DragTracksCursor` | pa.py:110-119 | after a left press at p0 with the window at w0, the window is at w0 + (g - p0) for the last move target g |
| `Pet.MoveWithoutDrag` | pa.py:117-119 | a move without a drag leaves the state unchanged |
| `Pet.KeyScenario` | pa.py:34-41 | pressing `a` shows the left typing clip and the timeout restores the default clip; `j` shows the right typing clip |
| `Pet.DragScenario` | pa.py:110-119 | a drag from (100, 100) to (150, 120) moves the window by (50, 20) |
| `Pet.DesktopPet.constructor` | pa.py:46-87 | the new pet shows the default clip in a centred window, with no drag, a zero offset and no pending timer |
| `Pet.DesktopPet.MoveCenter` | pa.py:89-95 | only the position changes, to the centred position |
| `Pet.DesktopPet.PlayTypingAnimation` | pa.py:97-101 | the clip becomes the hand's clip and the timer is pending; dragging, offset and position are unchanged |
| `Pet.DesktopPet.ResetAnimation` | pa.py:103-107 | the clip becomes default unless dragging; nothing else changes |
| `Pet.DesktopPet.TimerFires` | pa.py:80-82 | the timer is no longer pending, and the default clip is shown if it was pending and no drag is on |
| `Pet.DesktopPet.HandleKeyEvent` | pa.py:86 | a raw key event is classified and, when it yields a hand, plays that typing clip |
| `Pet.DesktopPet.MousePressEvent` | pa.py:110-115 | a left press sets the offset, the click clip and the drag flag; any other button changes nothing |
| `Pet.DesktopPet.MouseMoveEvent` | pa.py:117-119 | while dragging, the position becomes global - offset; otherwise nothing changes |
| `Pet.DesktopPet.MouseReleaseEvent` | pa.py:121-123 | any button ends the drag and shows the default clip; offset, position and timer are unchanged |

## Left out

- `get_resource_path` (pa.py:10-24) is left out. It is a filesystem lookup with console input and process exit.
- Loading and playing `QMovie` clips, `setMovie`, window flags, translucency and `adjustSize` are Qt calls. Only the identity of the current clip is modelled, and the widget size is a parameter.
- The keyboard hook installation, the `QThread` run loop, cross-thread signal delivery and `terminate` on close (pa.py:31-32, pa.py:85-87, pa.py:125-127) are concurrency and OS hooks. `HandleKeyEvent` is the delivered signal, taken one event at a time on the UI thread.
- The 100 ms delay of the timer is not modelled. There is no clock, only a pending flag and an explicit timeout event.
- The screen geometry query (pa.py:91) is replaced by a screen size argument.
- The `__main__` block (pa.py:131-140) is application start-up and error printing.
- `Keyboard.Lower`: only ASCII case mapping is modelled, not Python's full Unicode lower-casing. This leaves the classification unchanged, for the reason given above.
- Coordinates: Qt keeps coordinates in 32-bit integers. The model uses unbounded integers and ignores overflow, which no screen position reaches.
