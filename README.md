# Sidebar width controller

A Dafny model of the resizable sidebar of a chat web application
(`app/components/sidebar.tsx`). The sidebar's width lives in the app's config
store. A drag handle resizes it. Pointer moves are throttled to one store
write per 20 ms. A move computes the new width from the width and pointer
position at the start of the drag, caps it at the maximum and snaps it to the
narrow width below the minimum. A pointer-up less than 300 ms after the
pointer-down counts as a click: the width then toggles between narrow and
the default. The layout policy derives a "narrow" flag and publishes the
width as the `--sidebar-width` CSS variable, `100vw` on mobile screens.
Alt/Ctrl + ArrowUp/ArrowDown switch to the previous or next chat session.

The click toggle follows the code. It reads the width the store holds when
the pointer is released. That includes a width that a move earlier in the
same short gesture already wrote. So a short drag is not undone: its moved
width is toggled (`DragSideBar.ShortDragTogglesMovedWidth`).

Modules:

- `Layout` (layout.dfy): the four width constants, `limit`, `shouldNarrow`
  and the published width, as pure functions. The constants are abstract.
  Lemmas that need their ordering require `WidthsOrdered()`, which is
  NARROW < MIN <= DEFAULT <= MAX.
- `Decimal` (decimal.dfy): the positional decimal rendering of an integer,
  which is what the template literal `${barWidth}px` produces for safe
  integers (magnitude at most 2^53 - 1, `Number.MAX_SAFE_INTEGER`), with an
  inverse reader. It is used to prove that the published
  string denotes the derived width.
- `DragSideBar` (drag.dfy): the controller's state as the value `DragState`.
  The transitions are `Start`, `Move`, `End` and `ToggleWidth`, with lemmas
  about single steps, streams of moves and whole gestures. The class
  `SidebarDrag` holds the same state in mutable fields. Its methods
  `DragStart`, `DragMove`, `DragEnd` and `Toggle` are proved to perform the
  transitions (`State() == Move(old(State()), clientX, now)`, and so on).
- `HotKey` (hotkey.dfy): the key-to-delta decoder, and a listener class that
  records the deltas passed to the chat store's `nextSession`.
- `Wrappers` (wrappers.dfy): `Option`.

Inputs that the source reads from its environment are parameters. These are
`Date.now()` (`now`, integer milliseconds), the pointer's `clientX`, the
mobile-screen flag (`isMobile`) and the key event's `altKey`, `ctrlKey` and
`key`.

A pointer event that arrives when no handler is registered does nothing.
`Move` and `End` model this as the identity. `DragStart` requires that no
gesture is in progress (see "Left out").

## Model

| member | source | states |
|---|---|---|
| Layout.Limit | app/components/sidebar.tsx:59 | the result is at most MAX and at most the input, equals the input whenever the input is at most MAX, and otherwise is MAX |
| Layout.ShouldNarrow | app/components/sidebar.tsx:115-116 | never narrow on mobile; on a desktop screen narrow exactly when the width is below MIN |
| Layout.BarWidth | app/components/sidebar.tsx:119-121 | NARROW when narrow; otherwise exactly `limit(width)`: the stored width when it is at most MAX, else MAX |
| Layout.PublishedWidth | app/components/sidebar.tsx:118-124 | full viewport exactly on mobile; otherwise NARROW pixels below MIN and `limit(width)` pixels from MIN up |
| Layout.CssWidth | app/components/sidebar.tsx:122 | the string is "100vw" exactly on mobile, and otherwise ends in "px" |
| Layout.CssWidthRoundTrip | app/components/sidebar.tsx:122 | parsing the published CSS string ("100vw" or "<n>px") gives back exactly the derived width |
| Layout.CssWidthDeterminesLayout | app/components/sidebar.tsx:122 | two inputs publish the same string only if they derive the same width |
| Layout.PublishedIsStoredWidth | app/components/sidebar.tsx:115-122 | with ordered constants, a desktop screen publishes any in-range stored width (NARROW or in [MIN, MAX]) as that width, and the narrow flag is set exactly for NARROW |
| Decimal.ShowNat | app/components/sidebar.tsx:122 | a natural number renders as a non-empty digit string that starts with '0' only for zero |
| Decimal.ShowInt | app/components/sidebar.tsx:122 | canonical form: a non-negative integer renders as digits with a leading '0' only for zero; a negative one as '-' followed by digits that do not start with '0' (so never "-0" or "007") |
| Decimal.ReadShowNat | app/components/sidebar.tsx:122 | reading the rendered digits gives back the number |
| Decimal.ReadShowInt | app/components/sidebar.tsx:122 | reading a rendered integer, with its sign, gives back the integer |
| DragSideBar.ToggleWidth | app/components/sidebar.tsx:66-74 | below MIN gives DEFAULT, otherwise NARROW; with ordered constants the result is in range and the desktop narrow flag flips |
| DragSideBar.MoveTarget | app/components/sidebar.tsx:87-95 | the written width is NARROW or in [MIN, MAX]; it equals startDragWidth + d inside the bounds, NARROW below MIN, and MAX above MAX (when MIN <= MAX) |
| DragSideBar.Start | app/components/sidebar.tsx:76-111 | records clientX, the current stored width and the start time, and registers both handlers; the stored width and lastUpdateTime are unchanged |
| DragSideBar.Move | app/components/sidebar.tsx:82-96 | throttled or unregistered: nothing changes; applied: lastUpdateTime becomes now, the width becomes MoveTarget of startDragWidth and the pointer delta (not of the current width), nothing else changes |
| DragSideBar.End | app/components/sidebar.tsx:98-108 | removes both handlers; toggles the current (possibly moved) width exactly when the gesture lasted less than 300 ms; otherwise leaves the width as the last move left it |
| DragSideBar.TransitionsKeepWidthInRange | app/components/sidebar.tsx:66-108 | with ordered constants, every transition keeps the stored width NARROW or in [MIN, MAX] |
| DragSideBar.MoveRun | app/components/sidebar.tsx:82-96 | a stream of moves changes only the width and lastUpdateTime, never moves lastUpdateTime backwards, and leaves the width unchanged or in range |
| DragSideBar.ThrottleSpacing | app/components/sidebar.tsx:83-86 | in any stream of moves, applied writes are at least 20 ms apart and at least 20 ms after the previous write; lastUpdateTime ends at the last applied write |
| DragSideBar.AppliedWithin | app/components/sidebar.tsx:83-86 | every applied write happens at the time of one of the moves, so it lies within their time window |
| DragSideBar.ThrottleBound | app/components/sidebar.tsx:83-86 | moves within a window of D ms write the store at most D / 20 + 1 times |
| DragSideBar.ThrottleOver100Ms | app/components/sidebar.tsx:83-86 | moves spread over 100 ms write the store at most 6 times |
| DragSideBar.StillMovesKeepWidth | app/components/sidebar.tsx:87-95 | moves at the starting pointer position keep an in-range width unchanged |
| DragSideBar.StillGesture | app/components/sidebar.tsx:76-108 | a gesture with no net movement ends with no handlers registered, and toggles the width exactly when it took less than 300 ms |
| DragSideBar.ClickBoundary | app/components/sidebar.tsx:104-107 | such a gesture released after 299 ms toggles the width; released after 301 ms it keeps the width |
| DragSideBar.ShortDragTogglesMovedWidth | app/components/sidebar.tsx:66-108 | a drag to an in-bounds width that ends within 300 ms collapses to NARROW, because the toggle reads the moved width, whatever the width was before |
| DragSideBar.GestureKeepsInvariants | app/components/sidebar.tsx:76-111 | a whole gesture ends with no handlers registered, the width in range and lastUpdateTime not earlier than before |
| DragSideBar.SidebarDrag.constructor | app/components/sidebar.tsx:61-64 | mounting sets startX to 0, startDragWidth to the stored width and lastUpdateTime to the mount time, with no handlers registered |
| DragSideBar.SidebarDrag.Toggle | app/components/sidebar.tsx:66-74 | the stored width becomes ToggleWidth of the current width; nothing else changes |
| DragSideBar.SidebarDrag.DragStart | app/components/sidebar.tsx:76-111 | the new state is Start of the old one |
| DragSideBar.SidebarDrag.DragMove | app/components/sidebar.tsx:82-96 | the new state is Move of the old one |
| DragSideBar.SidebarDrag.DragEnd | app/components/sidebar.tsx:98-108 | the new state is End of the old one |
| HotKey.SessionDelta | app/components/sidebar.tsx:43-50 | -1 exactly for Alt or Ctrl with ArrowUp, +1 exactly for Alt or Ctrl with ArrowDown, nothing else; no delta without a modifier |
| HotKey.ArrowKey | app/components/sidebar.tsx:45-48 | the arrow key for a delta decodes to that delta with either modifier held, and to nothing without one |
| HotKey.DeltaHasArrowKey | app/components/sidebar.tsx:43-50 | every decoded delta is -1 or +1 and comes from its own arrow key with a modifier held |
| HotKey.HotKeyListener.OnKeyDown | app/components/sidebar.tsx:43-50 | one key event appends the decoded delta, if any, to the `nextSession` calls: never more than one |

## Left out

- The JSX of `SideBar` (app/components/sidebar.tsx:132-261): navigation, the chat list, buttons, confirm and toast dialogs, links. This is presentation and router calls.
- The internals of the config and chat stores. The config store is the single `sidebarWidth` field, updated in one step. The chat store is the recorded list of `nextSession` deltas.
- `useMobileScreen` and `isIOS`: `isMobile` is an input.
- `document.documentElement.style.setProperty`, React effect scheduling, and re-registering the keydown listener on every render. Only the value written to `--sidebar-width` is modelled. That value is a function of `(width, isMobile)`, so evaluating it again with the same inputs gives the same string.
- Overlapping gestures. A second pointer-down before the pointer-up would register a second pair of handlers. `SidebarDrag.DragStart` and `Start` therefore require that no gesture is in progress.
- The concrete values of the width constants: they are defined in a file that is not part of this model.
- The `?? DEFAULT_SIDEBAR_WIDTH` fallbacks (app/components/sidebar.tsx:63, 121). The stored width is always an integer here.
- Fractional pointer coordinates: `clientX` is an integer (`Date.now()` already gives whole milliseconds).
- Decimal.ShowInt: renders every integer exactly in positional notation. JavaScript numbers are doubles: above 2^53 - 1 most integers are not representable and the rendering gives the shortest round-tripping digits padded with zeros (`${2**60}` is "1152921504606847000"), and from 10^21 on it switches to exponent notation (`1e+21`). Sidebar widths never come near these magnitudes.
- DragSideBar.Move: takes a single `now`. `handleDragMove` reads `Date.now()` twice: once for the throttle test (app/components/sidebar.tsx:83) and once for the stored `lastUpdateTime` (app/components/sidebar.tsx:86). In the source the second read can be later than the first; the model stores the time the throttle tested. A later stored time could only lengthen the wait before the next applied move.
- DragSideBar.SidebarDrag.DragMove: uses the same single `now` as `DragSideBar.Move`, for the same reason.
- app/components/ImageDisplay.tsx: a load flag with no observable effect, because both branches of its style expression are identical.
