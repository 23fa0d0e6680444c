# Interaction core of a personal portfolio site, in Dafny

The site is a single-page React application. Almost all of it is visual
decoration. This project models the three pieces of it that carry logic, and
proves their properties:

- **The gear control** (`src/components/GearScroll.tsx`, module `GearScroll`).
  A mouse or single-touch drag around a circular control becomes a stream of
  pointer angles. Each move takes the difference from the last angle and
  corrects it once for the +/-180 degree seam. It adds the result to the gear's
  rotation. Outside a 0.5 degree dead zone it emits a scroll command
  `(down | up, 3 * |delta|)`. Moves with no drag in progress are ignored.
- **The scrolling pages** (`src/pages/ProjectsPage.tsx`, `ExperiencePage.tsx`,
  `SkillsPage.tsx`, module `GearPages`). Each page turns a command into a
  signed vertical `scrollBy` on its container. It does nothing while the
  container is not mounted. Each page gives its own id to its navigation bar.
- **Navigation** (`src/App.tsx`, module `Navigation`; and
  `src/components/BubbleNavigation.tsx`, module `Bubbles`). The shell holds the
  current page and a transition lock. A request for the current page, or any
  request while the lock is held, is dropped. An accepted request takes the
  lock, and a deferred commit later switches the page and releases the lock.
  The bubble bar reloads the site when its own page is clicked. Any other click
  plays an expansion effect and forwards the request after a delay. The bar has
  no lock of its own.
- **The typewriter** (`src/components/TypingText.tsx`, module `Typing`). Each
  timer tick types one more character of the current line, moves to the next
  line, or stops.

Timers become explicit "fires" methods: `App.CommitFires`,
`BubbleNavigation.TimerFires` and `TypingText.Tick`. A cancelled timer is one
that is never fired. The host's `atan2` in degrees is a parameter of the gear
(`angleOf`), whose results lie in [-180, 180]. All arithmetic is over `real`.
The module `Scenarios` drives the components through whole interactions using
only their contracts.

The model follows the code, including where it is easy to misread:

- The corrected delta lies in [-180, 180], and both ends occur
  (`SeamEndsReachable`). It is not the half-open (-180, 180].
- The bound holds only when both angles lie in [-180, 180]. That is always the
  case for atan2 results. For arbitrary inputs there is no bound.
- The shell stores the requested page id without checking it. `currentPage`
  is therefore a string, and rendering falls back to the home page.
- `displayedLines` is a JavaScript array. Writing past its end leaves holes.
  An empty line is never written, so its slot is a hole, which becomes an
  explicit `undefined` after the next copy `[...prev]` (`None` stands for
  both), or the slot is missing when no later line is written. Consequently the final cursor (shown when typing has
  stopped and the display is as long as the list of lines) never appears when
  the last line is empty (`TypingText.Run`, `FinishedDisplay`).

## Model

| member | source | states |
|---|---|---|
| `GearScroll.Center` | src/components/GearScroll.tsx:24-28 | the gesture centre is equidistant from the left and right edges and from the top and bottom edges of the control's box |
| `GearScroll.NormalizeDelta` | src/components/GearScroll.tsx:35-39 | the corrected delta differs from `current - last` by exactly 360 times the signed seam crossing; it is unchanged when the raw difference is already in [-180, 180]; for angles in [-180, 180] it lies in [-180, 180] |
| `GearScroll.SeamEndsReachable` | src/components/GearScroll.tsx:38-39 | a raw difference of -180 or 180 is left as it is, so both ends of the range occur |
| `GearScroll.Emit` | src/components/GearScroll.tsx:43-46 | a command is emitted iff `Abs(delta) > 0.5`; it scrolls down iff `delta > 0`; its amount is `3 * Abs(delta)`, hence more than 1.5 |
| `GearScroll.DeadZoneSilent` | src/components/GearScroll.tsx:43-46 | a drag whose every step stays in the dead zone emits no command at all |
| `GearScroll.SpinTracksAngle` | src/components/GearScroll.tsx:35-40 | over a whole drag, the rotation added equals the pointer's net change of angle minus 360 degrees per signed seam crossing |
| `GearScroll.Gear.constructor` | src/components/GearScroll.tsx:9-16 | a new gear has rotation 0, no drag in progress, last angle 0 and centre (0, 0) |
| `GearScroll.Gear.MouseDown` | src/components/GearScroll.tsx:22-31 | with no control element nothing changes; otherwise the centre becomes the box centre, the last angle becomes the pointer's angle, dragging starts, the rotation is kept, and the ghost `anchor` and `turns` restart from the current rotation and angle |
| `GearScroll.Gear.TouchStart` | src/components/GearScroll.tsx:64-74 | the same as MouseDown, at the first touch point |
| `GearScroll.Gear.MouseMove` | src/components/GearScroll.tsx:32-48 | when not dragging, nothing changes and nothing is emitted; when dragging, the rotation grows by the corrected delta even inside the dead zone, the emitted command is `Emit` of that delta, and the last angle becomes the new angle; the ghost `anchor` stays and `turns` grows by the step's seam crossing, so the invariant `Valid()` keeps the rotation equal to the drag's starting rotation plus the pointer's change of angle, up to whole turns |
| `GearScroll.Gear.TouchMove` | src/components/GearScroll.tsx:75-88 | the same as MouseMove, at the first touch point |
| `GearScroll.Gear.MouseUp` | src/components/GearScroll.tsx:49-51 | the drag ends and rotation, last angle, centre and ghost state are unchanged |
| `GearScroll.Gear.TouchEnd` | src/components/GearScroll.tsx:89-91 | the same as MouseUp |
| `GearPages.ScrollOffset` | src/pages/ProjectsPage.tsx:74 | the offset has the command's magnitude, and for a positive amount it is positive iff the direction is down |
| `GearPages.GearDeltaScrollsPage` | src/pages/ProjectsPage.tsx:72-78 | end to end, a delta outside the dead zone scrolls by exactly `3 * delta`, and a delta inside it emits nothing |
| `GearPages.ScrollContainer.ScrollBy` | src/pages/ProjectsPage.tsx:75-78 | scrolling by `top` moves only the vertical position, by `top` |
| `GearPages.GearPage.HandleGearScroll` | src/pages/ProjectsPage.tsx:72-80 | with a container, its vertical position moves by +amount going down and -amount going up, and the horizontal one is unchanged; with none, nothing may change |
| `GearPages.GearPage.Projects` | src/pages/ProjectsPage.tsx:86-88 | the Projects page gives "projects" to its bar and owns a fresh, idle gear |
| `GearPages.GearPage.Experience` | src/pages/ExperiencePage.tsx:75-77 | the Experience page gives "experience" to its bar and owns a fresh, idle gear |
| `GearPages.GearPage.Skills` | src/pages/SkillsPage.tsx:60-62 | the Skills page gives "skills" to its bar and owns a fresh, idle gear |
| `GearPages.GearPage.GearMouseMove` | src/pages/ExperiencePage.tsx:61-77 | a gear move wired to the page handler: while dragging, a delta outside the dead zone scrolls the mounted container by `3 * delta`, otherwise it stays; the horizontal position never changes |
| `Navigation.RenderPage` | src/App.tsx:22-37 | the rendered page is the one whose id equals the stored string, and home when no page has that id |
| `Navigation.RenderPageName` | src/App.tsx:8 | rendering a page's id yields that page, so the five ids are distinct |
| `Navigation.App.constructor` | src/App.tsx:10-11 | the shell starts on "home" with no transition and no pending commit |
| `Navigation.App.HandleNavigate` | src/App.tsx:12-21 | a request for the current page or during a transition changes nothing; otherwise the lock is taken, the commit to the requested page is scheduled and the page stays; the lock is held exactly while a commit is pending |
| `Navigation.App.CommitFires` | src/App.tsx:17-20 | a pending commit sets the page to the requested one, which always differs from the old page, and releases the lock; with none pending nothing changes |
| `Navigation.App.Rendered` | src/App.tsx:89-102 | the page on screen is the stored page when it is one of the five, and home otherwise |
| `Bubbles.NavItemsArePages` | src/components/BubbleNavigation.tsx:11-17 | the item ids are exactly the five page ids, each listed once |
| `Bubbles.OneActiveItem` | src/components/BubbleNavigation.tsx:68 | at most one item is active, and on one of the five pages that page's item is |
| `Bubbles.BubbleNavigation.constructor` | src/components/BubbleNavigation.tsx:19-21 | a new bar has no expanding bubble and no pending navigation |
| `Bubbles.BubbleNavigation.HandleBubbleClick` | src/components/BubbleNavigation.tsx:23-28 | a reload is requested iff the clicked id is the bar's page, and then nothing changes; any other click sets the expanding bubble to that id and schedules one more navigation to it |
| `Bubbles.BubbleNavigation.TimerFires` | src/components/BubbleNavigation.tsx:29-32 | the oldest pending timer forwards its page to onNavigate exactly once and clears the expanding bubble |
| `Typing.SetSlot` | src/components/TypingText.tsx:32-36 | writing slot k puts the value there, keeps every other slot, fills new slots before k with holes and makes the array at least k + 1 long |
| `Typing.RemainingFromStart` | src/components/TypingText.tsx:22-49 | typing a list takes one tick per character plus one per line before the stop |
| `Typing.TypeCharKeepsConsistent` | src/components/TypingText.tsx:30-38 | typing a character writes the first `currentCharIndex + 1` characters of the line and keeps every written entry a prefix of its line; it takes one tick off the work left |
| `Typing.AdvanceKeepsConsistent` | src/components/TypingText.tsx:41-45 | moving to the next line leaves the display unchanged and consistent, and takes one tick off the work left |
| `Typing.FinishedDisplay` | src/components/TypingText.tsx:70 | once all lines are consumed every non-empty line is shown in full, and the display is as long as the list iff the list is empty or its last line is non-empty |
| `Typing.TypingText.constructor` | src/components/TypingText.tsx:17-20 | typing starts with nothing displayed at line 0, character 0 |
| `Typing.TypingText.Tick` | src/components/TypingText.tsx:22-49 | past the last line only `isTyping` changes, to false; within a line one character is typed; at a line's end the line index advances and the character index resets, with the display unchanged; each tick while typing takes exactly one tick off the work left |
| `Typing.TypingText.Run` | src/components/TypingText.tsx:51-76 | typing stops after exactly the remaining work in ticks; every non-empty line is then shown in full, no in-line cursor shows, and the final cursor shows iff the list is empty or its last line is non-empty |
| `Scenarios.DoubleRequestCommitsOnce` | src/App.tsx:12-21 | two requests for "skills" before the commit change the page exactly once, to "skills" |
| `Scenarios.HomeToProjects` | src/App.tsx:40-41 | after requesting "projects" from home, home is still shown with the overlay up; after the commit, projects is shown and the overlay is gone |
| `Scenarios.SelfNavigationIgnored` | src/App.tsx:13 | requesting the current page never takes the lock |
| `Scenarios.BubbleClickReachesShell` | src/components/BubbleNavigation.tsx:23-33 | on the Projects page, clicking "projects" reloads; clicking "skills" shows the overlay, forwards "skills" when the timer fires, and the shell then shows Skills |
| `Scenarios.SeamCrossingScrollsDown` | src/components/GearScroll.tsx:32-48 | a drag from 170 to -170 degrees turns the gear by 20 degrees and scrolls the Skills page down by 60 pixels |
| `Scenarios.StrayMovesIgnored` | src/components/GearScroll.tsx:75-91 | a move before any drag, and a touch move after the touch ended, emit nothing and leave the rotation at 0 |

## Left out

- `calculateAngle` (src/components/GearScroll.tsx:17-21): `Math.atan2` and the radian-to-degree factor are floating-point library calls. They are the gear's `angleOf` parameter, constrained only to return a value in [-180, 180]. `Gear.AngleAt` passes `(deltaY, deltaX)`, the pointer's offset from the centre stored at drag start, to `angleOf` and has no contract of its own.
- Typing.TypingText.Tick: a JavaScript string's `length` and `slice` count UTF-16 code units, while the model's strings count Unicode characters. A line with characters outside the Basic Multilingual Plane (an emoji, say) takes one tick per code unit in the source and may briefly show half of a surrogate pair; the model types it one character per tick, so `Remaining` and `RemainingFromStart` count characters, not code units.
- Floating point: all deltas, gains and offsets are exact `real` arithmetic, with no rounding.
- `generateGearPath` (src/components/GearScroll.tsx:96-126): trigonometric SVG path building that the rendered output never uses.
- Timers and wall-clock time: the 500 ms commit, the 500 ms bubble delay and the typing and line delays are the methods that fire them. `clearTimeout` on re-render is a timer that is never fired.
- React render semantics: batched state updates and stale `useCallback` closures are not modelled. Each event sees the state the previous one left, and the check and lock in `handleNavigate` happen together.
- Window listener attach and detach (src/components/GearScroll.tsx:52-61): covered only as "moves while not dragging are ignored".
- `window.location.reload()`: the `reload` result of `HandleBubbleClick`. What a reload does is not modelled.
- Smooth scrolling: `scrollBy` with `behavior: 'smooth'` is an immediate addition to the scroll position. Clamping to the content's bounds is left to the browser.
- Touch events with no touch point: the source reads `touches[0]` unchecked, so `TouchStart` and `TouchMove` require at least one touch.
- The wiring of touch moves to the page handler is the same as for mouse moves (`GearMouseMove`) and is not repeated.
- `InlineCursorAt`, `FinalCursorShown`, `App.OverlayShown` and `BubbleNavigation.OverlayShown` are the render conditions themselves. They carry no contract of their own; `TypingText.Run` and the scenarios state what they yield.
- Hover state, the compact layout switch, animation variants, CSS, SVG decoration and the hard-coded content of every page. `src/pages/HomePage.tsx` and `src/pages/ContactPage.tsx` have no logic beyond passing their own id to the navigation bar.
