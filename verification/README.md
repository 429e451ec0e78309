# Portfolio effects, modelled in Dafny

This project models the interactive core of a personal portfolio site. It
covers five client-side React components under `components/ui/`, one Dafny
module each:

- `bouncing-balls.jsx` → `bouncing_balls.dfy` (module `BouncingBalls`): the canvas mini-game.
  - White balls drift and bounce off the window edges.
  - A click splits the ball under the pointer into 3 to 5 half-size fragments. The game keeps at most 50 balls.
  - A snake follows the mouse and eats the balls its head touches, growing by three segments per ball. While fewer than 5 balls are left, each eaten ball is replaced by a new random one.
- `terminal.jsx` → `terminal.dfy` (module `Terminal`): the in-page terminal.
  - It echoes each submitted line into its history and dispatches on the first word of the trimmed, lower-cased line.
  - The fixed command table answers `help`, `about`, `skills`, `projects`, `education`, `contact`, `clear`, `github` and `linkedin`.
  - `project <term>` searches project titles; `skill <term>` searches skill names, category by category.
  - The profile card drops in while the terminal is open.
- `hacker-background.jsx` → `hacker_background.dfy` (module `HackerBackground`): lines of code typed out one character at a time. There are at most 8 lines, 40 px apart, and the list is cleared once every line is complete.
- `loading-screen.jsx` → `loading_screen.dfy` (module `LoadingScreen`): the progress ramp from 0 to 100, its status labels, the dot counter and the hide timeout.
- `falling-cards.jsx` → `falling_cards.dfy` (module `FallingCards`): the draggable card that falls onto a dotted line.

The model follows the source's own form:

- Objects whose fields the source mutates are classes:
  - `Ball`, `Snake` and `Arena` (the canvas closure's state);
  - `CodeLine` and `Background`;
  - `Console` (the terminal component's state);
  - `Loader` and `FallingCard`.
- Each method is proved against a pure specification function:
  - `Bounce` for a ball update;
  - `Advance` and `RelaxFrom` for the snake;
  - `Click` for a click;
  - `SweepFrom` for one frame's ball loop;
  - `Step` for the background;
  - `Respond` for a terminal command;
  - `Step` and `Fall` for the loading ramp and the card.
- The properties the components rely on are lemmas about those functions.

Numbers are exact reals. `Math.sqrt` is a parameter `sqrt`, required to be the square root on the non-negative reals (`SqrtSpec`). The distance tests are proved equivalent to comparisons of squared distances. `Math.random`, `Date.now` and the site's static content are parameters too (see "Left out").

## Model

| member | source | states |
|---|---|---|
| BouncingBalls.BounceInBounds | components/ui/bouncing-balls.jsx:34-50 | on a canvas at least one diameter wide and high, an updated ball lies wholly inside the canvas |
| BouncingBalls.BounceReflects | components/ui/bouncing-balls.jsx:34-46 | a velocity component is negated exactly when the moved ball crosses the matching pair of walls; radius and speed magnitudes are unchanged |
| BouncingBalls.BounceFree | components/ui/bouncing-balls.jsx:34-49 | a ball that stays clear of every wall moves by exactly its velocity |
| BouncingBalls.ClickedIsDistanceTest | components/ui/bouncing-balls.jsx:79-82 | the squared-distance test is the source's `sqrt(...) <= radius` test |
| BouncingBalls.SplitBall | components/ui/bouncing-balls.jsx:84-110 | a ball below radius 10 yields no fragments; otherwise one fragment per drawn velocity |
| BouncingBalls.FragmentsAt | components/ui/bouncing-balls.jsx:94-107 | fragment i is at the given centre, with the given radius and the i-th velocity |
| BouncingBalls.SplitElements | components/ui/bouncing-balls.jsx:84-110 | each fragment is a half-radius copy at the parent's centre, with the i-th velocity |
| BouncingBalls.SplitShape | components/ui/bouncing-balls.jsx:84-110 | a split yields nothing exactly below radius 10; otherwise 3 to 5 balls, each at the parent's centre, of half its radius (so at least 5), with speed in [2, 4) |
| BouncingBalls.InitialCount | components/ui/bouncing-balls.jsx:315-321 | one ball per full 50000 square pixels, at most 10; exactly 10 when the area is 500000 or more |
| BouncingBalls.StartSpaced | components/ui/bouncing-balls.jsx:115-131 | neighbouring starting segments are exactly 8 apart |
| BouncingBalls.HeadStep | components/ui/bouncing-balls.jsx:136-149 | when the target is more than 1 away, the head moves exactly min(distance, 5), so never more than 5 |
| BouncingBalls.HeadApproaches | components/ui/bouncing-balls.jsx:136-149 | the new head is exactly min(distance, 5) closer to the target than the old one: it moves along the line to the target and never overshoots |
| BouncingBalls.AdvanceShape | components/ui/bouncing-balls.jsx:134-155 | the head step keeps the segment count; a target within 1 changes nothing; otherwise the head moves at most 5 and every other segment shifts down by one |
| BouncingBalls.PullCloser | components/ui/bouncing-balls.jsx:157-171 | a segment within 8 of its predecessor stays put; a farther one ends strictly closer to it but still more than 8 away |
| BouncingBalls.RelaxFrom | components/ui/bouncing-balls.jsx:158-171 | relaxation keeps the segment count and leaves the segments before the start index untouched |
| BouncingBalls.RelaxShape | components/ui/bouncing-balls.jsx:158-171 | every relaxed segment is the original one pulled towards its already relaxed predecessor |
| BouncingBalls.Grown | components/ui/bouncing-balls.jsx:301-312 | growing never changes the head, so collisions in the rest of a frame are unaffected |
| BouncingBalls.GrownShape | components/ui/bouncing-balls.jsx:301-312 | n calls of `grow` keep the old segments and add 3n copies of the tail |
| BouncingBalls.Ball.constructor | components/ui/bouncing-balls.jsx:22-32 | a ball built from explicit parameters has exactly those parameters |
| BouncingBalls.Ball.Update | components/ui/bouncing-balls.jsx:34-50 | the in-place update leaves the ball in the state `Bounce` specifies |
| BouncingBalls.Ball.Split | components/ui/bouncing-balls.jsx:84-110 | `split` returns distinct new balls whose states are `SplitBall` of the parent |
| BouncingBalls.Snake.constructor | components/ui/bouncing-balls.jsx:115-132 | the snake starts with 15 segments, 8 apart leftwards from the centre, length 15 and score 0 |
| BouncingBalls.Snake.Update | components/ui/bouncing-balls.jsx:134-172 | `update` performs the head step and then the relaxation pass; length and score are unchanged |
| BouncingBalls.Snake.MoveHead | components/ui/bouncing-balls.jsx:136-155 | the `unshift` and `pop` loop leaves the segments `Advance` specifies |
| BouncingBalls.Snake.Relax | components/ui/bouncing-balls.jsx:157-171 | the in-place relaxation loop leaves the segments `RelaxFrom` specifies |
| BouncingBalls.Snake.Grow | components/ui/bouncing-balls.jsx:301-312 | the length grows by 3 and the score by 1, and three copies of the tail are pushed |
| BouncingBalls.Snake.GrowBy | components/ui/bouncing-balls.jsx:387-389 | n calls of `grow` add 3n to the length and n to the score |
| BouncingBalls.CollidesIsDistanceTest | components/ui/bouncing-balls.jsx:293-299 | the squared-distance collision test is the source's `sqrt(...) <= 13 + radius` test |
| BouncingBalls.LastHit | components/ui/bouncing-balls.jsx:344-345 | a found index lies below the searched bound |
| BouncingBalls.LastHitSpec | components/ui/bouncing-balls.jsx:343-361 | the click search finds the highest-index ball containing the point, and finds nothing exactly when no ball contains it |
| BouncingBalls.FindClicked | components/ui/bouncing-balls.jsx:344-361 | the downward loop returns what `LastHit` specifies |
| BouncingBalls.Remove | components/ui/bouncing-balls.jsx:349 | `splice(i, 1)` keeps the balls before i and moves the later ones down by one |
| BouncingBalls.Newest | components/ui/bouncing-balls.jsx:354 | `splice(0, length - n)` keeps the newest n balls in order |
| BouncingBalls.Cap | components/ui/bouncing-balls.jsx:353-355 | at most 50 balls remain; a list of 50 or fewer is unchanged; a longer one keeps its newest 50 |
| BouncingBalls.ClickShape | components/ui/bouncing-balls.jsx:336-361 | a click that hits nothing changes nothing; one that hits ends with the hit ball's fragments, preceded by the newest of the other balls in order, 50 at most |
| BouncingBalls.ClickBalls | components/ui/bouncing-balls.jsx:336-361 | the click handler's list update is `Click`; it reports a hit exactly when some ball contains the point; every ball keeps radius at least 5 and there are at most 50 |
| BouncingBalls.ClickKeepsSized | components/ui/bouncing-balls.jsx:84-88 | clicks keep every ball at radius 5 or more |
| BouncingBalls.ClickBounded | components/ui/bouncing-balls.jsx:352-355 | clicks keep the game within 50 balls |
| BouncingBalls.Visited | components/ui/bouncing-balls.jsx:382-396 | one loop turn eats at most one ball and spawns only after eating; balls are conserved: count + eaten = old count + spawned |
| BouncingBalls.VisitedSpawns | components/ui/bouncing-balls.jsx:388-395 | a loop turn spawns a ball exactly when it eats one and fewer than 5 balls are left after the removal |
| BouncingBalls.VisitedKeepsRadius | components/ui/bouncing-balls.jsx:386-394 | a loop turn keeps every ball at radius 5 or more when its replacement is a fresh random ball |
| BouncingBalls.SweepKeepsRadius | components/ui/bouncing-balls.jsx:382-396 | a frame's ball loop keeps every ball at radius 5 or more |
| BouncingBalls.SweepKeepsValid | components/ui/bouncing-balls.jsx:382-396 | a frame's ball loop keeps the game within 50 balls, each of radius 5 or more |
| BouncingBalls.VisitedHits | components/ui/bouncing-balls.jsx:383-389 | a turn eats its ball exactly when the head touches it after it moves, and does not change the hits among earlier balls |
| BouncingBalls.SweepEatsHits | components/ui/bouncing-balls.jsx:382-396 | a frame eats as many balls as the head touches after they move |
| BouncingBalls.Survivors | components/ui/bouncing-balls.jsx:382-396 | the balls a frame keeps number the balls minus those the head touches |
| BouncingBalls.SurvivorsUntouched | components/ui/bouncing-balls.jsx:386-387 | the head touches none of the balls a frame keeps |
| BouncingBalls.SweepKeepsSurvivors | components/ui/bouncing-balls.jsx:382-396 | after the loop has visited indices i - 1 down to 0, the list is the untouched moved balls below i in index order, then the balls from i on, then the spawned balls in the order they were made |
| BouncingBalls.SweepSurvivors | components/ui/bouncing-balls.jsx:382-396 | after a frame the list is exactly the moved balls the head did not touch, in their old order, followed by the new balls spawned to keep 5 |
| BouncingBalls.SweepCounts | components/ui/bouncing-balls.jsx:382-396 | a frame spawns no more than it eats and never raises the ball count; a game of 5 or more ends the frame with exactly max(count − eaten, 5) balls; a smaller game stays at its size |
| BouncingBalls.SweepNoHit | components/ui/bouncing-balls.jsx:382-396 | a frame in which the head touches no ball only moves the balls |
| BouncingBalls.SweepBounded | components/ui/bouncing-balls.jsx:382-396 | a frame keeps the game within 50 balls |
| BouncingBalls.Arena.constructor | components/ui/bouncing-balls.jsx:315-326 | the game starts with the drawn initial balls, a fresh snake at the centre, and the pointer at the centre |
| BouncingBalls.Arena.Resize | components/ui/bouncing-balls.jsx:13-16 | the canvas takes the window's size; nothing else changes |
| BouncingBalls.Arena.MouseMove | components/ui/bouncing-balls.jsx:329-333 | the pointer is stored in canvas coordinates; nothing else changes |
| BouncingBalls.Arena.HandleClick | components/ui/bouncing-balls.jsx:336-361 | the click updates the balls as `Click` specifies; the invariant (at most 50 balls, radius at least 5) is kept |
| BouncingBalls.Arena.Animate | components/ui/bouncing-balls.jsx:378-403 | one frame: the balls are swept as `SweepFrom` specifies; the snake grows by 3 per ball eaten and scores 1 per ball, then moves towards the pointer; the invariant is kept |
| BouncingBalls.Arena.SweepBalls | components/ui/bouncing-balls.jsx:382-396 | the ball loop leaves `SweepFrom`'s balls, and the snake has grown once per ball eaten |
| BouncingBalls.Arena.SweepValues | components/ui/bouncing-balls.jsx:382-396 | the downward loop over the ball list computes `SweepFrom`'s balls, eaten count and spawns used |
| BouncingBalls.Arena.VisitBall | components/ui/bouncing-balls.jsx:382-395 | one turn of the loop computes what `Visited` specifies |
| Terminal.TrimStart | components/ui/terminal.jsx:145 | the result is a suffix with no leading white space, and everything dropped is white space |
| Terminal.TrimEnd | components/ui/terminal.jsx:145 | the result is a prefix with no trailing white space, and everything dropped is white space |
| Terminal.TrimEmptyIffBlank | components/ui/terminal.jsx:145 | trimming gives "" exactly for white-space-only input; otherwise the result has no white space at either end |
| Terminal.TrimLowerCommute | components/ui/terminal.jsx:145 | trimming and lower-casing commute, and lower-casing is idempotent |
| Terminal.Split | components/ui/terminal.jsx:146 | `split(" ")` yields at least one piece, and no piece contains a space |
| Terminal.JoinSplit | components/ui/terminal.jsx:146 | joining the pieces of `split(" ")` with " " gives back the line |
| Terminal.SplitJoin | components/ui/terminal.jsx:146 | splitting space-free pieces joined with " " gives back the pieces |
| Terminal.SearchTermIsRest | components/ui/terminal.jsx:146 | the search term `args.join(" ")` is exactly the line after its first space |
| Terminal.Includes | components/ui/terminal.jsx:157 | `includes` holds exactly when the term occurs as a contiguous piece |
| Terminal.FindIndex | components/ui/terminal.jsx:156-158 | `find` returns the first match, and returns nothing exactly when nothing matches |
| Terminal.CategoryHit | components/ui/terminal.jsx:180-189 | a category contributes at most one entry, and none exactly when none of its skills matches |
| Terminal.CategoryHitFirst | components/ui/terminal.jsx:180-189 | the entry a category contributes is the one for its first skill whose name includes the term |
| Terminal.SkillHits | components/ui/terminal.jsx:179-190 | the search yields at most one output per category, all of kind output |
| Terminal.SkillHitsEmpty | components/ui/terminal.jsx:179-192 | the skill search finds nothing exactly when no skill of any category matches |
| Terminal.ProjectAnswer | components/ui/terminal.jsx:154-172 | the reply is the first project whose lower-cased title includes the term; it is the "Project not found" error exactly when none does |
| Terminal.SkillAnswer | components/ui/terminal.jsx:175-199 | the reply is the per-category hits in order; it is the single "Skill not found" error exactly when no skill matches |
| Terminal.RespondIsEchoThenAnswer | components/ui/terminal.jsx:144-149 | a command is the echo of the raw line followed by the answer to the normalized line |
| Terminal.EchoFirst | components/ui/terminal.jsx:128-149 | the history is wiped exactly when the command word is `clear`; otherwise the first appended entry is the echo `$ <raw line>` |
| Terminal.ResetOnlyOnClear | components/ui/terminal.jsx:202-206 | only the `clear` word resets the history |
| Terminal.CaseInsensitive | components/ui/terminal.jsx:145 | two lines that agree once lower-cased get the same answer |
| Terminal.UnknownCommand | components/ui/terminal.jsx:202-212 | a word outside the table, including `project` or `skill` with no argument, gets exactly one "Command not found" error |
| Terminal.EmptyLineEchoOnly | components/ui/terminal.jsx:149-151 | a blank line gets the echo and nothing else |
| Terminal.ConstructorWordAsWritten | components/ui/terminal.jsx:202-206 | the word `constructor` is found by the as-written lookup, producing an untyped empty entry, while the corrected table reports it not found |
| Terminal.CardRises | components/ui/terminal.jsx:33-35 | below the target, the card moves down 3 per frame and stays unlanded |
| Terminal.CardPinned | components/ui/terminal.jsx:33-41 | once the card reaches the target, it is pinned at 20 and landed |
| Terminal.CardLandedStays | components/ui/terminal.jsx:36-40 | a landed card stays put |
| Terminal.CardLandsAfterOpening | components/ui/terminal.jsx:16-46 | from -300, the card is at 21 after 107 frames and landed at 20 from frame 108 on |
| Terminal.CardFadesIn | components/ui/terminal.jsx:271-330 | from -300, the card is transparent exactly during the first 100 frames, and the hook is drawn exactly from frame 101 on |
| Terminal.Console.constructor | components/ui/terminal.jsx:10-17 | the terminal starts closed, with empty input, the two welcome lines and the card at -300 |
| Terminal.Console.HandleCommand | components/ui/terminal.jsx:144-213 | `handleCommand` changes the history as `Respond` specifies, and nothing else |
| Terminal.Console.Dispatch | components/ui/terminal.jsx:151-212 | the dispatch on the first word appends (or, for `clear`, resets to) exactly what `Answer` gives for the line, and changes nothing else |
| Terminal.Console.ProjectSearch | components/ui/terminal.jsx:154-172 | the project search appends exactly `ProjectAnswer` |
| Terminal.Console.SkillSearch | components/ui/terminal.jsx:175-199 | the skill search appends exactly `SkillAnswer` |
| Terminal.Console.SearchSkills | components/ui/terminal.jsx:177-190 | the `forEach` loop gathers `SkillHits`, and `found` is true exactly when something was gathered |
| Terminal.Console.RunTable | components/ui/terminal.jsx:201-212 | the table lookup appends the entry, wipes the history for `clear`, or appends "Command not found" |
| Terminal.Console.Edit | components/ui/terminal.jsx:431 | typing sets only the input field |
| Terminal.Console.Submit | components/ui/terminal.jsx:215-221 | blank input changes nothing; otherwise the raw input runs as a command and the field is cleared |
| Terminal.Console.Open | components/ui/terminal.jsx:231 | the button opens the terminal and changes nothing else |
| Terminal.Console.Close | components/ui/terminal.jsx:47-50 | closing puts the card back at -300, unlanded, and keeps the history |
| Terminal.Console.CardFrame | components/ui/terminal.jsx:32-41 | one frame moves the card as `CardStep` specifies; a landed card stays put |
| Terminal.Console.HookShown | components/ui/terminal.jsx:271-303 | the line, icon and hook are drawn only when the card is below 0, never while it is transparent |
| HackerBackground.Tick | components/ui/hacker-background.jsx:77-90 | an update keeps the typing state consistent; nothing happens when complete or within 50 ms; a timed update shows one more character or completes the line |
| HackerBackground.TypingFinishes | components/ui/hacker-background.jsx:77-90 | updates more than 50 ms apart type the rest of the line one character each and then complete it |
| HackerBackground.Fresh | components/ui/hacker-background.jsx:66-75 | a new line starts consistent, incomplete and with nothing shown |
| HackerBackground.GrowKeepsLayout | components/ui/hacker-background.jsx:112-119 | adding a line keeps at most 8 lines, 40 apart from y = 50 |
| HackerBackground.StepKeepsLayout | components/ui/hacker-background.jsx:109-129 | a whole frame keeps that layout and each line's typing state consistent |
| HackerBackground.TickLinesKeepLayout | components/ui/hacker-background.jsx:126-129 | updating every line keeps the layout |
| HackerBackground.StepAdds | components/ui/hacker-background.jsx:112-129 | when there is room, a frame appends one new line after the updated old ones and clears nothing |
| HackerBackground.StepClears | components/ui/hacker-background.jsx:112-124 | a non-empty list is emptied exactly when all its lines are complete and no new line fits |
| HackerBackground.StepKeeps | components/ui/hacker-background.jsx:121-129 | while some line is incomplete, a frame keeps every line, updated, in order |
| HackerBackground.CodeLine.constructor | components/ui/hacker-background.jsx:66-75 | a new line has the state `Fresh` describes and shows nothing |
| HackerBackground.CodeLine.Update | components/ui/hacker-background.jsx:77-90 | `update` moves the line to the state `Tick` specifies, and the shown text remains the first `charIndex` characters |
| HackerBackground.Background.constructor | components/ui/hacker-background.jsx:59 | the list starts empty |
| HackerBackground.Background.Resize | components/ui/hacker-background.jsx:52-55 | a resize changes only the height |
| HackerBackground.Background.Animate | components/ui/hacker-background.jsx:109-129 | one frame leaves the lines `Step` specifies and keeps the layout invariant |
| HackerBackground.Background.AddLine | components/ui/hacker-background.jsx:112-119 | the push leaves the list `Grow` specifies; the other lines are the old objects |
| HackerBackground.Background.ClearIfDone | components/ui/hacker-background.jsx:121-124 | the `every` check and truncation leave the list `Clear` specifies |
| HackerBackground.Background.UpdateAll | components/ui/hacker-background.jsx:126-129 | the `forEach` updates every line as `TickLine` specifies, keeping the list |
| LoadingScreen.Increment | components/ui/loading-screen.jsx:48-58 | the increment is between 0.3 and 1.5 |
| LoadingScreen.LabelFor | components/ui/loading-screen.jsx:37-46 | a tick never sets INITIALIZING, and sets COMPLETE exactly from 90 on |
| LoadingScreen.StepBounded | components/ui/loading-screen.jsx:24-61 | a tick never passes 100; below 100 it strictly increases by the increment (capped at 100), sets a label and schedules nothing |
| LoadingScreen.StepFixedPoint | components/ui/loading-screen.jsx:26-35 | at 100 a tick keeps 100, sets no label and schedules the hide timeout, every time |
| LoadingScreen.RunProgresses | components/ui/loading-screen.jsx:24-62 | progress never decreases or passes 100, and gains at least 0.3 per tick until 100 |
| LoadingScreen.RunSplit | components/ui/loading-screen.jsx:24-62 | m ticks followed by n ticks are m + n ticks |
| LoadingScreen.RunPhase | components/ui/loading-screen.jsx:49-60 | within a band of constant increment and below the cap, k ticks add exactly k times the increment |
| LoadingScreen.CompletesFromZero | components/ui/loading-screen.jsx:8-62 | from 0 the ramp is still below 100 after 129 ticks and exactly at 100 after 130 |
| LoadingScreen.StaysComplete | components/ui/loading-screen.jsx:26-35 | once at 100, the ramp stays at 100 |
| LoadingScreen.LabelMonotone | components/ui/loading-screen.jsx:37-46 | labels never go back as progress grows |
| LoadingScreen.Dots | components/ui/loading-screen.jsx:79 | the dot string is exactly `dotCount` dots |
| LoadingScreen.NextDot | components/ui/loading-screen.jsx:65-67 | the dot counter cycles 0, 1, 2, 3, 0 |
| LoadingScreen.Percent | components/ui/loading-screen.jsx:172-177 | the shown percentage is the floor of the progress, within 0..100 |
| LoadingScreen.Loader.constructor | components/ui/loading-screen.jsx:8-12 | the screen starts at 0, INITIALIZING, no dots, visible |
| LoadingScreen.Loader.ProgressTick | components/ui/loading-screen.jsx:24-62 | a tick never lowers progress; it sets the label only below 100, and from 100 on schedules the hide |
| LoadingScreen.Loader.DotTick | components/ui/loading-screen.jsx:65-67 | the dot tick advances only the dot counter |
| LoadingScreen.Loader.HideTimeout | components/ui/loading-screen.jsx:28-33 | the timeout hides the screen and changes nothing else |
| LoadingScreen.Loader.DotText | components/ui/loading-screen.jsx:79 | at most three dots are shown |
| LoadingScreen.Loader.Shown | components/ui/loading-screen.jsx:171-178 | the shown percentage reads 100 exactly when progress is 100 |
| FallingCards.LandedStays | components/ui/falling-cards.jsx:19-29 | a landed card is left alone by every frame |
| FallingCards.FallsSteadily | components/ui/falling-cards.jsx:20-23 | above the target, the card falls 3 per frame and stays unlanded |
| FallingCards.Lands | components/ui/falling-cards.jsx:20-27 | once the card reaches the target, it is landed exactly at 300 |
| FallingCards.FallFromStart | components/ui/falling-cards.jsx:7-31 | from -400, the card is at 302 and unlanded after 234 frames, and landed at 300 from frame 235 on |
| FallingCards.VisibilityDuringFall | components/ui/falling-cards.jsx:80-129 | during the fall the card is transparent exactly for the first 133 frames, and the line shows exactly from frame 161 |
| FallingCards.FallingCard.constructor | components/ui/falling-cards.jsx:7-10 | the card starts unlanded at (200, -400), not dragged |
| FallingCards.FallingCard.Frame | components/ui/falling-cards.jsx:18-31 | a frame moves the card as `Fall` specifies, with the rendered y following it; a landed card stays put |
| FallingCards.FallingCard.MouseDown | components/ui/falling-cards.jsx:42-50 | a press records the grab offset and starts dragging |
| FallingCards.FallingCard.MouseMove | components/ui/falling-cards.jsx:52-60 | while dragging, the card follows the pointer and counts as landed there; otherwise nothing changes |
| FallingCards.FallingCard.MouseUp | components/ui/falling-cards.jsx:62-64 | release ends the drag and leaves the card where it is |
| FallingCards.FallingCard.ShowsLine | components/ui/falling-cards.jsx:80-104 | the line and icon are drawn exactly when the card is below y = 80 |

## Left out

- Drawing is not modelled: the canvas `draw` methods, the JSX markup and the framer-motion animations only render state.
- Scheduling is not modelled: `requestAnimationFrame`, `setInterval`, `setTimeout`, event listener registration and effect cleanup. Each callback is a method; any sequence of calls is a possible run.
- Numbers are exact reals, not IEEE-754 doubles. `Math.sqrt` is a parameter pinned down by `SqrtSpec`.
- `Math.random` draws are parameters:
  - the fragment count and velocities of a split;
  - the balls built by `new Ball()`, at start and as replacements;
  - the snippet a new code line types.
- BouncingBalls.SplitBall: the fragment velocities are only constrained to speeds in [2, 4). The evenly spaced angles `2πi/n` and the trigonometry that produce them are not modelled.
- BouncingBalls.Arena: `balls` holds ball states as values. The source's array of `Ball` objects is modelled by the `Ball` class on its own; the source never shares a ball between two slots, so no aliasing is lost.
- BouncingBalls.Arena.SweepBalls: the snake's `grow` calls happen after the whole ball loop rather than inside it. This is the same result, because the collision test reads only the head and `grow` never changes the head (`Grown`).
- The `handleClick` pass-through is not modelled: when no ball is hit, the click is handed to the element underneath via `elementFromPoint`, along with `stopPropagation` and the `pointerEvents` toggling. It is DOM interaction.
- Terminal.Lower: `toLowerCase` is modelled on ASCII letters only. `trim` uses the fixed set of white space and line terminators in `IsSpace`.
- Terminal.Content: the site's projects, skill categories and canned command texts (`config.js` and the literal help, about, education and contact texts) are one parameter.
- Terminal: `window.open` for `github` and `linkedin` is not modelled (it opens a browser tab). Also left out: the history auto-scroll, the input focus and the render of `history.map`.
- Terminal.TableAsWritten: does not model the word `__proto__`. As written, `commands["__proto__"]` is `Object.prototype`, and calling it throws after the echo is queued, so the input field is not cleared. The model answers it like any unknown word.
- Terminal.Console.HandleCommand: runs the corrected command table `Table`. The word `constructor` therefore gets the "Command not found" answer, where the source, as written, looks it up on the plain object, calls the inherited `Object` function and appends the `{}` it returns as a blank entry (see Findings and `Terminal.TableAsWritten`). `Dispatch` and `RunTable` follow the same table.
- Terminal.Console.SkillSearch: the source queues one functional history update per hit and React applies them in order. The model gathers the same entries and appends them together, which gives the same history.
- Terminal.Console.Close: the source closes the terminal and resets the card in a later effect run. The model does both in one step.
- HackerBackground: not modelled are a line's random `x`, its opacity, the cursor block, `charWidth` and the canvas width. None of them affects which lines exist or what they show. The model also reads the clock once per frame: `Background.Animate` passes one `now` to every new line and every update, where the source calls `Date.now()` separately in each constructor and each `update`. Lines updated within the same frame therefore see the same time in the model.
- LoadingScreen.Loader: not modelled are the `document.body.style.overflow` toggling and the fixed version string. At 100, each tick schedules another hide timeout; the model keeps one flag, and any of those timeouts hides the screen the same way.
- FallingCards.FallingCard: not modelled are the line's and icon's x offsets, the SVG height, `preventDefault` and the re-registration of the window listeners.

## Findings

| source | as written | input that shows it | evidently intended | confidence | as-written member | corrected member |
|---|---|---|---|---|---|---|
| components/ui/terminal.jsx:202-206 | `commands[command]` also finds keys inherited from `Object.prototype`. For `constructor`, it calls `Object()`, which returns `{}`. That truthy empty object is appended as an entry with no type and no text, which renders as a blank line | the line `constructor` | the "Command not found: constructor" error, as for any word outside the table | not executed | Terminal.ConstructorWordAsWritten | Terminal.UnknownCommand |
