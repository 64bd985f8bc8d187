# Typing speed trainer: the per-attempt state machine

A model of the core of a desktop typing-speed trainer. The core is the text
mode object (`TextMode`) that tracks one typing attempt against a 30-second
countdown, plus the driver (`TypingTracker`) that builds a text mode per
difficulty tier and feeds it once per frame. The model has four parts:

- `Corpus.dfy` (module `Corpus`): the fixed paragraph table. It has three tiers
  (easy, medium, hard) of ten paragraphs each, written as one constant table.
  In the source, subclasses fill this table.
- `Typing.dfy` (module `Typing`): the state machine. The value type `Session`
  has one field per `TextMode` field. Its member functions specify the
  operations: `startTyping`, `startGame`, `checkInput`, `isComplete`,
  `selectRandomParagraph`, `updateTimer`, `getRemainingTime`, `getAccuracy`,
  `getWPM`, `getCPM` and `toggleWordWrap`. The class `TextMode` holds the same
  fields as mutable variables. Its methods update them in place, and each is
  proved to move `State()` as the matching function says. The queries are
  read through `State()`.
- `TypingLemmas.dfy` (module `TypingLemmas`): properties that span several
  keystrokes or operations.
- `Tracker.dfy` (module `Tracker`): the driver. It has one frame of `update`
  as a function, the `TypingTracker` class with `switchMode` and `update`, and
  the user's actions as events. A lemma shows that every session reachable
  from start-up keeps the invariants.
- `Scenarios.dfy` (module `Scenarios`): short worked runs on the text "cat".

Abstractions:

- The clock (`GetTime()`) is an explicit `now` argument: exact seconds, as a
  `real`. One frame of `update` uses one `now` for both the timer check and the
  auto-start.
- `rand() % 10` is an explicit index argument below 10.
- Keys are `int` character codes. The character under the cursor is read
  through `CharAt`, which gives the C string terminator, code 0, at the end of
  the text. Past the end C would read out of bounds; the model gives 0 there
  too, but the cursor can only get past the end through a key of code 0, which
  `update` never passes on.
- `textLength` is C's `strlen` of the paragraph (`StrLen`). So the cursor
  invariant `currentPosition <= textLength` holds for any paragraph content, as
  long as keys are nonzero. `update` passes only nonzero keys.

`TextMode` has no Completed phase and no frozen statistics, and `checkInput`
has no guard for a finished attempt:

- keystrokes after the last character count as mistakes (`KeysAfterEnd`);
- the clock keeps running after completion (`ClockRunsAfterCompletion`);
- WPM, CPM and remaining time are always computed live.

Two more facts the model proves about the code:

- `isTyping == isStarted` holds in every reachable state, so the auto-start
  branch of `update` never fires (`Tracker.Reachable`).
- Pressing start again after the time is up does not restart the attempt.
  Only a new paragraph clears the time-up flag (`TimeUpSticky`).

## Model

| member | source | states |
|---|---|---|
| `Corpus.Paragraphs` | OOP_PROJECT_TST/main.cpp:111-162 | each of the three tiers holds exactly ten paragraphs, none of them empty |
| `Typing.StrLen` | OOP_PROJECT_TST/main.cpp:81 | strlen: the result is at most the length, every character before it is non-NUL, and the character at it (if any) is NUL |
| `Typing.Session.StartTyping` | OOP_PROJECT_TST/main.cpp:39-45 | only when started and not typing: typing is set, the start time becomes `now` and the time-up flag is cleared; otherwise nothing changes; no other field ever changes |
| `Typing.Session.StartGame` | OOP_PROJECT_TST/main.cpp:104-107 | afterwards the clock runs; during an attempt only isStarted is touched, so the start time is kept; otherwise the clock starts at `now` |
| `Typing.Session.CheckInput` | OOP_PROJECT_TST/main.cpp:47-55 | no change unless typing, started and not timed out; an effective call adds exactly one to cursor + mistakes; the cursor moves exactly when the key equals the character under it, mistakes grow exactly otherwise; no other field changes |
| `Typing.Session.IsComplete` | OOP_PROJECT_TST/main.cpp:57-59 | in a valid session, complete exactly when the cursor is at the end of the text or the time is up |
| `Typing.Session.Cpm` | OOP_PROJECT_TST/main.cpp:67-71 | 0 before the clock runs; non-finite exactly when no time has elapsed; otherwise non-negative for elapsed time > 0, and CPM times elapsed seconds equals 60 times the cursor |
| `Typing.Session.Wpm` | OOP_PROJECT_TST/main.cpp:61-65 | 0 before the clock runs; non-finite exactly when no time has elapsed; otherwise WPM times elapsed seconds equals 12 times the cursor (five characters per word) |
| `Typing.Session.Accuracy` | OOP_PROJECT_TST/main.cpp:73-76 | always in [0, 100]; 100 with no mistakes (including before any keystroke); 0 when every keystroke was a mistake; otherwise the percentage of keystrokes that were correct |
| `Typing.Session.SelectRandomParagraph` | OOP_PROJECT_TST/main.cpp:78-87 | loads paragraph `index` with its strlen as length; zeroes cursor and mistakes and clears all three flags; keeps word wrap, start time and the table; re-establishes both invariants |
| `Typing.Session.UpdateTimer` | OOP_PROJECT_TST/main.cpp:89-96 | the time-up flag is set afterwards exactly when it already was, or the clock runs and at least 30 s have elapsed; nothing else changes |
| `Typing.Session.RemainingTime` | OOP_PROJECT_TST/main.cpp:98-102 | never negative; 30 before the clock runs; while running 0 exactly when 30 s have elapsed, otherwise 30 minus the elapsed time, and at most 30 once `now` is past the start |
| `Typing.Session.ToggleWordWrap` | OOP_PROJECT_TST/main.cpp:37 | flips word wrap and changes nothing else |
| `Typing.NewSession` | OOP_PROJECT_TST/main.cpp:111-162 | a new text mode of a tier: both invariants hold, the attempt is at its start, the tier's table is loaded with entry `index` selected, word wrap on, start time 0 |
| `Typing.TextMode.constructor` | OOP_PROJECT_TST/main.cpp:23-25 | the object's state is `NewSession(tier, index)` |
| `Typing.TextMode.ToggleWordWrap` | OOP_PROJECT_TST/main.cpp:37 | the new state is `ToggleWordWrap` of the old |
| `Typing.TextMode.StartTyping` | OOP_PROJECT_TST/main.cpp:39-45 | the new state is `StartTyping(now)` of the old |
| `Typing.TextMode.CheckInput` | OOP_PROJECT_TST/main.cpp:47-55 | the new state is `CheckInput(key)` of the old |
| `Typing.TextMode.SelectRandomParagraph` | OOP_PROJECT_TST/main.cpp:78-87 | the new state is `SelectRandomParagraph(index)` of the old |
| `Typing.TextMode.UpdateTimer` | OOP_PROJECT_TST/main.cpp:89-96 | the new state is `UpdateTimer(now)` of the old |
| `Typing.TextMode.StartGame` | OOP_PROJECT_TST/main.cpp:104-107 | the new state is `StartGame(now)` of the old, by way of the `StartTyping` method |
| `TypingLemmas.StrLenOfNulFree` | OOP_PROJECT_TST/main.cpp:81 | for a paragraph without NUL, the text length is its full length |
| `TypingLemmas.FeedInactive` | OOP_PROJECT_TST/main.cpp:47-48 | before start, or after the time is up, any run of keystrokes leaves the session unchanged |
| `TypingLemmas.FeedCounts` | OOP_PROJECT_TST/main.cpp:50-54 | while active, N keystrokes add exactly N to cursor + mistakes, neither count decreases, and no other field changes |
| `TypingLemmas.FeedKeepsValid` | OOP_PROJECT_TST/main.cpp:50-54 | nonzero keys keep 0 <= cursor <= textLength |
| `TypingLemmas.TypeRestOfText` | OOP_PROJECT_TST/main.cpp:50-59 | typing the rest of the text exactly brings the cursor to the end with no new mistake, and the attempt is complete |
| `TypingLemmas.PerfectAttempt` | OOP_PROJECT_TST/main.cpp:73-76 | a whole paragraph typed without error ends complete at 100% accuracy |
| `TypingLemmas.KeysAfterEnd` | OOP_PROJECT_TST/main.cpp:50-58 | at the end of the text, every further nonzero key is a mistake and the cursor stays at the end |
| `TypingLemmas.CompleteMakesNoProgress` | OOP_PROJECT_TST/main.cpp:57-59 | once complete, a nonzero key never moves the cursor and the attempt stays complete |
| `TypingLemmas.CorrectKeyNeverLowersAccuracy` | OOP_PROJECT_TST/main.cpp:73-76 | a correct key never lowers the accuracy |
| `TypingLemmas.MistakeNeverRaisesAccuracy` | OOP_PROJECT_TST/main.cpp:73-76 | a wrong key never raises the accuracy |
| `TypingLemmas.FlagsAgreePreserved` | OOP_PROJECT_TST/main.cpp:104-107 | every operation keeps `isTyping == isStarted` and "time up implies typing" |
| `TypingLemmas.ValidPreserved` | OOP_PROJECT_TST/main.cpp:47-55 | every operation other than the paragraph choice keeps the structural invariant, checkInput for nonzero keys |
| `TypingLemmas.TimeUpSticky` | OOP_PROJECT_TST/main.cpp:39-45 | once the time is up, startTyping, startGame, checkInput and updateTimer change nothing, and toggling word wrap keeps the flag |
| `TypingLemmas.TimerMatchesRemainingTime` | OOP_PROJECT_TST/main.cpp:89-102 | while the clock runs, updateTimer leaves the flag set exactly when it was set or no time remains |
| `TypingLemmas.ClockRunsAfterCompletion` | OOP_PROJECT_TST/main.cpp:89-96 | a finished attempt whose clock still runs gets the time-up flag after 30 s |
| `TypingLemmas.RemainingTimeNonIncreasing` | OOP_PROJECT_TST/main.cpp:98-102 | the remaining time never increases as `now` advances |
| `TypingLemmas.WpmIsFifthOfCpm` | OOP_PROJECT_TST/main.cpp:61-71 | WPM and CPM are finite at the same instants, and then CPM is five times WPM |
| `TypingLemmas.ToggleTwice` | OOP_PROJECT_TST/main.cpp:37 | toggling word wrap twice restores the session |
| `Tracker.Frame` | OOP_PROJECT_TST/main.cpp:363-374 | one frame keeps both invariants; a key arriving in a frame where 30 s have elapsed is ignored and the time is up; with no key the frame is just the timer check; cursor + mistakes grows by one exactly when a nonzero key reaches an active session |
| `Tracker.Step` | OOP_PROJECT_TST/main.cpp:347-372 | one user action as the matching text-mode call (start button, word-wrap button, R key, difficulty button, or one frame of update); it keeps the structural invariant and the flag discipline |
| `Tracker.Run` | OOP_PROJECT_TST/main.cpp:317-374 | any run of user actions from a valid session ends in a valid session |
| `Tracker.Reachable` | OOP_PROJECT_TST/main.cpp:363-368 | every session reachable by user actions keeps the flag discipline, so the auto-start branch of update never fires |
| `Tracker.TypingTracker.constructor` | OOP_PROJECT_TST/main.cpp:177-181 | the tracker starts in easy mode with a fresh text mode |
| `Tracker.TypingTracker.SwitchMode` | OOP_PROJECT_TST/main.cpp:193-201 | the mode index is recorded and the session is replaced by a fresh text mode of that tier |
| `Tracker.TypingTracker.Update` | OOP_PROJECT_TST/main.cpp:363-374 | the text mode's new state is `Frame(now, key)` of the old |
| `Scenarios.KeyBeforeStart` | OOP_PROJECT_TST/main.cpp:47-48 | a key before the start button changes nothing; accuracy 100 and 30 s remain |
| `Scenarios.TypingCat` | OOP_PROJECT_TST/main.cpp:50-59 | typing c, a, t after start completes the text with no mistake at 100% accuracy |
| `Scenarios.WrongFirstKey` | OOP_PROJECT_TST/main.cpp:50-54 | a wrong first key gives one mistake, cursor 0, accuracy 0, still running |
| `Scenarios.KeyAtTimeOut` | OOP_PROJECT_TST/main.cpp:363-373 | a key in the frame where time runs out is ignored, the time is up and 0 s remain |
| `Scenarios.StartTwice` | OOP_PROJECT_TST/main.cpp:104-107 | pressing start twice keeps the first start time |
| `Scenarios.KeyAfterEnd` | OOP_PROJECT_TST/main.cpp:50-54 | one more key after "cat" is typed is a mistake |

## Left out

- Rendering (`draw`, `drawWrappedText`): these depend on raylib font metrics and drawing calls.
- The R key and typed text share a key: pressing R is tested with `IsKeyPressed(KEY_R)` in `handleInput` and the same press also queues an 'r' or 'R' for `GetCharPressed` in `update`. So in the program typing an r restarts the attempt (and the queued key is then ignored, since the session is no longer started). The events of `Tracker.Step` treat `Restart` and `Tick(now, 'r')` as independent; the runs they allow include every run of the program, so `Tracker.Run` and `Tracker.Reachable` still hold for it, but the model does not capture that typing an r ends the attempt.
- Mouse hit-testing in `handleInput`: it is float screen geometry. Its effects (switch tier, start, toggle word wrap, and the R key's `selectRandomParagraph`) are modelled as the events of `Tracker.Step`.
- Screen scaling (`updateScreenSize`, `scaleFactor`, font and margin fields): layout only.
- `main` and the window loop: raylib plumbing. One loop iteration is `Tracker.Step` on events.
- Randomness (`srand`, `rand`): replaced by an explicit paragraph index in [0, 10).
- Floating point: the clock, the start time and the statistics are exact reals, so float rounding is not modelled. Float division by zero in `getWPM`/`getCPM` is modelled as the `NonFinite` result, not as a particular infinity or NaN.
- 32-bit overflow of `currentPosition` and `mistakes`: these are unbounded naturals here.
- The trivial getters (`getText`, `getLength`, ...): the fields are public in the model.
- Memory management: `delete` of the old text mode in `switchMode`, and the destructors.
- `Tracker.TypingTracker.SwitchMode`: requires a tier in 0..2. The source with any other tier deletes the session and keeps a dangling pointer, and that is not modelled.
- `Corpus.Paragraphs`: does not state that the literal paragraphs are free of NUL characters, because proving character facts about literals this long is beyond the solver's resource limit. The model does not need it: the text length is the paragraph's strlen, and `TypingLemmas.StrLenOfNulFree` shows it is the full length for a NUL-free paragraph.
- Separate clock readings: `startTyping` and `updateTimer` each call `GetTime()` on their own, so within one frame the two calls can read slightly different times. Here both take the frame's single `now`.
