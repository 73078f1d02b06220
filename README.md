# Gemini IDE UI — a Dafny model of the shell panel, the rule-based AI fallbacks and the mobile helpers

This project models five parts of the Gemini IDE web front end and its
server:

- **The Shell panel** (`Shell.jsx`). It holds one xterm terminal and one
  WebSocket to the server's `/shell` endpoint. Parked sessions live in a
  module-wide map keyed by session id, or by `project-<name>`. Mounting
  takes a parked session over or creates a fresh terminal. A fresh
  terminal is filed at once by the re-render that follows the first
  mount, with the socket held then (none), and no cleanup stays
  registered. A later unmount therefore parks nothing, and a socket
  opened after the mount is left open with no owner. Only a terminal
  created by a later run of the mount effect (after a restart, or after a
  failed reattach on a switch) keeps its cleanup, which parks the terminal
  and socket and keeps the socket open. Switching session,
  and restarting, purge every key that contains the project name. The
  socket handshake is a fit, an `init` frame and then a `resize` frame.
  Output frames go to the terminal; `url_open` frames go to the
  browser's `window.open`.
- **The rule-based fallbacks of the AI service** (`aiService.js`):
  - the complexity metrics of a file;
  - the next-file predictions: five rules, a stable sort by confidence,
    then the first five;
  - the conventional commit message for a change set;
  - the rule-based review score.
- **The touch gesture handler** (`touchGestures.js`): its options with
  their defaults, its callback registry (`on`, `off`, `trigger`), the
  swipe rule applied when a touch ends, and the long-press timer.
- **The quick actions bar** (`QuickActionsBar.jsx`): the actions offered
  for the open file and its git status, and how the bar shows them.
  Rendering sorts them stably by priority and shows at most five.
- **The mobile onboarding walkthrough** (`MobileOnboarding.jsx`): six
  steps, moved through with Next, Back and the dot indicators. It ends
  through Get Started or Skip, and both record completion in local
  storage.

Modules, one per file:

- `Wrappers`: `Option`.
- `Seqs`: filter-out and prefix.
- `Strings`: JavaScript's string and path operations.
- `StableSort`: the stable descending sort both sorting call sites use.
- `Shell`, `AiService`, `TouchGestures`, `QuickActionsBar`,
  `MobileOnboarding`.

How each source file is modelled:

- **Shell**: classes `Terminal`, `Socket`, `SessionRegistry` (the shared
  map) and `ShellController` (the component's refs and state). Each
  effect body, event handler and timer callback is a method. The caller
  runs them in the order React and the browser would. A React state
  update takes effect at once.
- **Touch gestures**: class `TouchGestureHandler`. Each timer is a handle
  in a set of pending timers. A firing timer is a method call.
- **Quick actions bar**: class `Bar`, holding the `actions` and
  `isExpanded` state.
- **Onboarding**: class `Onboarding`, holding the step, local storage and
  the handlers called.
- **AI service**: the pure rules are functions. The push-by-push
  procedures of the source are methods proved equal to those functions.

## Model

| member | source | states |
|---|---|---|
| Shell.CurrentSessionId | src/components/Shell.jsx:230 | A session id is present exactly when the selected session has a non-empty `id`, and it is that `id`, as `\|\|` treats an empty id as missing |
| Shell.ProjectKeyPurged | src/components/Shell.jsx:196-199 | The project's own fallback key `project-<name>` never survives the purge |
| Shell.PurgeMatchesSubstrings | src/components/Shell.jsx:196-199 | The purge matches substrings: purging project `app` also drops the parked session `project-app2` of another project |
| Shell.Purged | src/components/Shell.jsx:240-244 | A key survives the purge exactly when it does not contain the project name, and a surviving record is unchanged |
| Shell.SessionRegistry.PurgeProject | src/components/Shell.jsx:196-199 | Deleting the matching keys one by one leaves exactly the purged map (loop invariant over the keys still to examine) |
| Shell.SessionRegistry.Put | src/components/Shell.jsx:472-476 | Parking sets the key to the record and changes nothing else |
| Shell.SessionRegistry.Delete | src/components/Shell.jsx:297 | Deleting removes the key and only that key |
| Shell.SessionRegistry.constructor | src/components/Shell.jsx:30 | The registry starts empty |
| Shell.Endpoint | src/components/Shell.jsx:517-543 | The socket URL is exactly the chosen base, then `/shell?token=`, then the encoded token |
| Shell.BaseAvoidsLocalhost | src/components/Shell.jsx:528-539 | A page not on localhost never gets a localhost socket base, whatever the configuration says |
| Shell.FallbackLacks | src/components/Shell.jsx:537-539 | The fallback base contains a word that has no `:` or `/` and is longer than the scheme only if the page's host or port does |
| Shell.JoinLacks | src/components/Shell.jsx:539 | Gluing two parts with a character a word does not use cannot create that word |
| Shell.CloseNoticeNamesCause | src/components/Shell.jsx:626-628 | The close notice contains the peer's reason when there is one, and the close code when the reason is empty |
| Shell.LargerFont | src/components/Shell.jsx:120-122 | The enlarged size is two points more, capped at 24, and never smaller than a size within range |
| Shell.SmallerFont | src/components/Shell.jsx:124-126 | The reduced size is two points less, floored at 8, and never larger than a size within range |
| Shell.FontSteps | src/components/Shell.jsx:120-126 | Both buttons keep the size an even number in [8, 24]; away from a bound each button undoes the other |
| Shell.InitFrame | src/components/Shell.jsx:560-575 | The `init` frame carries the full path if present (else the path); the session's `id`, or its legacy `sessionId` when the `id` is empty; `hasSession` exactly when that value is non-empty; and the fitted size |
| Shell.Terminal.constructor | src/components/Shell.jsx:310-330 | A new terminal has an empty history, 80 by 24 cells and the requested font size |
| Shell.Terminal.Write | src/components/Shell.jsx:157 | A write appends exactly one entry to the history and changes nothing else |
| Shell.Terminal.Clear | src/components/Shell.jsx:114-118 | A clear appends a `Cleared` entry and changes nothing else |
| Shell.Terminal.Fit | src/components/Shell.jsx:444-457 | Fitting sets the size to the measured cells and keeps the history |
| Shell.Terminal.SetFontSize | src/components/Shell.jsx:129-146 | The font option takes the new size and nothing else changes |
| Shell.Terminal.Dispose | src/components/Shell.jsx:204-206 | Disposal marks the terminal disposed and keeps its history |
| Shell.Socket.constructor | src/components/Shell.jsx:546 | A new socket is opening, has the given URL and the project and session its handlers close over, and has carried nothing |
| Shell.Socket.Send | src/components/Shell.jsx:434-441 | An open socket carries the frame; a closed one drops it; neither changes state |
| Shell.Socket.Opened | src/components/Shell.jsx:548-552 | The open event makes the socket open and keeps what it carried |
| Shell.Socket.Close | src/components/Shell.jsx:174-189 | Closing makes the socket closed and keeps what it carried |
| Shell.ShellController.constructor | src/components/Shell.jsx:30-60 | A new panel has no handles, all four flags cleared, font size 14 and no pending work |
| Shell.ShellController.MountEffect | src/components/Shell.jsx:251-306 | Without a host, or while restarting, or with a terminal already held, nothing changes. Otherwise a parked session under the key is taken over with its socket and flag. If reattaching throws, the record is dropped and a fresh terminal is made. With no record a fresh terminal is made, and its cleanup stores the key and the flag as the effect saw it. Nothing but the handles, the connected and initialized flags, the cleanup and the registry changes |
| Shell.ShellController.CreateTerminal | src/components/Shell.jsx:307-431 | A new terminal with an empty history at the panel's font size; the panel becomes initialized and registers a cleanup for the key with the flag the effect saw; every other field is unchanged |
| Shell.ShellController.RunCleanup | src/components/Shell.jsx:464-482 | The cleanup, when one is registered, parks the held terminal and socket under the stored key, with the stored (not the current) connected flag; without a cleanup (as after a fresh first mount) or a terminal the registry is unchanged; only the cleanup is forgotten |
| Shell.ShellController.SessionEffect | src/components/Shell.jsx:228-249 | Switching from one session id to another while initialized disconnects, clears and resets the screen, and purges the project's keys; otherwise the socket, flags, registry and terminal history are unchanged; in both cases only the remembered id changes besides |
| Shell.ShellController.Mount | src/components/Shell.jsx:228-306 | The session effect, then the mount effect, then (with a host) the re-render's cleanup and mount effect, because the first render's dependencies held no host element. After a session switch the socket is closed and dropped, the screen cleared and reset, the project's keys purged, and the held terminal kept. Otherwise, without a host, while restarting or with a terminal held nothing changes. Else the parked record under the key is taken over with its socket and flag, or a fresh terminal is made and filed under the key at once with the starting socket and flag; either way no cleanup stays registered. Only the remembered id and the cleanup change among the other fields |
| Shell.ShellController.Unmount | src/components/Shell.jsx:464-482 | Unmounting keeps the socket and flags. A registered cleanup parks the terminal under the stored key with the stored flag; with no cleanup (as after a fresh first mount, where the socket then stays open with no owner) or no terminal the registry is unchanged. Only the cleanup is forgotten |
| Shell.ShellController.SessionChanged | src/components/Shell.jsx:228-306 | The registered cleanup, if any, parks the held handles (none is registered after a fresh first mount), then the session effect and the mount effect run for the new session. A held terminal is always kept, so the new session's parked terminal is never taken over. After a real switch the socket is closed and dropped, the screen cleared and reset, and the purge leaves no key containing the project name. Otherwise the registry is the parked one and, with no terminal held, the mount effect attaches one under the new key. Only the session, the remembered id and the cleanup change among the other fields |
| Shell.ShellController.ConnectToShell | src/components/Shell.jsx:149-171 | Without a token the terminal gets the authentication notice and nothing else changes. Unless initialized, idle and unconnected, nothing happens. Otherwise the panel becomes connecting, and the configuration request starts, carrying the token and the project and session of this render, only if the second token read succeeds; every other field is unchanged |
| Shell.ShellController.ConfigResolved | src/components/Shell.jsx:506-515 | A settled configuration request opens a socket to the computed endpoint whose handlers keep the project and session of the click. A failure clears both flags and writes the failure notice. The request is forgotten; every other field is unchanged |
| Shell.ShellController.SocketOpened | src/components/Shell.jsx:548-553 | The open event sets connected, clears connecting and starts the fit timer for the socket's project and session; every other field is unchanged |
| Shell.ShellController.HandshakeFit | src/components/Shell.jsx:554-557 | The fit timer fits a held terminal and starts the init timer; without a terminal the handshake ends; with no fit timer pending nothing happens; every other field is unchanged |
| Shell.ShellController.HandshakeInit | src/components/Shell.jsx:559-575 | The init timer sends `init` with the project and session the socket closed over, without checking the socket: a closed socket drops it and the resize timer still starts; a missing terminal or socket, or one still opening, throws and ends the handshake; every other field is unchanged |
| Shell.ShellController.HandshakeResize | src/components/Shell.jsx:577-587 | The resize timer sends one `resize` with the terminal's size, only on an open socket, and ends the handshake; every other field is unchanged |
| Shell.ShellController.FrameReceived | src/components/Shell.jsx:591-615 | Output is written unchanged, a URL request is handed to the browser, anything else (including unparsable text) changes nothing; every other field is unchanged |
| Shell.ShellController.SocketClosed | src/components/Shell.jsx:617-632 | A close clears both flags, clears and resets the screen, and explains the close only when the code is not 1000; every other field is unchanged |
| Shell.ShellController.SocketErrored | src/components/Shell.jsx:634-641 | An error clears both flags and writes the error notice; every other field is unchanged |
| Shell.ShellController.Disconnect | src/components/Shell.jsx:174-189 | Disconnecting closes and drops the socket, clears and resets the screen and clears both flags; every other field is unchanged |
| Shell.ShellController.RestartShell | src/components/Shell.jsx:192-226 | Restarting purges the project's keys, closes the socket, disposes the terminal, and leaves the panel restarting, uninitialized and unconnected; every other field is unchanged |
| Shell.ShellController.ClickRestart | src/components/Shell.jsx:718-720 | The button changes nothing while restarting or connected; otherwise it restarts, nothing is parked and only the cleanup is forgotten besides |
| Shell.ShellController.RestartSettled | src/components/Shell.jsx:223-226 | The restart timer clears `isRestarting` and the mount effect runs again. With a host and no terminal held, the record under the key is taken over. A session-id key without the project name survives the restart's purge, so that record can hold the terminal the restart disposed. Otherwise only the flag and the parked cleanup change |
| Shell.ShellController.ProjectChanged | src/components/Shell.jsx:251-306 | Selecting another project runs the registered cleanup, if any, which parks the held terminal under the old key (none is registered after a fresh first mount), and keeps holding that terminal, with no cleanup registered. The session effect does not run. With no terminal held, the mount effect attaches one under the new project's key. Only the project and the cleanup change among the other fields |
| Shell.ShellController.Fitted | src/components/Shell.jsx:444-457 | A refit sets the terminal size, keeping its history, font and disposal, and sends one `resize` only when asked to and the socket is open |
| Shell.ShellController.TerminalInput | src/components/Shell.jsx:434-441 | Keystrokes are sent unchanged, only on an open socket |
| Shell.ShellController.SendCommand | src/components/Shell.jsx:105-112 | A quick command is sent with a carriage return, only when the socket is open and the panel is connected |
| Shell.ShellController.ClearTerminal | src/components/Shell.jsx:114-118 | Clearing appends one clear to the terminal's history and changes nothing else of it |
| Shell.ShellController.IncreaseFontSize | src/components/Shell.jsx:120-146 | The enlarge button sets the larger size on the panel and on the terminal; every other field is unchanged |
| Shell.ShellController.DecreaseFontSize | src/components/Shell.jsx:124-146 | The shrink button sets the smaller size on the panel and on the terminal; every other field is unchanged |
| AiService.CountCodeLines | server/services/aiService.js:139-140 | At most one count per line, and zero exactly when every line is blank or a `//` comment |
| AiService.CountCodeLinesAppend | server/services/aiService.js:139-140 | The count adds up over any split of the lines, and one line counts exactly when it is code, which pins the filter's length |
| AiService.WideSpaceIsBlank | server/services/aiService.js:140 | A line holding only an ideographic space is not code, as `trim` removes it |
| AiService.SpacedCommentIsNotCode | server/services/aiService.js:140 | An em space before `//` still makes the line a comment |
| AiService.ScoreBounds | server/services/aiService.js:151-169 | Each deduction costs 10 to 20 points and reports one issue, so the score is in [40, 100], and 100 exactly when there are no issues |
| AiService.IssuesExactly | server/services/aiService.js:151-169 | Each issue is reported exactly when its threshold (300 lines, 15 branches, 10 nestings, one long function) is passed |
| AiService.AnalyzeCodeComplexity | server/services/aiService.js:130-172 | The step-by-step report equals the closed-form counts, score and issues; the cyclomatic value is the branch count plus one |
| AiService.TestFileFor | server/services/aiService.js:199-201 | The test file is the path with `.test` put before its last extension; a path with no extension after its last dot is kept |
| AiService.SiblingNames | server/services/aiService.js:185-188 | At most three siblings, never the current file's own name, all listed under the current directory, and as many as there are other entries up to three |
| AiService.SiblingsComplete | server/services/aiService.js:185-195 | An entry other than the current file with `k < 3` such entries before it is sibling `k`, and rule 1 predicts it |
| AiService.SameDirectoryPredictions | server/services/aiService.js:189-195 | One same-directory prediction per sibling, in order |
| AiService.SameDirectoryRule | server/services/aiService.js:185-196 | Rule 1 predicts only a directory entry other than the current file, under `dir/`, with confidence 0.7 |
| AiService.RecentRuleComplete | server/services/aiService.js:229-237 | Every one of the first three recent files other than the current one is predicted, with confidence 0.6 less a tenth per position |
| AiService.RecentRuleSound | server/services/aiService.js:229-237 | Rule 5 predicts only a recent file other than the current one, with the confidence of its position |
| AiService.FileRules | server/services/aiService.js:198-226 | A test-file, style-file or module-index prediction among the candidates is exactly the one its rule makes, and only when that rule's condition holds |
| AiService.FileRulesFire | server/services/aiService.js:198-226 | When its condition holds, each of rules 2 to 4 contributes its prediction |
| AiService.PushSiblings | server/services/aiService.js:189-195 | The sibling loop builds exactly the rule 1 predictions (loop invariant) |
| AiService.PushTestFile | server/services/aiService.js:198-206 | Rule 2 appends the test file exactly when the current file is not a test or spec file |
| AiService.PushStyleFile | server/services/aiService.js:208-216 | Rule 3 appends the style sheet exactly for a `jsx` or `tsx` extension |
| AiService.PushIndexFile | server/services/aiService.js:218-226 | Rule 4 appends the directory's index module unless it is the current file |
| AiService.PushRecent | server/services/aiService.js:228-237 | The recent-file loop builds exactly the rule 5 predictions (loop invariant) |
| AiService.PushRules | server/services/aiService.js:184-237 | Pushing the five rules in order builds exactly the candidate list |
| AiService.PredictNextFiles | server/services/aiService.js:177-243 | The result is at most five predictions, by non-increasing confidence, drawn from the candidates, and all of them when there are at most five |
| AiService.AnyDocFile | server/services/aiService.js:442 | True exactly when some file ends in `.md` or `.txt`, ignoring case |
| AiService.AnyStyleFile | server/services/aiService.js:447 | True exactly when some file ends in `.css`, `.scss` or `.less`, ignoring case |
| AiService.CommitTypeIsFirstFired | server/services/aiService.js:423-450 | The chosen type is the first in the order feat, fix, refactor, docs, style, chore whose rule fires; both directions |
| AiService.DetermineType | server/services/aiService.js:423-450 | The if/else-if chain computes that first-fired type |
| AiService.ComponentNameStrips | server/services/aiService.js:455-457 | `name.ext` with a listed extension gives back `name`, whatever dots `name` has |
| AiService.AllStartWith | server/services/aiService.js:462 | True exactly when every directory starts with the prefix, as a string |
| AiService.Dirs | server/services/aiService.js:460 | One directory per file, in order |
| AiService.MultiScope | server/services/aiService.js:459-466 | The scope of several files is `multiple` or a non-empty slash-free suffix of the first file's directory |
| AiService.ScopeIsStringPrefix | server/services/aiService.js:461-463 | The common-directory test is a string prefix, not a path prefix: `a` becomes the scope of files in `a` and `ab` |
| AiService.DetermineScope | server/services/aiService.js:453-467 | The scope computation agrees with the scope definition for one file and for several |
| AiService.GenerateRuleBasedCommitMessage | server/services/aiService.js:417-477 | The message is `type(scope): Verb subject`, with the first-fired type and its verb, and the scope (one file) or the file count as subject |
| AiService.RoundHalf | server/services/aiService.js:532 | Rounding a multiple of one half gives the nearest integer, halves upwards |
| AiService.Clamp | server/services/aiService.js:532 | The clamped score lies in [1, 10]: below it gives 1, above it gives 10, within it the score itself |
| AiService.CommonIssueChecks | server/services/aiService.js:487-507 | The common checks push their issues and suggestion in order and lower the score by their halves |
| AiService.PotentialErrorChecks | server/services/aiService.js:509-518 | The error checks push the null-equality issue and the `var` suggestion and lower the score |
| AiService.PositiveFeedback | server/services/aiService.js:520-529 | The feedback checks push their praise and raise the score by a half each |
| AiService.GenerateRuleBasedReview | server/services/aiService.js:482-537 | The review's issues, suggestions, rounded and clamped score and summary counts are those of the checks that matched |
| AiService.ReviewScoreRange | server/services/aiService.js:485-532 | The unrounded score stays in [4.5, 9], so the result is between 5 and 9 and the clamp never acts |
| AiService.ReviewCounts | server/services/aiService.js:487-535 | The summary counts one issue per matching check and one suggestion per rule that gives one |
| StableSort.SortStable | server/services/aiService.js:240-242 | Among elements with equal keys the sort keeps the input order |
| StableSort.Sort | src/components/QuickActionsBar.jsx:99-102 | The sort is a permutation of its input in non-increasing key order |
| StableSort.SortIdempotent | src/components/QuickActionsBar.jsx:99-102 | Sorting an already sorted list changes nothing |
| StableSort.TopOfSort | server/services/aiService.js:240-242 | The first `n` after sorting are in order, drawn from the input, all of it when small enough, and rank no lower than anything left out |
| StableSort.SortOfSorted | src/components/QuickActionsBar.jsx:99-102 | A list already in non-increasing key order is its own sort |
| Seqs.WithoutMembers | src/utils/touchGestures.js:147 | Filtering out a callback keeps exactly the other callbacks |
| Seqs.WithoutCounts | src/utils/touchGestures.js:147 | The filter drops every copy of the callback and keeps every copy of the others |
| Seqs.WithoutAppend | src/utils/touchGestures.js:147 | Filtering a concatenation filters each part |
| Seqs.WithoutAt | src/utils/touchGestures.js:147 | An element the filter keeps lands right after the survivors of the elements before it |
| Seqs.AppendThenWithout | src/utils/touchGestures.js:138-148 | Filtering out a callback just appended, and not registered before, gives back the list before it |
| Seqs.Take | server/services/aiService.js:242 | `slice(0, n)` is the prefix of `min(n, length)` elements |
| Strings.LastIndexOf | server/services/aiService.js:181 | The index is -1 exactly when the character is missing; otherwise it holds the character and nothing after it does |
| Strings.LastSegment | server/services/aiService.js:455 | `split(c).pop()` is a suffix without the separator |
| Strings.LastSegmentAt | server/services/aiService.js:455 | The last piece is exactly what follows the last separator |
| Strings.SegmentsRebuild | server/services/aiService.js:182 | The directory, the separator and the last piece rebuild the path; a path without a separator has an empty directory and is its own last piece |
| Strings.SegmentsOfJoin | server/services/aiService.js:182 | Joining a directory and a separator-free name is undone by cutting at the last separator |
| Strings.JoinSplit | server/services/aiService.js:182 | Joining the pieces of a split with the same separator gives back the string |
| Strings.TrimStart | server/services/aiService.js:140 | The trimmed text is a suffix that starts with no whitespace, and everything removed is whitespace: the characters JavaScript's `trim` removes, Unicode space separators included |
| Strings.Lower | server/services/aiService.js:442 | Lower-casing goes character by character and keeps the length |
| Strings.ContainsIff | src/components/Shell.jsx:197 | `includes` holds exactly when the word occurs at some position |
| Strings.NatToStringRoundTrip | src/components/Shell.jsx:627 | The close code's decimal rendering reads back as the code |
| Strings.NatToStringInjective | src/components/Shell.jsx:627 | Different close codes render differently |
| TouchGestures.OptionsResolve | src/utils/touchGestures.js:9-15 | A default applies exactly to a key the caller left out; a given key is used as given |
| TouchGestures.ZeroIsKept | src/utils/touchGestures.js:9-15 | A caller's zero survives the spread, although `\|\|` alone would replace it by the default |
| TouchGestures.Classify | src/utils/touchGestures.js:86-113 | A swipe happens exactly when the touch was faster than the timeout and moved further than the threshold on some axis. It is horizontal exactly when the horizontal move is larger. It points the way of the move and has the larger distance |
| TouchGestures.TiesGoVertical | src/utils/touchGestures.js:97-113 | A diagonal at exactly 45 degrees counts as vertical |
| TouchGestures.ReversedSwipe | src/utils/touchGestures.js:86-113 | Moving the opposite way gives the opposite swipe with the same distance |
| TouchGestures.Invocations | src/utils/touchGestures.js:150-153 | One call per registered callback, in registration order, each with the same data |
| TouchGestures.InvokeAll | src/utils/touchGestures.js:150-153 | The `forEach` loop makes exactly those calls (loop invariant) |
| TouchGestures.InvocationsSnoc | src/utils/touchGestures.js:138-153 | A callback appended to the list is called last |
| TouchGestures.OnThenOff | src/utils/touchGestures.js:138-148 | Registering a new callback and removing it again restores the event's list |
| TouchGestures.RegisteredLastRunsLast | src/utils/touchGestures.js:138-153 | After `on`, a trigger makes one more call, and the last call is the new callback's |
| TouchGestures.TouchGestureHandler.constructor | src/utils/touchGestures.js:8-24 | A new handler has the resolved options, no callbacks, no timer and zeroed touches |
| TouchGestures.TouchGestureHandler.On | src/utils/touchGestures.js:138-143 | `on` appends the callback to the event's list, creating it, and changes nothing else |
| TouchGestures.TouchGestureHandler.Off | src/utils/touchGestures.js:145-148 | `off` removes every occurrence of the callback from an existing list; an unknown event is untouched |
| TouchGestures.TouchGestureHandler.Trigger | src/utils/touchGestures.js:150-153 | `trigger` calls the event's callbacks in order, and calls none for an unknown event |
| TouchGestures.TouchGestureHandler.ClearLongPress | src/utils/touchGestures.js:131-136 | The current timer is cancelled and forgotten. With no timer nothing changes, so a second call is a no-op |
| TouchGestures.TouchGestureHandler.TouchStart | src/utils/touchGestures.js:32-53 | The start position and time are recorded. Two fingers cancel the long press: its timer leaves the pending timers and no handle is allocated. Any other count schedules a fresh timer under the next handle, without cancelling a running one |
| TouchGestures.TouchGestureHandler.LongPressFired | src/utils/touchGestures.js:46-51 | A firing timer triggers `longpress` at the start position and leaves the stored handle as it is |
| TouchGestures.TouchGestureHandler.TouchMove | src/utils/touchGestures.js:55-58 | A move cancels the long press and changes nothing else |
| TouchGestures.TouchGestureHandler.TouchEnd | src/utils/touchGestures.js:73-116 | The end cancels the long press; with a changed touch it records the end and triggers at most one swipe, exactly the classified one |
| QuickActionsBar.Ids | src/components/QuickActionsBar.jsx:12-75 | The ids of the actions, position by position |
| QuickActionsBar.GenerateActions | src/components/QuickActionsBar.jsx:12-75 | Pushing rule by rule builds exactly the rule-defined list |
| QuickActionsBar.ActionRules | src/components/QuickActionsBar.jsx:12-75 | Commit and review are offered exactly for a modified file. Analyze is offered exactly for a code extension. Create-test is offered exactly for code that is not a test. AI suggestions are offered exactly for an open file. No file gives no actions |
| QuickActionsBar.RulesFor | src/components/QuickActionsBar.jsx:16-72 | The same iff statements over the facts the rules read |
| QuickActionsBar.ActionsShape | src/components/QuickActionsBar.jsx:12-75 | At most five actions, in generation order with no id twice, each with its fixed priority and the open file |
| QuickActionsBar.ShownOrder | src/components/QuickActionsBar.jsx:99-104 | What the bar shows is sorted by priority, is all the generated actions, and keeps their order within each priority |
| QuickActionsBar.ModifiedSourceFile | src/components/QuickActionsBar.jsx:16-72 | For a modified `a.js` every rule fires: commit, review, analyze, create test, AI suggestions |
| QuickActionsBar.ShortIsNotTest | src/components/QuickActionsBar.jsx:49-58 | A path shorter than `.test.` is never taken for a test file |
| QuickActionsBar.RenderAgain | src/components/QuickActionsBar.jsx:99-104 | Sorting the state list in place on each render shows the same list every time |
| QuickActionsBar.Click | src/components/QuickActionsBar.jsx:110 | A click hands the action's own command and its file to the handler |
| QuickActionsBar.CommandsDistinct | src/components/QuickActionsBar.jsx:16-72 | Different actions hand different commands to the handler |
| QuickActionsBar.Bar.constructor | src/components/QuickActionsBar.jsx:5-6 | The bar starts with no actions and expanded |
| QuickActionsBar.Bar.Refresh | src/components/QuickActionsBar.jsx:8-10 | The effect replaces the actions by the generated ones and keeps the expanded flag |
| QuickActionsBar.Bar.SetActions | src/components/QuickActionsBar.jsx:74 | The setter replaces the actions and nothing else |
| QuickActionsBar.Bar.Render | src/components/QuickActionsBar.jsx:77-104 | No actions render nothing; collapsed shows only the toggle; expanded sorts the state list in place and shows its first five |
| QuickActionsBar.Bar.SetExpanded | src/components/QuickActionsBar.jsx:91 | The toggle sets the flag and keeps the actions |
| MobileOnboarding.BackUndoesNext | src/components/MobileOnboarding.jsx:92-104 | Before the last step, Back undoes Next |
| MobileOnboarding.NextUndoesBack | src/components/MobileOnboarding.jsx:92-104 | After the first step, Next undoes Back |
| MobileOnboarding.LastStepAgrees | src/components/MobileOnboarding.jsx:92-98 | Next stays put exactly on the last step, which is exactly where the button reads Get Started and the bar is full |
| MobileOnboarding.FirstStepAgrees | src/components/MobileOnboarding.jsx:100-104 | Back is shown exactly where pressing it would move |
| MobileOnboarding.ProgressGrows | src/components/MobileOnboarding.jsx:116-118 | The progress bar grows with every step, stays positive and never passes 100 |
| MobileOnboarding.NextPressesClamp | src/components/MobileOnboarding.jsx:92-98 | `n` presses of Next from a valid step reach `min(step + n, 5)` |
| MobileOnboarding.BackPressesClamp | src/components/MobileOnboarding.jsx:100-104 | `n` presses of Back reach `max(step - n, 0)` |
| MobileOnboarding.Onboarding.constructor | src/components/MobileOnboarding.jsx:9 | The walkthrough starts on step 0 with nothing recorded and no handler called |
| MobileOnboarding.Onboarding.Next | src/components/MobileOnboarding.jsx:92-98 | Next moves one step on and stays in range; on the last step it records completion and calls `onComplete` when given |
| MobileOnboarding.Onboarding.Previous | src/components/MobileOnboarding.jsx:100-104 | Back moves one step back, except on the first step, and records nothing |
| MobileOnboarding.Onboarding.JumpTo | src/components/MobileOnboarding.jsx:231-240 | A dot sets the step to its index and records nothing |
| MobileOnboarding.Onboarding.Complete | src/components/MobileOnboarding.jsx:106-109 | Get Started writes the completion key and then calls `onComplete` when given |
| MobileOnboarding.Onboarding.Skip | src/components/MobileOnboarding.jsx:111-114 | Skip writes the completion key and then calls `onSkip` when given |

## Left out

- The xterm terminal itself is not modelled: rendering, scrollback, themes and the fit addon's measurement. A fit takes the measured cells as its input.
- The real WebSocket, `fetch` of the configuration, `localStorage`, `window.open` and the clipboard are not modelled. Their results are method parameters, `encodeURIComponent` is a function parameter, and the token is a string argument.
- Timers are not modelled as such. Every `setTimeout` callback is its own method, which the caller runs in due order; the handshake's three nested timers are the pending state `handshake`. The fixed delays are not modelled.
- Shell.ShellController.HandshakeFit: one socket handshake is pending at a time. A socket opened while an older handshake is still pending replaces it, while in the browser both sets of timers would run.
- Shell.ShellController.HandshakeInit: an exception ends only the handshake. The model does not say how the console reports it.
- A panel with no selected project is not modelled. It renders a placeholder without a terminal host, which is the mount effect's case without a host.
- Mobile detection, the window resize listener and the Shell's own touch handlers are not modelled. They are presentation.
- The Shell's scan of output frames for URLs to auto-open is not modelled, because it is a regular expression over terminal text. Output is written unchanged.
- Shell.ShellController.Fitted: the `isActive` effect's refit is the same `Fitted` step, so it has no method of its own. Whether a resize observer is still attached (only while its run's cleanup is registered) is left to the caller.
- Shell.ShellController.Mount: the re-render after the first mount is part of `Mount`. The later steps (`SessionChanged`, `ProjectChanged`, `RestartSettled`) take the host element as already among the mount effect's dependencies, so they run the effect once.
- Shell.ShellController.MountEffect: the key, data and resize handlers a reused terminal carries from its first mount are not modelled.
- The Gemini API paths of the AI service are not modelled, because they are network calls: the model-backed commit message, review, complexity and predictions, plus `analyzeSession`, `suggestQuickActions` and `trackAchievement`. Only the rule-based fallbacks are modelled.
- Regular-expression matches are inputs to the model: keyword families become booleans, match counts become numbers (`ComplexityMatches`, `CommitSignals`, `ReviewSignals`). Only the line split, the trimming, the path splitting and the extension tests are modelled on the text itself.
- AiService.GenerateRuleBasedCommitMessage: requires at least one file. With no files the source reads `dirs[0]` of an empty list and throws.
- AiService.PredictNextFiles: confidences are tenths (`7` is 0.7). The factor `0.6 - i * 0.1` is therefore exact, while JavaScript computes 0.39999999999999997 for `i = 2`. This changes no ordering among the confidences used.
- The pinch gesture is not modelled, because distance, scale and centre are floating-point geometry. Swipe velocity is not modelled for the same reason.
- `destroy`, the DOM listener registration in `init`, the `useTouchGestures` hook and `mobileUtils` are not modelled. They are browser wiring and device sniffing.
- Callbacks are identities (`nat`). An event name that collides with an `Object.prototype` key is not modelled.
- TouchGestures.OptionsResolve: an option key present with the value `undefined` counts as absent.
- QuickActionsBar.Bar.Render: the in-place `sort` of the state array is modelled as reassigning a `seq` field. The array identity is not modelled.
- QuickActionsBar.ModifiedSourceFile: states the generation order only. The display order for that input follows from `ShownOrder` but is not computed as a literal.
- The onboarding steps' contents are not modelled: icons, titles, descriptions, feature lists, colours and tips. Only their number (six) matters to the walkthrough.
- MobileOnboarding.ProgressGrows: progress is an exact rational `(step + 1) / 6 * 100`, not the floating-point value the browser computes.
