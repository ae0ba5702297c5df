# Shinken runtime: a verified model

Shinken runs agents against sandboxed desktops. Its guest runtime, `shinkend`, answers one WebSocket
session with screenshots, input, a clipboard, an accessibility tree and command execution; `benchmarks/`
holds the numeric and queueing kernels that decide the published results. This project models the parts
of both that are hardest to get right, and proves what they promise.

| file | models |
|---|---|
| `ExecTree.dfy` | the processes of one exec, their pipes, the group kill, and the wait with a deadline |
| `ExecBuffered.dfy` | the buffered exec: capped capture of two pipes, drain with a grace period |
| `ExecStream.dfy`, `ExecStreamRuns.dfy`, `ExecStreamTrust.dfy`, `ExecStreamExit.dfy` | the streamed exec: pumps, bounded funnel, forwarder, writer channel, drain grace; every run of them; when the exit message can be believed; and how a run ends |
| `Clipboard.dfy`, `ClipboardAnswers.dfy`, `ClipboardOwner.dfy` | the X11 CLIPBOARD owner among other clients (ICCCM sections 2.1, 2.2 and 2.4): a state machine, what others get from it and it from them, and the worker's loops |
| `Session.dfy`, `SessionAnswers.dfy`, `SessionRuns.dfy`, `SessionConnection.dfy` | the handshake and the action dispatcher, what each message must be answered with, whole sessions, and the session object |
| `Screens.dfy`, `Negotiation.dfy` | hash-negotiated screenshots with a frame cache shared by many sessions |
| `TreeWalk.dfy`, `Settle.dfy` | the capped walk of the accessibility tree, and the debounce before it |
| `MacText.dfy`, `MacKeys.dfy`, `MacLayout.dfy`, `MacPlan.dfy` | the macOS input planner: UTF-16 chunks (sections 2.1 and 2.2 of RFC 2781), key combos, the key tables against the US layout, pointer plans |
| `EditDistance.dfy`, `Ssim.dfy` | the text and image scores of the observation-quality benchmark |
| `ScoreIntervals.dfy` | Wilson and Newcombe intervals and the non-inferiority verdict |
| `DelayProxy.dfy` | the WAN delay proxy |
| `Results.dfy`, `Numbers.dfy`, `Reals.dfy`, `Sequences.dfy` | option and result types, number parsing, facts about reals and sequences |

Concurrent parts are step systems: `Enabled` says which steps a state admits, `Next` what they do, and a
theorem about `Runs` holds for every interleaving. Code that updates objects in place is also given as a
class whose methods are proved equal to those steps. Calls into code that is not modelled are parameters:
the square root (with its defining property), lower-casing and whitespace, the pixel hash and the image
encoder, the results of executor and tree calls, arrival times.

## Where the code differs from its promise

- The terminal event of a streamed exec whose wait failed always says `truncated: false`, even when output
  was lost (exec.rs:471-481 with protocol.rs:526-537). An untruncated exit can be believed exactly when it
  is not that event (`ExecStreamTrust.TrustworthyIff`), so in every run in which no wait fails
  (`ExecStreamTrust.UntruncatedIsWhole`). Whatever the exit says, unless the drain was given up, both
  channels were delivered whole exactly when the output kept within the budget
  (`ExecStreamTrust.WholeIffWithinBudget`).
- A `SelectionClear` that is queued before a `set` is handled after it and discards the new text, although
  `set` has succeeded. The text survives exactly when none was queued (`Clipboard.SetSurvivesIff`);
  `ClipboardOwner.StaleClearLosesText` gives a run.
- A notification left over from a `get` that timed out is taken for the answer of the next one, which then
  returns the empty text. `Clipboard.RegisterIsAtomic` says exactly when, and
  `ClipboardOwner.LateNotifyReadsNothing` gives a run.
- `get` has one deadline for both targets (clipboard.rs:398), not one for each as the comment at
  clipboard.rs:37-38 says; the model follows the code.
- A `point_norm` is rounded to a pixel in 16 signed bits (executor.rs:663-673), so on a screen wider or
  higher than 32768 pixels every coordinate beyond lands on pixel 32767. `MacPlan.NormIsExactIff` says for
  which fractions the pixel is the nearest one.
- A `not_modified` reply without a coordinate map or pointer leaves those of the held frame in the client's
  result (`Negotiation.MetaIsFreshIff`); `Negotiation.StalePointer` gives a run.

## Model

| member | source | states |
|---|---|---|
| ExecTree.ActedKeeps | shinkend/src/exec.rs:172-223 | whatever the processes do (fork, leave or join a group, pass a pipe on, exit), no process that was in a killed group comes back, output only grows, and a released pipe stays released |
| ExecTree.KillKeeps | shinkend/src/exec.rs:206-223 | the group kill leaves no live member of the group, keeps what was written and never unreaps a status |
| ExecTree.KillSpares | shinkend/src/exec.rs:206-223 | the group kill takes exactly the members of the group and the leader, and a leader without a status gets signal 9 |
| ExecTree.WaitKeeps | shinkend/src/exec.rs:247-284 | at every step of the wait, a reported status is the leader's own, and a timed-out run has been killed, whichever side of the race the child took |
| ExecTree.NaturalExitWins | shinkend/src/exec.rs:253-284 | at the deadline a child found dead ended by itself, with its own status; only one found alive is killed |
| ExecTree.WaitProgress | shinkend/src/exec.rs:253-284 | an unfinished wait always has a step once its timer can fire |
| ExecBuffered.ReadCapped | shinkend/src/exec.rs:288-311 | the loop keeps exactly the first `cap` bytes up to the end of the pipe and flags truncation iff there were more, however the reads split |
| ExecBuffered.InvStep | shinkend/src/exec.rs:331-360 | every step of child, captures, wait and drain keeps captures equal to what their pipes carried |
| ExecBuffered.BufferedIsHonest | shinkend/src/exec.rs:313-360 | every returned outcome: each output is a prefix of what was written, equal to it when unflagged; both pipes ended or the group is dead; a timed-out run has no exit code; the group is killed exactly on a timeout or a stalled drain |
| ExecBuffered.BufferedTells | shinkend/src/exec.rs:313-360 | the result of every run, errors included: fixed by whether the spawn or the wait failed, the deadline killed or a drain was given up, by the leader's status, and by the first 262144 bytes written to each pipe |
| ExecBuffered.BufferedRunsEnd | shinkend/src/exec.rs:331-360 | in every run, every state short of returning has a step of the runtime's own that brings it closer, no other step takes it back, and at most nine such steps are needed |
| ExecStream.Forwarder.OnChunk | shinkend/src/exec.rs:415-443 | the forwarder's loop body between its awaits: drop, trip the budget, or offer the next numbered output |
| ExecStream.Forwarder.OnSent | shinkend/src/exec.rs:442-449 | `seq` advances only on a successful send; a failed one marks the client gone |
| ExecStream.RelayHandled | shinkend/src/exec.rs:415-451 | the budget is never exceeded and is tripped only by more than it in all; unless cut, everything received was sent or is in flight |
| ExecStreamRuns.InvStep | shinkend/src/exec.rs:363-483 | every step of processes, pumps, funnel, forwarder, writer and main line keeps the invariant of the whole system |
| ExecStreamRuns.StreamIntegrity | shinkend/src/exec.rs:363-483 | in every reachable state outputs are numbered 0, 1, 2, ..., their bytes stay within the budget, each channel's bytes are a prefix of what was written, and an exit comes last |
| ExecStreamRuns.ExitMeans | shinkend/src/exec.rs:452-483 | a timed-out exit has no code and a dead group; an untruncated one followed the whole of both channels (unless the wait failed); and unless the drain was given up, the flag says exactly whether the output exceeded the budget, and `timed_out` exactly whether the group was killed |
| ExecStreamExit.ExitTells | shinkend/src/exec.rs:363-483 | the exit message of every run, all fields: the spawn error, the wait error, or the leader's status with `timed_out` iff the deadline killed and `truncated` iff the drain was given up or the output exceeded 8 MiB |
| ExecStreamExit.FinishedIsClean | shinkend/src/exec.rs:452-483 | a finished run sent its exit or the client is gone; both pipes ended or the group is dead; and the group is dead for certain if the client was lost while sending or the drain given up |
| ExecStreamExit.BuffersAreBounded | shinkend/src/exec.rs:363-443 | at most 8 chunks wait in the funnel, at most 32 messages in the writer channel, and every output has 1 to 65536 bytes |
| ExecStreamExit.DaemonIsCut | shinkend/src/exec.rs:452-482 | a run whose leader leaves a child on the pipes: its exit reports code 0, truncated, not timed out, and the child is dead |
| ExecStreamTrust.TrustworthyIff | shinkend/src/exec.rs:471-481 | an untruncated exit implies whole delivery in every run iff it is not the failed-wait exit |
| ExecStreamTrust.LostOutput | shinkend/src/exec.rs:471-481 | a run that loses the child's byte and ends with an untruncated exit |
| ExecStreamTrust.UntruncatedIsWhole | shinkend/src/exec.rs:452-482 | in a run in which no wait fails, an untruncated exit means whole delivery of both channels |
| ExecStreamTrust.WholeIffWithinBudget | shinkend/src/exec.rs:410-482 | in a run whose drain was not given up, failed waits included, both channels were delivered whole iff the output kept within the budget |
| ExecStreamRuns.RunsEnd | shinkend/src/exec.rs:386-483 | the runtime's own steps from any reachable state are boundedly many, and until the run is finished there is always another |
| ExecStreamRuns.PipelineMoves | shinkend/src/exec.rs:363-451 | the bounded funnel cannot deadlock the pipeline, timers aside: a step is possible in every state but those where all that was written has been forwarded and a live process still holds a pipe, and there none is |
| Clipboard.AnswersAreTruthful | shinkend/src/clipboard.rs:320-376 | whatever other clients do, every answer carries the last text set before it, or is the targets list, or refuses |
| ClipboardAnswers.RequestIsAnswered | shinkend/src/clipboard.rs:320-376 | whoever asks, a held text is served for UTF8_STRING, STRING and TARGETS and for nothing else, under the property asked for or the target when none is named; our own window sees the property and the notification |
| ClipboardAnswers.EveryPasteIsServed | shinkend/src/clipboard.rs:303-393 | after a `set`, in every interleaving without takeover, every answer to any client serves the text that was the latest set, for the three targets, and refuses other targets |
| ClipboardAnswers.RequestsAreAnsweredInOrder | shinkend/src/clipboard.rs:294-376 | no request is lost, answered twice or out of turn, whatever all clients do |
| ClipboardAnswers.ForeignText | shinkend/src/clipboard.rs:395-460 | with another owner a `get` asks for UTF8_STRING and returns what that owner writes, up to 1048576 bytes and not INCR |
| ClipboardAnswers.ForeignString | shinkend/src/clipboard.rs:395-460 | refused UTF8_STRING, it asks once for STRING and returns that |
| ClipboardAnswers.NobodyOwns | shinkend/src/clipboard.rs:395-422 | with no owner both targets are asked for and there is no text |
| ClipboardAnswers.StraysAreDropped | shinkend/src/clipboard.rs:294-318 | notifications to others or of other selections, and other strays, change nothing |
| Clipboard.CalmStep | shinkend/src/clipboard.rs:305-460 | with nobody taking the selection, every step keeps the worker owning it, serving the last text, and its own conversions answered by itself |
| Clipboard.RegisterIsAtomic | shinkend/src/clipboard.rs:184-460 | after a `set`, under any interleaving without takeover, every `set` succeeds and every `get` that does not time out returns the latest text, or the empty text exactly when it started behind a late notification |
| Clipboard.RegisterIsPlain | shinkend/src/clipboard.rs:219-460 | with no timeout either, every `get` returns the text of the latest `set` |
| Clipboard.SetSurvivesIff | shinkend/src/clipboard.rs:305-393 | every `get` after a successful `set` returns its text iff no SelectionClear was queued before it; otherwise every one finds no text |
| ClipboardOwner.Owner.ServeRequest | shinkend/src/clipboard.rs:320-376 | one request is answered once: served iff a text is held and the target is one of the three, with that text, and nothing else changes |
| ClipboardOwner.Owner.OnEvent | shinkend/src/clipboard.rs:303-318 | one event: a request is served, a takeover drops the text, a notification goes to the caller |
| ClipboardOwner.Owner.Pump | shinkend/src/clipboard.rs:294-301 | the idle loop is a run of the state machine that empties the queue |
| ClipboardOwner.Owner.Set | shinkend/src/clipboard.rs:204-212 | an oversized text is refused untouched; otherwise the text is served from then on and success means owning the selection; the steps are exactly the command, another client's step if there is one, and the check |
| ClipboardOwner.Owner.Get | shinkend/src/clipboard.rs:395-422 | the wait loop, with any steps of other clients between polls, is a run of the state machine made of the command, polls, those steps and at most a final timeout; while we own the selection or nobody does, it is answered within two rounds for every event queued or added and four more |
| ClipboardOwner.Owner.SetThenGet | shinkend/src/clipboard.rs:378-422 | with calm clients a `get` after a `set` reads the text iff no takeover was queued, and no text otherwise; it times out only without rounds enough |
| ClipboardOwner.Owner.ConvertTo | shinkend/src/clipboard.rs:424-435 | a conversion first deletes the transfer property, then asks for the target |
| ClipboardOwner.Owner.Read | shinkend/src/clipboard.rs:437-459 | the property is returned and deleted; INCR and more than 1 MiB are errors, the latter leaving it; an absent one reads as nothing; no other property is touched |
| ClipboardOwner.StaleClearLosesText | shinkend/src/clipboard.rs:305-393 | a run in which a successful `set` behind a queued takeover loses its text to the next `get`'s polls |
| ClipboardOwner.LateNotifyReadsNothing | shinkend/src/clipboard.rs:395-422 | a calm run in which a `get` after a timed-out one returns the empty text |
| SessionConnection.Connection.HandleText | shinkend/src/connection.rs:196-211 | one inbound frame: unauthenticated, it opens the session or closes it and calls nothing; authenticated, it keeps authentication and binary mode; all but an authenticated action is answered as it must be |
| SessionConnection.Connection.OnHandshake | shinkend/src/connection.rs:213-257 | only a v0 hello with the token opens the session and fixes the binary mode; all else closes |
| SessionConnection.Connection.OnAuthed | shinkend/src/connection.rs:259-290 | an authenticated message: repeated hello, action, query or ping |
| SessionConnection.Connection.Validate | shinkend/src/connection.rs:437-490 | the checks before any verb yield an error iff the action breaks one of the schema's rules |
| SessionConnection.Connection.DispatchAction | shinkend/src/connection.rs:422-653 | the dispatcher gives every action a good outcome and exactly the answer it must have (SessionRuns.DispatchIsGood, SessionAnswers.DispatchIsExact); an invalid one touches neither session nor guest |
| SessionConnection.Connection.ObserveAction | shinkend/src/connection.rs:655-687 | a structured observation replaces the elements that references resolve against |
| SessionAnswers.CheckIffInvalid | shinkend/src/connection.rs:384-490 | the ordered checks reject an action iff it breaks one of the schema's rules |
| SessionAnswers.DispatchIsExact | shinkend/src/connection.rs:422-825 | a valid action is refused exactly for its verb's own reasons, and otherwise answered with just what it asked for: the picture, tree, text, stream, exec or delay, the calls made on the guest, and the follow-up, against the guest's own answers |
| SessionAnswers.MessageIsHeard | shinkend/src/connection.rs:196-290 | every message but an authenticated action: the one hello that opens, what closes, and the answers to queries and pings |
| SessionAnswers.VerbNames | shinkend/src/connection.rs:498-650 | which verb each name is |
| SessionAnswers.MutatingNames | shinkend/src/connection.rs:337-353 | the fifteen verbs that admit `observe` |
| SessionAnswers.WindowScopes | shinkend/src/connection.rs:307-321 | a window scope is accepted, in decimal or hexadecimal, iff its id fits 32 bits |
| Numbers.NumeralParses | shinkend/src/connection.rs:307-321 | a numeral is read back iff its number fits 32 bits |
| SessionRuns.ResolvedIsValid | shinkend/src/connection.rs:380-406 | a resolved `observe` has a well-formed scope, quality 1 to 100, and a long edge within the negotiated maximum |
| SessionRuns.DispatchIsGood | shinkend/src/connection.rs:422-751 | every action: one primary reply with its call_id (or one buffered exec), a follow-up exactly after an ok ack of a mutating verb with `observe`, stream and exec as asked and within bounds, a valid `wait` delayed as asked up to 10000 ms and nothing else, `not_modified` only for the hash of the pixels just captured, at most one effect on the guest, which succeeded iff acknowledged; an invalid action touches nothing |
| SessionRuns.ExecRequestIff | shinkend/src/exec.rs:80-135 | an exec request is accepted iff it has exactly one command form, with a non-empty argv if it is that, no pty and no zero timeout; its deadline is clamped to 600000 ms |
| SessionRuns.ExecIsGood | shinkend/src/connection.rs:524-537 | an exec gets through only when enabled, under its call_id, with a command and a deadline of 1 to 600000 ms |
| SessionRuns.ScreencastIsGood | shinkend/src/connection.rs:538-573 | a stream starts only with an ok ack, under the call_id, within the frame-rate, size and quality bounds, and as a delta only on raw capture |
| SessionRuns.ElementIsGood | shinkend/src/connection.rs:689-751 | element verbs drive the node the last observation gave the reference, and are observed only on success |
| SessionRuns.DesktopIsGood | shinkend/src/connection.rs:620-651 | the executor gets the action as it came, with an element reference replaced by the element's centre |
| SessionRuns.SessionIsKept | shinkend/src/connection.rs:196-290 | over every session: nothing but a reply before an accepted hello, which must come first; then authentication and binary mode never change, every action has a good outcome and exactly its answer, and every other message is answered as it must be |
| SessionRuns.ExecutionIsGated | shinkend/src/connection.rs:614-651 | the executor runs at most once per action, only after the hello, never with an element reference as target, never for `launch_app` with exec disabled |
| SessionRuns.NoExecWhenDisabled | shinkend/src/connection.rs:524-528 | with exec disabled no exec gets through in any session |
| Screens.NotModifiedIff | shinkend/src/connection.rs:753-825 | `not_modified` iff the backend yields raw pixels and the offered hash is theirs, whatever the codec; without raw pixels the offer changes nothing |
| Screens.OfferedHashDecides | shinkend/src/connection.rs:753-825 | the hash that came with a full picture is good for any later request, whatever its codec options: `not_modified` iff the pixels hash alike, a full picture otherwise |
| Negotiation.InvStep | sdk/python/src/shinken/client.py:1751-1798 | every step of every session, and any eviction, keeps all held frames genuine and all results faithful |
| Negotiation.KeptIsGenuine | sdk/python/src/shinken/client.py:1771-1796 | what a session remembers of a reply is the encoding, under its key, of a frame that was on some screen |
| Negotiation.TransparentIff | shinkend/src/connection.rs:753-825 | every run gives each screenshot the screen's own picture, coded as asked, iff frames that hash alike encode alike |
| Negotiation.OwnThenShared | sdk/python/src/shinken/client.py:1759-1766 | a new session offers the frame another has cached, and one with a frame of its own offers that, whatever the cache holds since |
| Negotiation.WithoutDedup | sdk/python/src/shinken/client.py:1756-1798 | a screenshot without deduplication offers nothing and leaves no trace |
| Negotiation.InjectiveIsTransparent | shinkend/src/executor.rs:760-784 | in particular with a hash injective on the frames seen |
| Negotiation.Mistaken | sdk/python/src/shinken/client.py:1759-1789 | a run in which colliding frames make a session return the wrong picture |
| Negotiation.StalePointer | sdk/python/src/shinken/client.py:1774-1789 | a run in which the second screenshot has no pointer and its result shows the first one's |
| Negotiation.MetaIsFreshIff | sdk/python/src/shinken/client.py:1774-1789 | map and pointer of a `not_modified` result are the reply's own iff the reply lacks no part that the held frame has |
| TreeWalk.WalkSubtree | shinkend/src/atspi_source.rs:384-411 | the explicit-stack loop appends a prefix of the recursive pre-order listing and sets `truncated` exactly when a cap or the deadline cut it or the depth limit was reached |
| TreeWalk.Snapshot | shinkend/src/atspi_source.rs:354-381 | over all roots: at most 2000 nodes, a prefix of the whole listing; every node is a root or has its true parent before it, below each node come the first of its non-null children in document order, and all of them unless truncated |
| TreeWalk.ListingLinked | shinkend/src/atspi_source.rs:391-406 | in the listing every node's parent link names an earlier node one level up that has it as a child |
| TreeWalk.ListingComplete | shinkend/src/atspi_source.rs:391-406 | below every listed node above depth 48 come exactly its non-null children, in document order |
| TreeWalk.EverythingComplete | shinkend/src/atspi_source.rs:365-379 | over all roots: the roots in order, each with everything below it |
| Settle.SettleLoop | shinkend/src/atspi_source.rs:277-294 | the debounce loop stops at the first moment the bus has been quiet for the window, the event stream has ended, or the cap is reached |
| Settle.Clamp | shinkend/src/atspi_source.rs:268-272 | the window is the nearest one between 10 and 1000 ms |
| MacText.DecodeEncode | shinkend/src/executor_macos.rs:389-404 | decoding the UTF-16 units of a text gives the text back |
| MacText.PlanTextChunks | shinkend/src/executor_macos.rs:387-404 | the loop computes the greedy chunks |
| MacText.ChunksFacts | shinkend/src/executor_macos.rs:387-404 | the chunks concatenate to the encoding and decode to the text, each encodes a non-empty piece in at most 20 units, and no other split within the limit has fewer |
| MacText.GreedyIsOptimal | shinkend/src/executor_macos.rs:389-404 | a greedy split has no more pieces than any other within the limit |
| MacKeys.PlanKeyCombo | shinkend/src/executor_macos.rs:406-459 | the loops compute the plan of a combo, or its first error |
| MacKeys.KeyPlanPresses | shinkend/src/executor_macos.rs:406-459 | an accepted combo, repeated modifiers included: every event's flags are the modifiers held after it, the key goes down and up once under exactly the requested modifiers and any needed Shift, and nothing stays held |
| MacKeys.NamedModifier | shinkend/src/executor_macos.rs:299-309 | every modifier has its own flag |
| MacLayout.ModifierNames | shinkend/src/executor_macos.rs:299-309 | which modifier each name is, and that there are no other names |
| MacLayout.WantedNames | shinkend/src/executor_macos.rs:406-420 | which modifiers a combo holds, by the names in it |
| MacLayout.CaseDoesNotMatter | shinkend/src/executor_macos.rs:264-309 | names are read in any case |
| MacKeys.KeyKeycode | shinkend/src/executor_macos.rs:174-298 | the key tables never yield a modifier's keycode |
| MacLayout.KeyTypes | shinkend/src/executor_macos.rs:174-259 | the key and Shift chosen for a character type it on the US layout |
| MacLayout.HasKeyIff | shinkend/src/executor_macos.rs:174-259 | exactly printable ASCII, newline and tab have a key |
| MacLayout.KeyNames | shinkend/src/executor_macos.rs:264-284 | the keycodes of the named keys |
| MacLayout.FunctionKeys | shinkend/src/executor_macos.rs:285-297 | F1 to F12 by number, and no others |
| MacPlan.ResolvesIff | shinkend/src/executor_macos.rs:367-385 | a pixel target resolves iff it is on the screen, to itself; a normalized one iff it is in [0, 1], to the nearest pixel in 16 signed bits; an element reference or no target is an error |
| MacPlan.NormIsExactIff | shinkend/src/executor.rs:663-673 | a normalized coordinate lands within half a pixel of its fraction of the screen iff that lies within 16 signed bits |
| MacPlan.ResolvedOnScreen | shinkend/src/executor_macos.rs:367-385 | a resolved target lies on the screen |
| MacPlan.PlannedIff | shinkend/src/executor_macos.rs:461-634 | which actions are planned: targets on the screen, a wheel delta, two different points and the left button for a drag, a text, a combo of known names |
| MacPlan.PlanDrag | shinkend/src/executor_macos.rs:535-583 | the loop emits the press, eight motions and the release |
| MacPlan.DragFacts | shinkend/src/executor_macos.rs:552-575 | drag motions never turn back on either axis, end at the drop point, and the release is there |
| MacPlan.DragAims | shinkend/src/executor_macos.rs:535-583 | a drag presses where `target` says, moves in eighths, and releases where `to` says, which is elsewhere |
| MacPlan.PointerAims | shinkend/src/executor_macos.rs:463-622 | a pointer plan moves to where the target says, presses and releases the verb's button there (or in place) the right number of times, and turns the wheel against the delta by its whole part, as far as 32 bits go |
| MacPlan.PointerGestures | shinkend/src/executor_macos.rs:463-622 | after the move, exactly the presses and releases of the verb, in order, with their click counts, or one wheel event |
| MacPlan.TypesText | shinkend/src/executor_macos.rs:623-630 | typing sends only text, whose units decode to it |
| MacPlan.PressesKeys | shinkend/src/executor_macos.rs:631-634 | a key action presses its key under the modifiers it names |
| MacPlan.PlanAction | shinkend/src/executor_macos.rs:461-655 | the planner as the code runs it: an accepted plan releases all keys and all buttons but that of `mouse_down`, on the screen |
| MacPlan.PlanIsBalanced | shinkend/src/executor_macos.rs:461-634 | from all-released, every plan releases all keys and, `mouse_down` apart, all buttons; every coordinate is on the screen |
| EditDistance.Ned | benchmarks/bench_obs_quality.py:491-506 | the two-row loop returns the recursive edit distance of the normalized texts over the longer length |
| EditDistance.DistanceIsMinimalCost | benchmarks/bench_obs_quality.py:495-506 | the distance is the least cost of any edit script |
| EditDistance.DistanceTriangle | benchmarks/bench_obs_quality.py:495-506 | the triangle inequality |
| EditDistance.DistanceSymmetric | benchmarks/bench_obs_quality.py:495-506 | symmetry |
| EditDistance.DistanceZeroIff | benchmarks/bench_obs_quality.py:495-506 | zero iff equal |
| EditDistance.DistanceBounds | benchmarks/bench_obs_quality.py:495-506 | between the length difference and the longer length |
| EditDistance.NedScore | benchmarks/bench_obs_quality.py:491-506 | the score times the longer length is the distance; it is in [0, 1], symmetric, and zero iff the texts have the same words |
| EditDistance.WordsSplit | benchmarks/bench_obs_quality.py:491-492 | the words of a text are those before and those after any space |
| Ssim.WinMeanIsMean | benchmarks/bench_obs_quality.py:527-532 | the four-cell formula on the summed-area table is the direct window mean at every position |
| Ssim.CauchySchwarz | benchmarks/bench_obs_quality.py:533-536 | window variances are non-negative and the covariance obeys Cauchy-Schwarz |
| Ssim.ScoreAtFacts | benchmarks/bench_obs_quality.py:533-540 | each window's score is in [-1, 1], symmetric, and 1 iff the windows agree |
| Ssim.DenominatorPositive | benchmarks/bench_obs_quality.py:537-539 | the divisor is positive |
| Ssim.SsimFacts | benchmarks/bench_obs_quality.py:509-540 | the mean score is in [-1, 1], symmetric, and 1 iff the images are equal |
| Ssim.CovarianceIsSpread | benchmarks/bench_obs_quality.py:533-536 | the variances and covariance are the mean products of the deviations from the means |
| Ssim.ScoreAtIs | benchmarks/bench_obs_quality.py:533-540 | the score computed from the tables solves the SSIM equation in the window's own means, variances and covariance |
| Ssim.SsimIs | benchmarks/bench_obs_quality.py:525-540 | the result is the average over every position of a window of side 8 or the shorter side |
| ScoreIntervals.WilsonBounds | benchmarks/analyze_agent_quality.py:45-53 | the bounds are the two roots of the score equation, lie in [0, 1] around the point, and the clamps never bind |
| ScoreIntervals.WilsonIncreases | benchmarks/analyze_agent_quality.py:45-53 | both bounds strictly increase with the successes |
| ScoreIntervals.WilsonMirrors | benchmarks/analyze_agent_quality.py:45-53 | counting failures mirrors the interval |
| ScoreIntervals.NewcombeRange | benchmarks/analyze_agent_quality.py:56-68 | -1 <= lo <= d <= hi <= 1 |
| ScoreIntervals.NewcombeSides | benchmarks/analyze_agent_quality.py:56-68 | each side of the interval is the hypotenuse of the two arms' own distances to their Wilson bounds |
| ScoreIntervals.VerdictIs | benchmarks/analyze_agent_quality.py:102-145 | the published verdict, without a square root: the difference raised by 0.05 is at least the hypotenuse of the two distances |
| ScoreIntervals.NoVerdictIff | benchmarks/analyze_agent_quality.py:102-145 | there is none iff an arm has no episode that ended in a verdict |
| ScoreIntervals.CountsAppend | benchmarks/analyze_agent_quality.py:102-118 | verdicts and successes are counted one by one |
| ScoreIntervals.NewcombeSwaps | benchmarks/analyze_agent_quality.py:56-68 | swapping the arms negates and swaps the bounds |
| ScoreIntervals.NewcombeMonotone | benchmarks/analyze_agent_quality.py:56-68 | more tier successes and fewer control successes never lower the lower bound |
| ScoreIntervals.VerdictMonotone | benchmarks/analyze_agent_quality.py:102-145 | turning tier failures into passes and control passes into failures never withdraws a non-inferiority verdict |
| ScoreIntervals.TurningImproves | benchmarks/bench_agent_quality.py:393-401 | turning one recorded verdict the favourable way, `kind` and `success` together, gives recorded episodes that improve by exactly that success and keep the verdict |
| DelayProxy.InvStep | benchmarks/_wan_proxy.py:58-92 | every step of reader and drainer keeps the queue in step with what was read and written |
| DelayProxy.DeliveryIsFaithful | benchmarks/_wan_proxy.py:58-92 | in every run, whatever fails: bytes written are a prefix of the bytes that arrived, nothing leaves before arrival plus delay, EOF comes once and last, and the drainer waits for more only while the reader reads |
| DelayProxy.PromptDelivery | benchmarks/_wan_proxy.py:58-92 | with prompt timers and writes every chunk and the EOF leave exactly at arrival plus delay, however many are queued, and a finished drainer has written all |
| DelayProxy.Direction.Read | benchmarks/_wan_proxy.py:82-90 | the reader queues each chunk, or the end marker, with its due time |
| DelayProxy.Direction.Get | benchmarks/_wan_proxy.py:67-71 | the drainer takes the head of the queue and its wait |
| DelayProxy.Direction.Write | benchmarks/_wan_proxy.py:72-78 | after the wait the chunk, or the EOF, is written |

## Left out

- Exec: a capture or forwarder task that panics, pipe read errors other than end of file, and chunks whose encoding fails.
- Exec: the stdin feeder, the drop of the child on an aborted connection, pid reuse, and the bound on concurrent execs.
- ExecTree.ActedKeeps: a process that joins the group after the kill, which an unreaped leader makes possible, is not counted among the group's members; the kill cannot have reached it.
- Exec: times are abstract; a deadline or grace timer may fire at any moment after it starts.
- ExecBuffered.BufferedIsHonest: says nothing of a run whose wait failed, because the code then returns without draining or killing.
- Clipboard: decoding bytes to text (lossy for foreign owners), the command timeout of callers, respawning a worker that lost its display, and requests beyond the server's size limit.
- Session: JSON parsing, wording of errors and status strings, timing of the token comparison, resuming a stream, and rendering of observations and diffs.
- Session: element verbs and screenshots are computed as values and then returned by the class; only the fields the source updates are updated in place.
- Negotiation: the order of eviction (any eviction is allowed at any time), hit counters, and locking of the cache, which is modelled on values.
- TreeWalk: children do not change during a walk, and the clock is an arbitrary predicate of the number of nodes read; choosing the active application is not modelled.
- Settle: the drain before the loop, which has no total bound.
- The accessibility worker's connection and its request timeout.
- MacPlan: splitting a combo string, the names of the verbs and the status strings, NaN and infinite coordinates, rounding of floating-point products; delivery of the events.
- EditDistance, Ssim, ScoreIntervals: floating-point rounding, the library SSIM used when it is installed, rounding of reported values.
- DelayProxy: opening and closing the two connections of a relay, and early wake-ups of the event loop's clock.
- The main server loop, screencast encoding, the providers and the rest of the SDK.
