# TailKVM verification model

TailKVM lets one machine drive the pointer, the keyboard and the clipboard of
others over a network. This project models its hard parts in Dafny and proves
what they are for.

- **Session pipeline** (`Protocol`, `LineReader`, `Coalescing`, `HeldInput`,
  `Receiver`, `Pipeline`, `CodecInstance`): the controller drains its queue into
  batches and drops superseded positions; the receiver rebuilds lines from
  arbitrary chunks under a memory cap, admits a session by handshake, injects
  input, tracks what is held and releases it on every exit.
- **Screen space** (`Rounding`, `ScreenSpace`, `LayoutGraph`, `LayoutEditor`): the
  two-screen and the N-screen cursor model, proportional mapping, the projection
  onto real monitors, and the links drawn by the layout editors.
- **Capture engines** (`Gates`, `Watchdog`, `Seamless`, `SeamlessTrack`, `Router`,
  `RouterGrip`, `RouterMoves`): the dwell and push gates, and the two loops that own
  crossing, confinement, hooks, anchor and the link watchdog; what they hold and
  where they put the cursor.
- **Keyboard forwarding** (`KeyRouting`, `KeyboardLoop`, `KeyboardSends`): key
  routing, the four states of the composition mode, the keys the peer holds and the
  messages it gets.
- **Distributed pieces** (`UdpMotion`, `Clipboard`, `ClipboardHolds`,
  `ClipboardAccounts`, `ClipboardEchoes`, `ClipboardAgreement`): motion datagrams under
  loss, duplication and reordering, and the clipboard hub with its echo guard.

Where the program changes state step by step, a class with the same fields is
proved against a function of its state; lemmas about that function then speak of
whole runs. Everything a loop reads from outside - clocks, flags, arriving bytes,
hook events, whether a call of the operating system succeeds - is part of an
input that is chosen anew in every step, and the theorems hold for all of them.
`Basics` holds shared definitions. `dafny verify dfyconfig.toml` checks it all.

## Findings

Some attractive statements do not hold of the code. Each is proved here with the
exact condition under which the code meets it, with a concrete run, or with both;
for the last one the conditions leave a gap.

- The N-screen space equals the two-screen one except when a step crosses a top
  or bottom edge while its x has left the screen (`LayoutGraph.RunsAgreeIff`).
- Re-linking a screen can break the way back (`LayoutGraph.LinkKeepsSymmetryIff`).
  For any list of links that is so exactly if one of them is left standing in one of
  its slots only (`LayoutGraph.SymmetricIffWhole`); for boxes with distinct names in
  the 2D editor, exactly if two of them have the same nearest box on one axis
  (`LayoutEditor.InferredSymmetricIff`, `LayoutEditor.SharedNeighbourIsNotSymmetric`).
- No editor and no command rejects equal screen names, so a screen can become its
  own neighbour: in the chain exactly when the last card with a name stands right
  behind another one with it (`LayoutGraph.ChainSelfLinkedIff`), in the 2D editor
  exactly when the last box to write a slot and its nearest box share their name
  (`LayoutEditor.BoxesSelfLinkedIff`). If that is the local screen, the router can
  hold hooks and confinement on it, exactly when a tick is about to enter it
  (`Router.RunOwnedIff`, `Router.TwinChainBreaks`); never in spaces that an editor
  drew with distinct names (`Router.EditedRunsOwned`).
- A composition does not keep the router on its screen exactly when that screen is
  gone from the configuration and the tick is about to enter another
  (`Router.RunComposingIff`, `Router.ComposingPasses`).
- While a composition is open a key event stays local only if characters are being
  resolved (`KeyboardLoop.SilentWhileComposingIff`).
- One flip per press of a toggle key fails exactly when the last toggle-key event
  handled and the last event of this key disagree: if resolution was turned off
  around the key-up, or if two toggle keys are used together
  (`KeyboardLoop.FlipsOnPressIff`, `PressLost`, `SecondKeyIgnored`, `RepeatFlips`).
- A key-up can be kept from the peer, for instance that of the letter of a shortcut
  after its modifier went up in composition mode (`KeyboardLoop.StaysHeldIff`,
  `KeyboardLoop.ShortcutStuck`); the key then stays down at the peer until all keys
  are released or another key-up of it is forwarded (`KeyboardLoop.StaysDown`).
- The seamless link watchdog is not disarmed by a successful lookup or keep-alive
  (`Seamless.LinkLostIff`, `Seamless.BouncedThoughAlive`).
- The echo guard of the clipboard does not prevent loops, because neither reading
  and checking nor marking and setting is one step: two copies can go back and
  forth for ever, through either window even if the other pair is never divided
  (`ClipboardEchoes.EchoesForever`). The excess is bounded by the interposed checks
  and overtaken contents (`ClipboardAccounts.BroadcastsBounded`), of which there are
  none with a lock over both pairs (`ClipboardAccounts.LockedNeverLoops`).
- Two screens that copy at once can end with each other's text
  (`ClipboardAgreement.TwoCopiesAtOnceDisagree`). A copy is safe if nothing but
  notices of its own screen is outstanding (`ClipboardAgreement.OneCopyReachesAll`),
  and unsafe if other content is on its way to its screen
  (`ClipboardAgreement.CrossedDisagree`, `ClipboardAgreement.HubCrossedDisagree`);
  content on its way to other screens only is not decided.

## Model

The step methods of the classes (`Reader`, `Batch`, `Outbox`, `ReceiverSession`,
`KeyboardThread`, `SeamlessCapture`, `RouterLoop`, `SwitchGuard`, `PushGate`,
`SeqGate`, `Screen`) are proved equal to the functions that these results speak of;
the rows name the results and the whole runs.

| member | source | states |
|---|---|---|
| Pipeline.Transfer | apps/tailkvm-ui/src-tauri/src/session/receiver.rs:96-609 | End to end, for every queue, batching, heartbeat schedule, chunking, interleaving with the other loop branches, policy, failure of injection and cut: what the receiver carried out, with the cursor position in force for each action, is what a part of the queue says message by message, none of it without being let in: its injected input and clipboard messages up to the end of the session, in order, and exactly its inputs if everything is injected and nothing ends the session; the whole drained queue if the stream was read to its end; no read error if every message fits the cap and nothing is cut; nothing stays pressed if injection succeeds |
| Pipeline.LinesOfPrefix | crates/tailkvm-net/src/protocol.rs:140-149 | Cutting the wire after any byte leaves whole messages and at most one stump |
| Pipeline.NothingToRefuse | apps/tailkvm-ui/src-tauri/src/session/wire.rs:47-99 | If every message fits the cap, no point of the wire is followed by a line the reader must refuse |
| Pipeline.ReplayIsFold | apps/tailkvm-ui/src-tauri/src/session/receiver.rs:172-178 | Handling the received lines is executing the messages one by one, each in the environment it met; a stump of a message does nothing |
| Pipeline.HandledPartOfQueue | apps/tailkvm-ui/src-tauri/src/session/controller.rs:384-418 | Any handled part of what was written has the trace and cursor of a part of the queue, all of it of all of it, and of none of it if the session was turned away |
| Pipeline.FoldActs | apps/tailkvm-ui/src-tauri/src/session/receiver.rs:172-569 | Stated without the session: an admitted session carries out the injected text, keys, buttons, wheel, moves and clipboard content up to a Disconnect or a Hello that is turned away, each with the cursor then in force |
| Pipeline.ActionsAreInputs | apps/tailkvm-ui/src-tauri/src/session/receiver.rs:172-569 | If everything is injected and nothing ends the session, exactly the inputs are carried out, in order |
| CodecInstance.LawfulCodecExists | crates/tailkvm-net/src/protocol.rs:140-149 | The codec contract has an instance: every message decodes back, no control characters, no strict prefix decodes |
| LineReader.Reader.PollLine | apps/tailkvm-ui/src-tauri/src/session/wire.rs:47-99 | A poll returns what the unread bytes demand whatever chunks they came in; a pending or failed poll loses nothing; the buffer never exceeds the cap |
| LineReader.ReadAll | apps/tailkvm-ui/src-tauri/src/session/wire.rs:47-99 | For every segmentation the results are those of one split on newlines, carriage return stripped, up to the first error |
| LineReader.PollArrived | apps/tailkvm-ui/src-tauri/src/session/wire.rs:47-99 | The results read so far and those still to come make up the outcomes of the whole stream |
| LineReader.NextOutcome | apps/tailkvm-ui/src-tauri/src/session/wire.rs:47-99 | A result that is not pending is the next outcome of the whole stream |
| LineReader.SplitAppend | apps/tailkvm-ui/src-tauri/src/session/wire.rs:47-99 | Splitting a stream takes it apart line by line |
| LineReader.CrLfIsLf | apps/tailkvm-ui/src-tauri/src/session/wire.rs:47-99 | One carriage return before the newline is no part of the text |
| LineReader.RefusedIff | apps/tailkvm-ui/src-tauri/src/session/wire.rs:47-99 | A line is refused exactly if it is longer than the cap or its text is not UTF-8 |
| Coalescing.PushIsReference | apps/tailkvm-ui/src-tauri/src/session/wire.rs:223-233 | Editing the batch in place, one message at a time, leaves out exactly the positions that another position follows |
| Coalescing.CoalescedShape | apps/tailkvm-ui/src-tauri/src/session/wire.rs:223-233 | Every other message survives in order and no two positions stay adjacent |
| Coalescing.PartOfCoalesced | apps/tailkvm-ui/src-tauri/src/session/controller.rs:400-415 | For every receiver on which a position overwrites the previous one, any handled part of a coalesced batch amounts to a part of the original batch, a superseded position in the environment of its successor; all of it to all of it |
| Coalescing.PartOfWritten | apps/tailkvm-ui/src-tauri/src/session/controller.rs:384-418 | The same for everything written over a whole schedule of drains and heartbeats |
| Coalescing.DrainsWhatIsOffered | apps/tailkvm-ui/src-tauri/src/session/controller.rs:384-418 | A schedule drains as much as its wake-ups find, so long as there is anything |
| Coalescing.BeatsAreWritten | apps/tailkvm-ui/src-tauri/src/session/controller.rs:459-471 | Every timer wake-up writes its heartbeat, in order |
| Coalescing.Outbox.Run | apps/tailkvm-ui/src-tauri/src/session/controller.rs:378-418 | A schedule of wake-ups writes the batches and heartbeats in order and keeps the rest queued |
| Receiver.NothingBeforeAdmission | apps/tailkvm-ui/src-tauri/src/session/receiver.rs:258-269 | Whatever arrives, nothing is injected, tracked or applied before a Hello was admitted |
| Receiver.GateDoes | apps/tailkvm-ui/src-tauri/src/session/wire.rs:104-109 | A Hello is admitted exactly if accepting is on and a required token is the one presented; without it nothing else changes the session |
| Receiver.LastBeatIs | apps/tailkvm-ui/src-tauri/src/session/receiver.rs:540-545 | The heartbeat watchdog goes by the last Hello, or heartbeat of an admitted session |
| Receiver.HandlingDoes | apps/tailkvm-ui/src-tauri/src/session/receiver.rs:283-569 | In an admitted session a message of the listed kinds is carried out exactly if injected, at the cursor before it; a position moves the cursor to its place; keys and buttons are tracked whether injected or not and down as injected; only a Disconnect ends the session |
| Receiver.ExecKeepsCovered | apps/tailkvm-ui/src-tauri/src/session/receiver.rs:408-421 | Every key and button down in the OS stays named by something tracked, across aliases, case and scan codes, except those whose last press or release was a release that could not be injected |
| Receiver.ReplayCovered | apps/tailkvm-ui/src-tauri/src/session/receiver.rs:408-479 | The same over any log of messages |
| Receiver.NoneStuck | apps/tailkvm-ui/src-tauri/src/session/receiver.rs:408-479 | If every release could be injected there are no such exceptions |
| Receiver.RunSession | apps/tailkvm-ui/src-tauri/src/session/receiver.rs:96-609 | For any events and any exit: a key or button of the session stays down only if the last press or release of it was a release that could not be injected; what was carried out is the replay of the lines handled; those lines are a prefix of the stream, all of it if the peer closed; the exit is explained by the last event, the last line or the last heartbeat, and without an exit no event was one that ends a session |
| Receiver.ReceiverSession.Loop | apps/tailkvm-ui/src-tauri/src/session/receiver.rs:96-592 | The state is the replay of the lines handled, which come from a prefix of what was delivered; all of it when the peer closed |
| Receiver.ReceiverSession.Timers | apps/tailkvm-ui/src-tauri/src/session/receiver.rs:127-170 | An event of the other branches ends the session exactly if it is a failed or closed outbound side, a cancel, or a failsafe tick with abort, hotkey or a heartbeat 8 s old, and for that reason |
| Receiver.ReceiverSession.ReleaseHeld | apps/tailkvm-ui/src-tauri/src/session/receiver.rs:599-608 | The exit drains release everything tracked and leave the trackers empty |
| HeldInput.TrackIsASet | apps/tailkvm-ui/src-tauri/src/forwarding.rs:967-996 | Tracking is a set: each key once, exactly the keys pressed and not released |
| HeldInput.TrackKeepsCover | apps/tailkvm-ui/src-tauri/src/forwarding.rs:981-996 | For any naming of keys, tracking keeps everything down in the OS covered, but for keys whose last event was a failed release |
| HeldInput.ReleaseAllEmpties | apps/tailkvm-ui/src-tauri/src/session/receiver.rs:599-608 | Releasing all that is tracked leaves nothing down that was covered |
| HeldInput.SameOsKeyIff | crates/tailkvm-win32/src/keyboard.rs:122-141 | Two keys are one to the OS exactly if the extended flags and scan codes agree, and without a scan code the virtual keys |
| HeldInput.ButtonNamed | crates/tailkvm-win32/src/mouse.rs:79-102 | Of plainly spelt names nine denote the five buttons, and no other does |
| HeldInput.ButtonSpeltOtherwise | crates/tailkvm-win32/src/mouse.rs:79-102 | Neither case nor the space around a name matters |
| Rounding.MapRatioExact | crates/tailkvm-win32/src/screen_space.rs:100-103 | The mapped coordinate is the exact quotient, rounded half away from zero |
| Rounding.MapRatioInRange | crates/tailkvm-win32/src/screen_space.rs:100-103 | Every source coordinate lands on a pixel of the target |
| Rounding.MapRatioMonotone | crates/tailkvm-win32/src/screen_space.rs:100-103 | The mapping keeps the order of coordinates |
| Rounding.RoundTripOffset | crates/tailkvm-win32/src/screen_space.rs:100-103 | Mapping to the other length and back moves a pixel up by less than 3h+3(H-1) over 2h and down by at most h+H-1 over 2h |
| ScreenSpace.ApplyDeltaStaysInside | crates/tailkvm-win32/src/screen_space.rs:159-211 | Wherever the deltas lead (`StepGoes`), the cursor ends on a pixel of the screen it is in, and a switch is reported exactly on a change of screen |
| ScreenSpace.StepGoes | crates/tailkvm-win32/src/screen_space.rs:159-211 | A step leaves the screen exactly if its target is beyond the shared edge, and arrives at the inset and the mapped coordinate; otherwise it ends on the pixel of the screen nearest to the target, the target itself if that is on the screen |
| ScreenSpace.EntryInside | crates/tailkvm-win32/src/screen_space.rs:137-155 | Entry points in both directions are inside the screen entered |
| ScreenSpace.RecrossExactly | crates/tailkvm-win32/src/screen_space.rs:213-280 | The inset is a hysteresis: right after entering either screen, a step returns to the other exactly if it moves back by more than the inset |
| ScreenSpace.CrossingRoundTrip | crates/tailkvm-win32/src/screen_space.rs:235-325 | Entering the remote and coming back keeps the coordinate along the edge within the stated bound |
| ScreenSpace.NearestProjects | crates/tailkvm-win32/src/screen_space.rs:372-393 | The nearest candidate over the rects lies in one and no point of any is closer |
| ScreenSpace.NearestIsFirst | crates/tailkvm-win32/src/screen_space.rs:372-393 | The projection is onto the nearest rect, the first of equally near ones |
| ScreenSpace.ClampPointIsProjection | crates/tailkvm-win32/src/screen_space.rs:372-393 | The projection is exact: in a rect if there is one, nearest, idempotent, the identity inside, and within every box around the rects |
| ScreenSpace.ClampToRects | crates/tailkvm-win32/src/screen_space.rs:372-393 | The loop with its early return computes the projection |
| LayoutGraph.Graph.Link | crates/tailkvm-win32/src/layout_graph.rs:26-30 | A link writes both slots and overwrites what was there |
| LayoutGraph.LinkKeepsSymmetryIff | crates/tailkvm-win32/src/layout_graph.rs:26-37 | One more link keeps crossing-and-back intact if and only if it overwrites no other screen |
| LayoutGraph.SymmetricUnlessOverwritten | crates/tailkvm-win32/src/layout_graph.rs:26-37 | A graph in which nothing is overwritten leads back over the opposite edge everywhere |
| LayoutGraph.SymmetricIffWhole | crates/tailkvm-win32/src/layout_graph.rs:26-37 | For any list of links and any names, the graph leads back everywhere if and only if no link is the last to write one of its slots while the other was given to another screen |
| LayoutGraph.SelfLinkedIff | crates/tailkvm-win32/src/layout_graph.rs:26-37 | For any list of links, a slot leads a screen to itself if and only if the last link written to it joins the screen to itself |
| LayoutGraph.MultiDeltaStaysInside | crates/tailkvm-win32/src/layout_graph.rs:115-194 | Every step (`MultiStepGoes`) ends on a pixel of a known screen; a switch is reported exactly through a link and names both ends |
| LayoutGraph.MultiStepGoes | crates/tailkvm-win32/src/layout_graph.rs:115-194 | A step leaves the screen exactly if its target is beyond an edge with a known screen behind it, the first such edge in the order right, left, top, bottom, and goes where that neighbour is entered; otherwise it ends on the pixel nearest to the target, the target itself if that is on the screen |
| LayoutGraph.EntersNeighbour | crates/tailkvm-win32/src/layout_graph.rs:94-111 | A neighbour is entered at the inset and the mapped coordinate, exactly where the two-screen space enters its remote screen |
| LayoutGraph.RunAddsUp | crates/tailkvm-win32/src/screen_space.rs:159-211 | A run that stays on its screen ends at its start plus the sum of the deltas |
| LayoutGraph.MultiRunAddsUp | crates/tailkvm-win32/src/layout_graph.rs:115-194 | The same in the N-screen space |
| LayoutGraph.StepsAgreeIff | crates/tailkvm-win32/src/layout_graph.rs:115-194 | One step of the N-screen space with one link equals the two-screen step if and only if it is not a diagonal crossing of a top or bottom edge |
| LayoutGraph.RunsAgreeIff | crates/tailkvm-win32/src/layout_graph.rs:115-194 | The same over every run: refinement holds exactly if no step of the run is such a crossing |
| LayoutGraph.SidewaysRunsAgree | crates/tailkvm-win32/src/layout_graph.rs:115-194 | For a left or right edge the two models agree on every run |
| LayoutGraph.ChainNeighbours | apps/tailkvm-ui/src/features/layout-editor.ts:58-59 | In a chain of distinct names every screen has exactly its left and right neighbour |
| LayoutGraph.ChainSelfLinkedIff | apps/tailkvm-ui/src/features/layout-editor.ts:58-59 | In a chain of any names a screen is its own neighbour if and only if the last card with its name stands right behind another one with it |
| LayoutGraph.ChainLeadsHome | apps/tailkvm-ui/src/features/layout-editor.ts:58-59 | From the i-th screen of a chain, i long moves to the left lead back to the local one |
| LayoutEditor.InferLinks | apps/tailkvm-ui/src/features/layout-editor.ts:93-120 | The nested loops yield, box by box, the link to the nearest box on the right and the nearest below, the first of equals |
| LayoutEditor.FindNearest | apps/tailkvm-ui/src/features/layout-editor.ts:98-115 | One scan finds the nearest box ahead within the band, if there is one |
| LayoutEditor.DrawnNeighbours | apps/tailkvm-ui/src/features/layout-editor.ts:93-120 | In coordinates: with distinct names the right edge of a box leads to the nearest box on its right within the band, the bottom edge to the nearest below, and to nothing else |
| LayoutEditor.DrawnBack | apps/tailkvm-ui/src/features/layout-editor.ts:93-120 | A box that is next to one box only leads back to it on the left or the top |
| LayoutEditor.StackedBoxes | apps/tailkvm-ui/src/features/layout-editor.ts:117 | One box above another: bottom and top are linked, nothing else |
| LayoutEditor.BoxesSelfLinkedIff | apps/tailkvm-ui/src/features/layout-editor.ts:93-120 | In the 2D editor, with any names, a slot leads a screen to itself if and only if the last box to write it and its nearest box carry the same name |
| LayoutEditor.TwinBoxesSelfLinked | apps/tailkvm-ui/src/features/layout-editor.ts:303-318 | Two boxes of one name side by side, which the editor accepts, make such a link |
| LayoutEditor.InferredSymmetricIff | apps/tailkvm-ui/src/features/layout-editor.ts:93-120 | With distinct names the inferred graph leads back everywhere if and only if no two boxes have the same nearest box on one axis |
| LayoutEditor.SharedNeighbourIsNotSymmetric | apps/tailkvm-ui/src/features/layout-editor.ts:93-120 | Three boxes on the 20-pixel grid, two of them with the same nearest box, make a graph that does not lead back |
| LayoutEditor.BuildSpace | apps/tailkvm-ui/src-tauri/src/router.rs:570-611 | A configuration without a local screen is an error; otherwise the space is valid and holds the linked screens |
| LayoutEditor.RectsAre | apps/tailkvm-ui/src-tauri/src/router.rs:592-603 | Exactly the configured names have rects; the last of a name counts, with the reported or configured size of at least 320x240 |
| LayoutEditor.RemoteSize | apps/tailkvm-ui/src-tauri/src/router.rs:593-601 | A remote screen has the size its peer reported, or else the configured one, but at least 320 by 240 |
| Gates.FiresExactlyOnMultiples | crates/tailkvm-win32/src/screen_space.rs:342-364 | A tick fires if and only if it ends an eligible streak whose length is a positive multiple of max(1, ceil(dwell/interval)) |
| Gates.FiringsOfARun | crates/tailkvm-win32/src/screen_space.rs:352-364 | n eligible ticks in a row fire exactly floor(n/k) times |
| Gates.PushRemembered | crates/tailkvm-core/src/motion.rs:42-63 | After any history the gate remembers the last evaluation with a net push toward the edge, and nothing if there was none |
| Gates.FreshPush | crates/tailkvm-core/src/motion.rs:60-63 | Freshness means that some push toward the edge was drained within the window |
| Gates.LastTicksEligible | crates/tailkvm-win32/src/screen_space.rs:342-364 | A complete dwell means that the last max(1, ceil(dwell/interval)) evaluations were all eligible |
| Gates.EvaluateNext | crates/tailkvm-win32/src/screen_space.rs:352-364 | Dwell and push gate after one more evaluation, and firing exactly when the dwell is complete over the history |
| Gates.AbsoluteReportsYieldNothing | crates/tailkvm-win32/src/raw_input_mouse.rs:51-67 | Absolute reports put nothing on the delta channel |
| Gates.DeltasAddUp | crates/tailkvm-win32/src/raw_input_mouse.rs:51-66 | What is drained is the motion in all reports that are not absolute |
| Gates.FreshIff | crates/tailkvm-core/src/motion.rs:42-66 | A push is fresh exactly if the last one toward the edge was drained at most 250 ms ago |
| Gates.AtEdgeIff | apps/tailkvm-ui/src-tauri/src/router.rs:274-283 | The cursor is at an edge if it is no more than the margin inside it |
| Gates.NearCornerIff | apps/tailkvm-ui/src-tauri/src/router.rs:288-302 | It is near a corner if it is no more than the dead zone inside an adjoining edge |
| Watchdog.ArmedSinceStart | apps/tailkvm-ui/src-tauri/src/router.rs:359-364 | The timer holds the time of the first look of the unbroken bad run |
| Watchdog.ExpiredIff | apps/tailkvm-ui/src-tauri/src/router.rs:359-367 | The timer has run out if and only if the unbroken bad run began at least the limit ago |
| KeyboardLoop.PeerHoldsTracked | apps/tailkvm-ui/src-tauri/src/forwarding.rs:572-829 | For every stream of events, resolution toggles, composing readings, resolver results and targets that close or are unbound, the keys the peer holds are exactly the tracked ones, each once, but for keys about which a message was lost |
| KeyboardLoop.NothingLostWhileLive | apps/tailkvm-ui/src-tauri/src/forwarding.rs:572-829 | Against a live target there are no such exceptions |
| KeyboardLoop.LeftHoldsNothingIff | apps/tailkvm-ui/src-tauri/src/forwarding.rs:813-829 | The exit leaves the peer without keys if and only if its drain gets through or nothing is tracked |
| KeyboardLoop.RunCoherent | apps/tailkvm-ui/src-tauri/src/forwarding.rs:611-813 | Over every run the capture window is open exactly in mode-on, and pass-through is on exactly then |
| KeyboardLoop.SilentWhileComposingIff | apps/tailkvm-ui/src-tauri/src/forwarding.rs:711-765 | During an open composition a key event sends nothing if and only if characters are being resolved |
| KeyboardLoop.StaysHeldIff | apps/tailkvm-ui/src-tauri/src/forwarding.rs:600-765 | When exactly the peer still holds a key after its key-up was handled |
| KeyboardLoop.StaysDown | apps/tailkvm-ui/src-tauri/src/forwarding.rs:580-765 | A key the peer holds stays down over every run in which no turn opens a composition, turns the mode on or forwards its key-up |
| KeyboardLoop.ShortcutStuck | apps/tailkvm-ui/src-tauri/src/forwarding.rs:711-765 | A reachable run: mode on, Ctrl and C down, Ctrl up, C up; the peer still holds C and it is still tracked |
| KeyboardLoop.GuardIsLastSeen | apps/tailkvm-ui/src-tauri/src/forwarding.rs:612-703 | The repeat guard is whether the last toggle-key event seen with resolution on was a key-down |
| KeyboardLoop.FlipsOnPressIff | apps/tailkvm-ui/src-tauri/src/forwarding.rs:612-703 | A toggle key-down handled with resolution on flips the mode exactly on a fresh press of its own key, if and only if the last toggle-key event handled and the last event of this key agree on whether a key is down |
| KeyboardLoop.FlipsWhileResolvingIff | apps/tailkvm-ui/src-tauri/src/forwarding.rs:612-703 | With resolution on throughout: if and only if the last event of any toggle key and the last event of this key agree |
| KeyboardLoop.OneFlipPerPress | apps/tailkvm-ui/src-tauri/src/forwarding.rs:618-622 | With resolution on and no other toggle key in use, one flip per physical press of the key despite auto-repeat |
| KeyboardLoop.PressLost | apps/tailkvm-ui/src-tauri/src/forwarding.rs:612-703 | A run in which turning resolution off around the key-up makes the next press do nothing |
| KeyboardLoop.SecondKeyIgnored | apps/tailkvm-ui/src-tauri/src/forwarding.rs:612-703 | A run in which a fresh press of a second toggle key does nothing because the first is still down |
| KeyboardLoop.RepeatFlips | apps/tailkvm-ui/src-tauri/src/forwarding.rs:612-703 | A run in which the key-up of a second toggle key lets an auto-repeat of the first one flip |
| KeyboardLoop.VanishedIff | apps/tailkvm-ui/src-tauri/src/forwarding.rs:409-425 | The thread gives up exactly if every turn for at least 3 s found no session behind its sender |
| KeyboardLoop.RunThread | apps/tailkvm-ui/src-tauri/src/forwarding.rs:405-829 | A whole thread is the run of the model, which `KeyboardSends` reads off the events, and then its drain: afterwards the peer holds no key but those about which a message was lost, and none at all if the target lived throughout; no window is open, pass-through is off unless a newer thread took over |
| KeyRouting.LettersAndDigits | crates/tailkvm-win32/src/key_class.rs:104-118 | Letters and digits type characters, unless Ctrl, Alt or Win is down |
| KeyboardSends.EventLaws | apps/tailkvm-ui/src-tauri/src/forwarding.rs:600-765 | With a live target: without resolution every event delivers exactly its own key message; with it and the mode off a physical key its key message, a printable key-down its text if it resolves and else its key message, a printable key-up its key message exactly if the key is tracked; with the mode on a physical key outside a composition, and nothing else |
| KeyboardSends.TurnHands | apps/tailkvm-ui/src-tauri/src/forwarding.rs:405-765 | A turn hands over the non-empty committed texts in order, the releases when a composition opens, and the messages of its event, to a live target, and loses exactly those otherwise |
| KeyboardSends.RunDelivers | apps/tailkvm-ui/src-tauri/src/forwarding.rs:405-765 | Over every run exactly that is delivered, turn by turn up to the one that stops the loop |
| KeyboardSends.PlainRun | apps/tailkvm-ui/src-tauri/src/forwarding.rs:756-790 | Without resolution a live peer gets exactly the non-empty committed texts and every key event as it came, in order |
| KeyboardSends.TurnToggles | apps/tailkvm-ui/src-tauri/src/forwarding.rs:612-703 | The mode after a turn: armed and composing follow the composition; the first key-down of a toggle key turns it off, or on if the capture window opens |
| KeyboardSends.TurnStopsIff | apps/tailkvm-ui/src-tauri/src/forwarding.rs:405-600 | When exactly a turn ends the loop, and why |
| KeyboardSends.SendFailsIff | apps/tailkvm-ui/src-tauri/src/forwarding.rs:766-790 | A closed session ends the loop exactly if the event has a message of its own; the releases of a toggle do not |
| Seamless.EveryPositionPlaced | apps/tailkvm-ui/src-tauri/src/seamless.rs:403-564 | Over every run each position sent - entry, move, keep-alive - is on a real peer monitor if one is known, otherwise inside the remote screen |
| Seamless.LessThanOnePixel | apps/tailkvm-ui/src-tauri/src/seamless.rs:470-488 | Over every run the applied integer deltas differ from gain times the raw deltas plus the starting carry by less than one pixel per axis |
| Seamless.RunConserves | apps/tailkvm-ui/src-tauri/src/seamless.rs:470-488 | Applied deltas plus the carry equal the scaled sum of the raw deltas |
| SeamlessTrack.StepSteers | apps/tailkvm-ui/src-tauri/src/seamless.rs:465-564 | A remote tick applies the whole pixels of what came, toward zero, and carries the fraction on; it returns exactly if the target is beyond the edge that was crossed, and otherwise moves to the pixel nearest to the target, put on the monitors; without a pixel it rests, and sends the position again after 100 ms |
| SeamlessTrack.MovesToTarget | apps/tailkvm-ui/src-tauri/src/seamless.rs:488-552 | If the position plus the applied deltas is on the remote screen, and on a monitor where one is known, exactly that point is sent |
| SeamlessTrack.StepEnters | apps/tailkvm-ui/src-tauri/src/seamless.rs:348-400 | A crossing enters the peer's screen, of the size it reported or as configured, at the place for where the cursor was, put on its monitors |
| SeamlessTrack.CursorTracks | apps/tailkvm-ui/src-tauri/src/seamless.rs:465-564 | Over every run on the remote screen in which nothing is cut, the position last sent is the entry point plus the applied deltas, within one pixel of gain times all raw deltas brought plus the starting fraction |
| SeamlessTrack.TracksSinceCrossing | apps/tailkvm-ui/src-tauri/src/seamless.rs:258-570 | The same from any crossing in a run from the start |
| SeamlessTrack.AllowedIff | apps/tailkvm-ui/src-tauri/src/seamless.rs:83-125 | Crossing is possible where the peer's screen abuts, or else at the configured edge of the attached monitor unless another monitor continues the desktop there |
| Seamless.CrossingEarned | apps/tailkvm-ui/src-tauri/src/seamless.rs:279-348 | A tick crosses exactly when it completes the dwell over the whole history; and then the edge is pressed, allowed and outside the dead corner, a push toward it is at most 250 ms old, the link is up, and in each of the last max(1, ceil(dwell/interval)) evaluated ticks the link was up and some edge was ready like that |
| Seamless.AbsoluteNeverCrosses | apps/tailkvm-ui/src-tauri/src/seamless.rs:279-348 | If only absolute reports come in, no run leaves the local screen or sends a position |
| Seamless.LinkLostIff | apps/tailkvm-ui/src-tauri/src/seamless.rs:432-463 | Control returns for a lost link exactly if the decisive looks at it have been bad for 1.5 s |
| Seamless.BouncedThoughAlive | apps/tailkvm-ui/src-tauri/src/seamless.rs:432-563 | A run from the start: one push across the edge, then the mouse rests; the link is missing for one look, and control comes back 1.5 s later although the link has been up since and a keep-alive got through |
| Seamless.Capture | apps/tailkvm-ui/src-tauri/src/seamless.rs:258-570 | A whole capture does what the run of the model does, which `SeamlessTrack` reads off the reports, and the positions sent are those of its effects |
| Router.StepOwnedIff | apps/tailkvm-ui/src-tauri/src/router.rs:213-456 | A tick keeps in order what is held if and only if the state before it is not about to enter the local screen: control home or coming home, an edge ready, the guard firing, and the link leading to the local screen itself |
| Router.RunOwnedIff | apps/tailkvm-ui/src-tauri/src/router.rs:203-487 | Over a run everything stays in order if and only if no tick is about to enter the local screen |
| Router.RunOwned | apps/tailkvm-ui/src-tauri/src/router.rs:203-487 | Over every run with reconfigurations, lost links and outside releases, in spaces without a self-link: under remote control the cursor is on the active screen, and whatever is held - hooks, confinement, anchor, bound slot, control - a remote screen is active; what must be held is the matter of `RouterGrip` |
| Router.EditedRunsOwned | apps/tailkvm-ui/src/features/layout-editor.ts:58-120 | So it is over every run in which all spaces have the links that an editor draws for distinct names |
| Router.SelfLinkBreaks | apps/tailkvm-ui/src-tauri/src/router.rs:304-347 | With any self-link of the local screen one push against that edge leaves hooks and confinement on the local screen |
| Router.TwinChainBreaks | apps/tailkvm-ui/src/features/layout-editor.ts:139-151 | The chain of two cards with the local name, which the editor accepts, makes it happen in one tick |
| Router.ComposingPassesIff | apps/tailkvm-ui/src-tauri/src/router.rs:229-404 | While a composition is open, control passes from one remote screen to another if and only if the active one is gone from the configuration and the tick is about to enter a remote one |
| Router.RunComposingIff | apps/tailkvm-ui/src-tauri/src/router.rs:203-487 | The same at every tick of every run |
| Router.ComposingPasses | apps/tailkvm-ui/src-tauri/src/router.rs:229-347 | A run of two ticks with one reconfiguration in which it does |
| Router.RunSentOnScreen | apps/tailkvm-ui/src-tauri/src/router.rs:298-480 | Over every run each position sent is on the screen then active, on a real monitor if one is known |
| Router.EnteringEarned | apps/tailkvm-ui/src-tauri/src/router.rs:250-347 | Entering needs the cursor at a linked edge outside the dead corner, a push toward it at most 250 ms old, and some edge ready like that in each of the last max(1, ceil(dwell/interval)) evaluated ticks |
| Router.LinkLostIff | apps/tailkvm-ui/src-tauri/src/router.rs:355-383 | The router gives a screen up exactly if every look at the then active session for at least 1.5 s since the last entry found none |
| RouterGrip.StepHolds | apps/tailkvm-ui/src-tauri/src/router.rs:229-480 | Per tick: entering or switching binds the session of the screen if it is live, and no other; entering takes control, anchor, and hooks and clip if they can be had; coming home drops everything; otherwise all stays but for what others took away |
| RouterGrip.BoundSince | apps/tailkvm-ui/src-tauri/src/router.rs:304-456 | Over every run, while a remote screen is active the slot is what was bound when it was entered or switched to |
| RouterGrip.HeldSinceEntry | apps/tailkvm-ui/src-tauri/src/router.rs:304-456 | Over every run, while a remote screen is active control, hooks and clip are what the last entry took, exactly as long as nothing took them away; the anchor as long as the local screen is known |
| RouterMoves.StepDrives | apps/tailkvm-ui/src-tauri/src/router.rs:384-480 | Per tick: where the deltas lead, on the screen, home or to another screen, and what is sent to a live session |
| RouterMoves.StepEnters | apps/tailkvm-ui/src-tauri/src/router.rs:304-347 | Entering puts the cursor at the place of entry for where it was, on the monitors there, and sends it to a live session |
| RouterMoves.TrackFromEntry | apps/tailkvm-ui/src-tauri/src/router.rs:304-480 | Over every run, from an entry or a switch on and as long as no target is cut, the cursor is the point sent then plus the deltas brought since, and that is what is sent |
| RouterMoves.FirstReadyIff | apps/tailkvm-ui/src-tauri/src/router.rs:274-283 | Of several ready edges the first counts, in the order right, left, top, bottom |
| RouterMoves.StopsIff | apps/tailkvm-ui/src-tauri/src/router.rs:213-271 | When the loop ends, and when it does nothing for want of a cursor position |
| Router.Route | apps/tailkvm-ui/src-tauri/src/router.rs:203-496 | A whole run has, tick by tick, the effects of the run of the model, which `RouterGrip` and `RouterMoves` read off its inputs; wherever it ends, nothing stays confined, hooked, published or under remote control |
| UdpMotion.AcceptsExactlyEncodings | crates/tailkvm-net/src/motion.rs:43-71 | Decoding accepts exactly the image of encoding, and is its inverse |
| UdpMotion.DecodeEncoded | crates/tailkvm-net/src/motion.rs:43-71 | Every datagram decodes back |
| UdpMotion.EncodeDecoded | crates/tailkvm-net/src/motion.rs:58-71 | Whatever is accepted is the encoding of what it is taken for |
| UdpMotion.Encode | crates/tailkvm-net/src/motion.rs:43-54 | Filling the buffer field by field yields the frame |
| UdpMotion.EncodedBytes | crates/tailkvm-net/src/motion.rs:43-54 | The frame byte by byte: number, tag and two coordinates in two's complement, low byte first |
| UdpMotion.AcceptedIffRecord | crates/tailkvm-net/src/motion.rs:108-116 | A number is accepted exactly if it is a strict maximum of all delivered so far |
| UdpMotion.AppliedInOrder | crates/tailkvm-net/src/motion.rs:93-116 | None is applied twice or after a newer one, and the newest is applied last |
| UdpMotion.NewestWins | crates/tailkvm-net/src/motion.rs:75-116 | Under any loss, duplication and reordering, with absolute positions the cursor ends at the one with the greatest number delivered |
| UdpMotion.CursorTravels | crates/tailkvm-net/src/motion.rs:24-32 | Behind an absolute position the cursor is that position plus the relative motion applied since |
| UdpMotion.GenuineAre | crates/tailkvm-net/src/motion.rs:58-71 | Frames are taken for what they are, and a packet that is none is passed over |
| UdpMotion.WrappedIsStuck | crates/tailkvm-net/src/motion.rs:86-116 | After the counter wraps, every number up to one delivered before is refused; all of them if the last before the wrap was delivered |
| UdpMotion.SendAll | crates/tailkvm-net/src/motion.rs:75-90 | The sender numbers and frames every motion decodably |
| UdpMotion.ReceiveAll | crates/tailkvm-net/src/motion.rs:58-116 | The receiver applies the accepted datagrams among arbitrary packets in order of arrival |
| ClipboardAccounts.RunAccounted | apps/tailkvm-ui/src-tauri/src/clipboard_sync.rs:219-249 | For every hash and every interleaving of copies, reads, checks, marks, sets, relays, failures and losses: every broadcast made or owed is paid for by a copy, an interposed check or an overtaken content; every application by a broadcast; every notice, check and set by what causes it |
| ClipboardAccounts.BroadcastsBounded | apps/tailkvm-ui/src-tauri/src/clipboard_sync.rs:115-249 | Broadcasts never exceed copies plus interposed checks plus overtaken contents, applications are at most one per client and broadcast, and the length of the run is bounded by both |
| ClipboardAccounts.NeverLoops | apps/tailkvm-ui/src-tauri/src/clipboard_sync.rs:219-249 | Without interposed checks and overtaken contents: at most one broadcast per copy, one application per client and copy, and no run longer than four times screens times copies |
| ClipboardAccounts.LockedNeverLoops | crates/tailkvm-win32/src/clipboard.rs:58-102 | Holding a lock over mark and set and over read and check, with every set succeeding, would be enough: then there are no interposed checks or overtaken contents in any run |
| ClipboardEchoes.EchoesForever | apps/tailkvm-ui/src-tauri/src/session/controller.rs:271-283 | As the code is, two copies can go back and forth for ever with one client, in order and without loss or failure. Through the window between read and check that happens even if every mark is directly followed by its set, and through the one between mark and set even if every read is directly followed by its check, so neither lock alone would do; the bound on broadcasts is attained |
| Clipboard.EchoedIff | crates/tailkvm-win32/src/clipboard.rs:58-102 | A notice of remembered content, read before or after a mark, is broadcast if and only if there is text and the marked content hashes differently |
| Clipboard.NormalIs | apps/tailkvm-ui/src-tauri/src/clipboard_sync.rs:229-233 | Text is cut to its first 100,000 characters; an image is sent whole |
| ClipboardAgreement.OneCopyReachesAll | apps/tailkvm-ui/src-tauri/src/session/controller.rs:271-283 | One copy that is news to its screen, made with all sessions up when nothing but notices of that screen is outstanding, reaches every screen however the moves interleave: every run is bounded, some move is possible until the star has settled, and then all hold and remember the content |
| ClipboardAgreement.LastCopyWins | apps/tailkvm-ui/src-tauri/src/session/controller.rs:271-283 | After any number of copies, each told apart from the one before and made at a settled star, all screens hold the last |
| ClipboardAgreement.CrossedDisagree | apps/tailkvm-ui/src-tauri/src/session/controller.rs:271-283 | If a client copies while content that is told apart is on its way to it, some run in order and without loss settles without agreement |
| ClipboardAgreement.HubCrossedDisagree | apps/tailkvm-ui/src-tauri/src/session/controller.rs:271-283 | The same if the hub copies while a message from a client is on its way to it |
| ClipboardAgreement.TwoCopiesAtOnceDisagree | apps/tailkvm-ui/src-tauri/src/session/controller.rs:271-283 | Two clients that copy at once can settle with each other's text, in order and without loss |
| ClipboardHolds.HoldsWhatItWasGiven | apps/tailkvm-ui/src-tauri/src/session/controller.rs:271-283 | Over every run from a settled star, lossy or not: each session applies at most one message at a time, the last it took in, and each clipboard holds what was last copied there or what the session that set it last had taken in |
| Clipboard.FanOutReaches | apps/tailkvm-ui/src-tauri/src/clipboard_sync.rs:115-171 | The loop over the sessions reaches every live one but the origin, and no other |
| Clipboard.SendToSessions | apps/tailkvm-ui/src-tauri/src/clipboard_sync.rs:115-171 | The loop sends to those sessions and counts them |
| Clipboard.Broadcast | apps/tailkvm-ui/src-tauri/src/clipboard_sync.rs:115-145 | A broadcast reaches every live session once and each open unnamed channel once, and counts them |

## Left out

- Win32 calls, Tauri commands, the tray, the DOM, the Tailscale client: only their effect on the modelled state is kept (keys down, cursor, confinement, clipboard content).
- JSON, UTF-8 and base64 are not modelled; the codec is a parameter with the facts the framing relies on (section 7 of RFC 8259 for control characters), and an instance exists.
- Floating-point rounding and 32-bit overflow: quotients, gain and carry are real numbers, coordinates and sums of deltas are unbounded integers; saturating additions of deltas never saturate here.
- Times are whole milliseconds read once per tick; the original reads its clock several times.
- HeldInput.OsButtonOf: trims and lower-cases ASCII only, where the original uses the Unicode functions; other characters are in no supported name.
- Receiver.RunSession: assumes that the exit drain itself succeeds in injecting. Sending notices, keyboard layout, screen information and replies is reduced to whether the write succeeded.
- KeyboardLoop.PeerHoldsTracked: a target is live, closed or unbound during a whole turn, and messages to the one or the other peer of a swapped target are not told apart.
- KeyboardLoop.RunThread: the check of the generation and the clearing that follows are one step, which the original does not guarantee. Health markers of the hook, the anchor of the capture window and status texts are left out; losing the hook ends the thread or has no effect.
- Seamless.Capture: hooks, confinement, the anchor and the control flag of the seamless loop follow `remote` and are not separate fields; the router models them.
- Router.Route: keys held on the old screen across a switch between remote screens are not released by the code, and the model says nothing about them. The anchor is reduced to whether one is published, and a bound sender to the name of its session.
- UdpMotion.ReceiveAll: the check of the peer address is left out; packets are those that passed it.
- ClipboardAccounts.NeverLoops: manual sends, the size caps of images, and unnamed channels of the hub or further sessions of clients, which lead out of the star, are left out. A clipboard that cannot be read counts as a notice without effect. Setting and relaying at the hub are one move; in the original another session can come between.
- Ownership of the outbound slots across overlapping sessions, which are cleared unconditionally.
- Reconnect backoff, protocol version notes, edge labels, status strings, firewall rules: easy facts only.
- Legacy warp capture and its geometry, and the legacy remote mode.
- The mouse forwarding loop, whose held buttons are tracked like those of the receiver.
