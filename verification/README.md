# keyd, verified

A model of keyd's key-processing engine and of the parsers and the USB output beside it, with
proofs of what they promise. keyd reads key events, maps them through layers and sends the
result to a virtual keyboard. The engine is one mutable structure driven by timestamped press
and release events and by ticks it makes up itself; it contains a 16-slot descriptor cache,
layer activation counters, a chord recogniser and a tap-hold resolver with a queue each, both
replayed recursively, a timer list, and the state of every output key.

## How it is built

* `keys.dfy`, `config.dfy`, `state.dfy`: codes, the configuration and the state as values.
* `output.dfy`, `macros.dfy`, `layers.dfy`, `cache.dfy`, `actions.dfy`, `events.dfy`,
  `pending.dfy`, `machine.dfy`: what each operation does to the state, as functions. The
  functions of `machine.dfy` are mutually recursive like the source's; that they are accepted is
  the proof that the engine terminates on every input.
* `keyboard.dfy`: class `Keyboard`, the engine as the source has it: arrays and fields, loops,
  in-place updates, re-entrant calls. Every method is proved to compute the function of the same
  meaning, so whatever is proved about the functions holds of the object.
* `effects.dfy`: what each action does, in terms of keys, layers and deadlines.
* `actionlaws.dfy`, `corelaws.dfy`, `runlaws.dfy`, `lookuplaws.dfy`: what actions, events and
  the recursion keep. `taps.dfy`: what the tap of an action leaves behind. `streams.dfy` and
  `ledger.dfy`: where every event is, and in which order.
* `runs.dfy`, `deadlines.dfy`: the promises over whole runs, from the state of a new keyboard
  through any calls of kbd_process_events. `Runs.Reached` says that a state is the end of such a
  run.
* `latehold.dfy`, `layerleak.dfy`, `forgottendeadline.dfy`, `lostorder.dfy`, `stalemark.dfy`:
  whole runs in which the engine does not do what one might expect, put together from the single
  steps of `steps.dfy`.
* `strings.dfy`, `calls.dfy`, `macroparser.dfy`, `descriptorparser.dfy`, `layerparser.dfy`: the
  parsers that build a configuration.
* `gadget.dfy`: the report of the USB gadget output, the keyboard boot report of Appendix B.1 of
  the USB HID 1.11 class definition.

`dafny verify dfyconfig.toml --resource-limit 2000000 --verification-time-limit 0` checks
everything.

## Reading the results

* The assertions of the source are part of the model. `overflow` records that one on a fixed
  capacity failed (two queues of 32 events, 128 timers, three active chords), after which the
  process is gone and the promises say nothing; `underflow` records that deactivate_layer's
  failed.
* `strayed` records that a swap() went astray: it took the activation of a key that is marked
  with the current layer but does not hold it. `Runs.LayersPaid` proves that the assertion of
  deactivate_layer does not fail before one did.
* Some promises are for a restricted class of configurations, told by their actions alone
  (`Configs.OfClass`): `SwapFree` without swap() and swapm(); `Undelayed` without overloadt() and
  overloadt2(); `Steady` without swap(), swapm(), overloadi() and timeout(); `Marked` without
  toggle(), togglem(), overloadi() and timeout(); `Simple` with key sequences, layer() and
  overload() of a layer and a key sequence only; `Timed` without timeouts of 0. `ChordFree`
  configurations have no chords. All other promises are for every configuration the parser can
  build.
* Calls are assumed to come in time: no event is later than the last of its call, and no call is
  earlier than the one before.
* The record `Log` of a run is read by no operation. `late` is how long after the interkey
  timeout the tick came that ended the disambiguation of a chord, and 0 if none was needed.

## Where the code does less than one might expect

| expectation | a run that refutes it | when it holds |
|---|---|---|
| A matched chord is resolved the hold timeout after its last key | `LateHold.HoldDeadlineMissed`: its deadline is set from the tick that ends a disambiguation (src/keyboard.c:1009-1011), though the comparison is with the last key (src/keyboard.c:1055) | if and only if that tick was on time or something else is due in between: `Deadlines.HoldDueInTime`; always for an unambiguous match: `Deadlines.HoldStarts` |
| A layer is active exactly as often as its toggle, its oneshots and the held keys explain | `LayerLeak.LayerLeaks`: a tapped overloadi() presses what its release does not release | for a tap, if and only if what it leaves pressed holds no layer: `Taps.TapLeaks`, `Taps.TimeoutTapLeaks`; for a swap(), if and only if `ActionLaws.SwapAccounts` adds nothing to the account of a layer; in every run of a steady configuration: `Runs.LayersPaidExactly`; at least so often until a swap() goes astray: `Runs.LayersPaid` |
| deactivate_layer's assertion holds | `StaleMark.AssertionFails`: swap takes a slot whose mark is out of date | in every run in which no swap() went astray: `Runs.LayersPaid`; a swap() goes astray if and only if it moves no toggle and no oneshot and the slot it picks is bound to an action that does not hold the current layer: `ActionLaws.SwapEarns`; never without swap() and swapm(), nor without toggle(), togglem(), overloadi() and timeout() |
| What is due has happened when a call returns | `ForgottenDeadline.DeadlineForgotten`: a replay at an older time makes something due that the list has dropped when the call returns | for an event that gets through, if and only if no overload past its time is pending, or the event is a release that taps an overloadt(): `Deadlines.PassedServes`; for one that is held back, if and only if neither the oneshots nor the macro were due: `Deadlines.HeldBackServes`; in every run without chords, overloadt(), overloadt2() and timeouts of 0: `Deadlines.NothingOverdue` |
| Presses leave in the order they came in | `LostOrder.OrderLost`: chords and an overload pending together | in every run without chords: `Runs.OrderKept`; in every run without overloadt() and overloadt2(): `Runs.PressesInOrder`, `Runs.KeysInOrder` |
| chord_event_match compares sets of keys | `LookupLaws.RepeatedPressMatches`: a key pressed twice counts as two | for distinct codes: `LookupLaws.MatchComparesSets` |
| A hold group releases the keys it holds and no others | `Macros.TimesRelease`: a time in the group sends the release of the code equal to its low byte | a key the group does not mention, by a time or a key, keeps its state: `Macros.ClosedMacroEffect` |

## Model

| member | source | states |
|---|---|---|
| `Runs.OutputAlternates` | src/keyboard.c:59-89 | In every run the strokes of every key code alternate down, up, down, up, starting with down; the engine's key state is the last stroke sent; noop and external-mouse-button codes are never sent |
| `Runs.OneLayout` | src/keyboard.c:445-464 | In every run main is active exactly once, every layout at most once, and at most one layout besides main is active |
| `Runs.LayersPaid` | src/keyboard.c:256-264 | In every run in which no swap() went astray, every layer that is no layout is active at least once for its toggle, once for each armed oneshot and once for each held key whose release will deactivate it, and the assertion of deactivate_layer has not failed; none goes astray in a configuration without swap() and swapm(), nor in one without toggle(), togglem(), overloadi() and timeout() |
| `Runs.LayersPaidExactly` | src/keyboard.c:256-264 | Without swap(), swapm(), overloadi() and timeout() it is active exactly so often |
| `Runs.CacheIsMap` | src/keyboard.c:22-57 | In every run the cache has 16 slots and no code occupies two of them |
| `Runs.NothingLost` | src/keyboard.c:1107-1176 | In every run that exceeds no fixed capacity, the settled events, the events the pending overload holds back and the events the chord recogniser holds back are together exactly the input and the synthetic chord events, as multisets; with nothing pending, every event is settled |
| `Runs.OrderKept` | src/keyboard.c:1107-1176 | In every run without chords, for each key and for all presses together, the events that got through followed by those held back are exactly the input's, in order, through every recursive replay; with no overload pending, those that got through are |
| `Runs.PressesInOrder` | src/keyboard.c:893-1075 | In every run without overloadt() and overloadt2(), the presses that were settled, synthetic ones left out, followed by those the chord recogniser holds back are exactly the input's presses, in order |
| `Runs.KeysInOrder` | src/keyboard.c:893-1075 | The same for all events of each key, if every key is pressed and released in turn: no release of a key of an active chord overtakes an event of its key |
| `Runs.ChordCodesTakeTurns` | src/keyboard.c:893-973 | In every run the synthetic events of a chord code are a press, a release, a press, ...; the last is a press exactly while the chord is active, and an active chord still has a held key |
| `Runs.MatchIsPrefix` | src/keyboard.c:893-928 | In every run, while a matched chord is pending, the first queued events, one for each key of the chord, are presses of its keys; if their codes are distinct they are exactly the chord's key set |
| `Deadlines.NoDeadlineMissed` | src/keyboard.c:473-489 | After any call of kbd_process_events ending at time T in any run, for every live deadline D > T the returned timeout is positive and at most D - T: a pending overload, timeout or oneshot, the repetition of a macro, a chord that is disambiguated (the interkey timeout after its last key) or waits to be held (the hold timeout after its last key, plus what the tick that ended a disambiguation was late) |
| `Deadlines.HoldDueInTime` | src/keyboard.c:1005-1015 | After the tick that ends the disambiguation of a match, the returned timeout reaches to when the chord is due if and only if the tick came exactly the interkey timeout after the last key, or something else is due in between |
| `LateHold.HoldDeadlineMissed` | src/keyboard.c:1005-1015 | With a late tick it does not: j at 0 and k at 10 match j+k and begin j+k+l, the tick comes at 61, the chord is due at 210, and the timeout is more than 149 |
| `Deadlines.PassedServes` | src/keyboard.c:1119-1130 | Without timeouts of 0, an event that gets through leaves nothing overdue but a pending overload past its time, and this if and only if the event, which is then the release of another key, taps no overloadt() |
| `Deadlines.HeldBackServes` | src/keyboard.c:1107-1176 | Without timeouts of 0, an event that a pending overload keeps without being resolved leaves overdue exactly the expiry of the oneshots and the repetition of the macro, if they were due when handle_pending_timeout was done |
| `Deadlines.NothingOverdue` | src/keyboard.c:1254-1274 | In every run without chords, overloadt(), overloadt2() and timeouts of 0, no deadline is overdue when a call returns |
| `Deadlines.ActArms` | src/keyboard.c:491-851 | Without timeouts of 0, process_descriptor makes nothing due that is not to come |
| `ForgottenDeadline.DeadlineForgotten` | src/keyboard.c:1150-1173 | A flush can leave a deadline overdue: the press of a timeout() that a tick replays at an older time is due before the tick, is in no list, and the returned timeout says that nothing is due |
| `Taps.TapLeaks` | src/keyboard.c:671-679 | From a state whose layers pay for their toggles and oneshots, the tap of any action that does not come down to a swap() changes the account of a layer by what it leaves pressed: what an overloadi() ran, if it comes down to one, and nothing else; the accounts stay as they were if and only if this holds no layer |
| `Taps.TimeoutTapLeaks` | src/keyboard.c:1084-1091 | The same for the tap of a pending timeout() |
| `Taps.TapDelays` | src/keyboard.c:671-679 | The tap of any action begins an overload, due its timeout later, if and only if it comes down to an overloadt() or overloadt2(); otherwise the one that was pending stays so |
| `LayerLeak.LayerLeaks` | src/keyboard.c:653-682 | One press and release of such a key leaves a layer active while nothing is held, toggled or armed |
| `Runs.NothingHeldNothingDown` | src/keyboard.c:521-550 | With key sequences, layer() and overload() of a layer and a key sequence only: in every run, whenever the cache is empty, every output key including all modifiers is up and every layer that is no layout is inactive |
| `Runs.AllReleasedAllUp` | src/keyboard.c:1216-1246 | The same, without chords, in terms of the input: if the last event of every key was its release, every output key is up and every layer that is no layout is inactive |
| `Runs.StartKeeps` | src/keyboard.c:853-891 | The state new_keyboard builds satisfies the whole invariant |
| `Runs.RunKeeps` | src/keyboard.c:1254-1274 | Every sequence of calls in time keeps the invariant and accounts for all of its key events |
| `Runs.ReachedNext` | src/keyboard.c:1254-1274 | A further call in time leads from a reached state to a reached state |
| `Deadlines.ProcessEventsRests` | src/keyboard.c:1254-1274 | What kbd_process_events returns is the time from its last event to the earliest deadline in the timer list, 0 if the list is empty, and the list holds no passed deadline |
| `LostOrder.OrderLost` | src/keyboard.c:1107-1176 | With chords and an overload pending together the order does not survive: a press that waited behind the overload is replayed behind a newer one that had begun a chord |
| `StaleMark.AssertionFails` | src/keyboard.c:809-829 | With swap() the assertion of deactivate_layer can fail: a held toggle key still carries the mark of a layer it no longer holds, swap takes it for the holder, and the release of the real one gives up an activation that is gone |
| `ActionLaws.SwapAccounts` | src/keyboard.c:794-829 | Moving a toggle changes no account of a layer, unless the new layer is toggled already and keeps an activation too many; moving an armed oneshot changes none; moving the activation of a held key takes one from the current layer and leaves one over where the key held it; the assertion fails exactly if a slot is picked while the current layer is not active |
| `ActionLaws.SwapEarns` | src/keyboard.c:794-829 | From a state that can pay for all releases, swap() leads to one if and only if it does not go astray: it moves a toggle, an armed oneshot or nothing, or the slot it picks is bound to an action that holds the current layer |
| `ActionLaws.SwapHonest` | src/keyboard.c:809-829 | Where every held key that is marked with a layer holds it, swap() does not go astray, and leaves it so |
| `RunLaws.ProcessEventsKeeps` | src/keyboard.c:1254-1274 | From any state that satisfies the invariant, with no event later than `now`, kbd_process_events keeps the invariant and neither loses nor duplicates an event |
| `RunLaws.ProcessEventKeeps` | src/keyboard.c:1185-1251 | process_event keeps the invariant and accounts for its event |
| `RunLaws.HandleChordKeeps` | src/keyboard.c:936-1075 | handle_chord keeps the invariant; an event it takes is settled or queued, one it lets through leaves the accounts as they were |
| `RunLaws.OverloadKeepsInv` | src/keyboard.c:1107-1176 | handle_pending_overload keeps the invariant and accounts for an event it takes; while it is pending it lets through releases only, and only of keys that no queued event belongs to |
| `Ledger.UnqueueAccounts` | src/keyboard.c:1150-1173 | Replaying the copy of the overload queue accounts for every event of the queue exactly once |
| `RunLaws.ResolveKeeps` | src/keyboard.c:893-928 | resolve_chord keeps the invariant and accounts for the buffered events, each once and, where no event is delayed by an overload, in order: those of a match are settled by one synthetic press, the rest is replayed; an abort replays everything |
| `Ledger.ReplayAccounts` | src/keyboard.c:893-928 | A buffer whose matched prefix is settled by a synthetic press and whose rest is replayed is accounted for exactly once |
| `Ledger.OrderedReplay` | src/keyboard.c:893-928 | Presses stay in order through a resolution, and so do the events of each key if it is pressed and released in turn |
| `Ledger.OrderedRelease` | src/keyboard.c:943-973 | The release of a key of an active chord, which overtakes the buffer, overtakes no press and no event of its key |
| `Ledger.PrefixGripped` | src/keyboard.c:893-928 | If keys are pressed and released in turn, the prefix that a match settles presses every key of the chord, and these presses are the last settled events of their keys |
| `RunLaws.ReleaseStep` | src/keyboard.c:943-973 | A release of a chord's key keeps the invariant and makes a synthetic release if and only if no key of the chord is held any more |
| `RunLaws.PressStep` | src/keyboard.c:900-920 | The press of a chord in a free slot keeps the invariant; its synthetic press is the first of its code or follows a release |
| `RunLaws.AwaitKeeps` | src/keyboard.c:983-1051 | When the recogniser starts to wait, the invariant is kept and its deadline is in the timer list, unless the list is full |
| `RunLaws.ExitKeeps` | src/keyboard.c:473-489 | Pruning the timer list at a time up to `now` drops no live deadline after `now` |
| `RunLaws.DispatchKeeps` | src/keyboard.c:1199-1246 | An event that gets through keeps the invariant and is accounted for: without chords it joins the end of every view of the stream that shows it |
| `CoreLaws.DispatchPressKeeps` | src/keyboard.c:1220-1233 | A press keeps all invariants of the core state and binds no other key; with simple actions, every key that is down is still explained by a held key |
| `CoreLaws.DispatchReleaseKeeps` | src/keyboard.c:1234-1245 | A release keeps all invariants of the core state and unbinds its key |
| `CoreLaws.PendingTimeoutKeeps` | src/keyboard.c:1077-1105 | handle_pending_timeout keeps the output alternating, layouts single, deadlines listed and layers paid; with simple actions it changes nothing |
| `CoreLaws.ResolveOverloadKeeps` | src/keyboard.c:1156-1169 | Binding the pending key to the action it resolves to keeps the output alternating, layouts single, deadlines listed and layers paid |
| `CoreLaws.ExpireOneshotsKeeps` | src/keyboard.c:1199-1202 | The expiry of oneshots keeps all invariants of the core state; with simple actions it changes nothing |
| `Effects.OneshotsExpire` | src/keyboard.c:1199-1202 | When the armed oneshots expire, every one is disarmed, exactly their activations are given back, and the modifiers are those of the layers left |
| `CoreLaws.RepeatMacroKeeps` | src/keyboard.c:1204-1214 | Ending or repeating the active macro keeps the invariants, the next repetition's deadline included |
| `ActionLaws.ActKeeps` | src/keyboard.c:491-851 | Whatever the action and the state, process_descriptor keeps the output alternating, the layouts single, every live deadline in the timer list and every code in its slot; without swaps a press earns the activation its release will cost and a release costs no more; for steady configurations exactly; a simple action presses no visible key but that of its key sequence, and leaves timers, bindings and pending actions alone |
| `ActionLaws.UpdateModsReachesTarget` | src/keyboard.c:135-166 | After update_mods a modifier key is down if and only if its mask is requested or belongs to an active, not excluded layer (an excluded composite layer excludes its constituents); no other key's state changes |
| `ActionLaws.UpdateModsGuarded` | src/keyboard.c:135-166 | With the guard on, every release of alt, altgr or meta that update_mods sends happens with control down or after another key was pressed |
| `ActionLaws.ExecuteMacroKeeps` | src/keyboard.c:168-187 | execute_macro keeps the output alternating, leaves the modifiers of the active layers down, and presses no other key for good if the macro leaves no hold group open |
| `Effects.KeySequencePlays` | src/keyboard.c:521-550 | The press of a key sequence leaves its visible key down, with exactly its modifiers and those of the active layers but its own among the other modifiers, and disarms the oneshots; its release leaves the key up, unless it is a modifier, changes no layer and leaves the modifiers of the active layers; no other key changes |
| `Effects.LayerSwitches` | src/keyboard.c:614-632 | layer() and layerm() activate their layer once more at the press and once less at the release, touch no other layer, and leave the modifiers of the active layers |
| `Effects.OneshotHandsOver` | src/keyboard.c:683-711 | oneshot() and oneshotm() activate their layer at the press; at the release the activation becomes an armed oneshot, with a listed deadline if there is a timeout, or is given up if another key was pressed meanwhile |
| `Effects.ToggleFlips` | src/keyboard.c:742-758 | toggle() and togglem() flip the toggle of their layer and no other, disarm the oneshots, and leave every layer as often active beyond toggles and oneshots as before; the release changes no layer |
| `ActionLaws.OverloadKeeps` | src/keyboard.c:653-682 | overload() gives up the activation of its press at its release; its tap leaves the layers able to pay what they could pay before |
| `Effects.IdleRebinds` | src/keyboard.c:571-589 | overloadi() binds its key to the action it ran, the second exactly if no simple key was struck for its timeout, and leaves every code in its slot |
| `Effects.RepeatRebinds` | src/keyboard.c:640-648 | repeat() does to output and layers what the remembered action does and binds its key to what is remembered afterwards |
| `Effects.ClearReleasesAll` | src/keyboard.c:425-443 | clear() and clearm() take every toggle and oneshot away with exactly the activations they stand for, and end the macro; clear() releases every key, and after clearm() with a closed macro no visible key but modifiers of active layers is down |
| `Effects.LayoutSwitches` | src/keyboard.c:445-464 | setlayout() makes its layout the current and, besides main, only one, takes toggles and oneshots away like clear(), and releases every key |
| `Effects.SwapLeavesLayouts` | src/keyboard.c:785-845 | swap() and swapm() leave the state of every layout and the current one as they were, and every code in its slot |
| `Effects.MacroStarts` | src/keyboard.c:712-741 | macro() and macro2() disarm the oneshots, make their macro the active one and the one to repeat, and list when it is repeated; their release changes nothing |
| `Layers.ClearOneshotKeeps` | src/keyboard.c:411-423 | clear_oneshot disarms every oneshot, gives back exactly their activations and leaves layouts and toggles alone |
| `Layers.ClearTogglesKeeps` | src/keyboard.c:425-438 | The loop of clear() untoggles every layer below its index and gives back exactly those activations |
| `Layers.SetLayoutKeeps` | src/keyboard.c:445-464 | setlayout makes its layout the only one besides main and touches no other layer |
| `Layers.ToggleKeeps` | src/keyboard.c:742-751 | Flipping a toggle leaves the activations not accounted for by toggles and oneshots as they were |
| `Layers.ReleaseOneshotKeeps` | src/keyboard.c:698-708 | The release of a oneshot key costs its layer exactly the activation of the press |
| `Layers.ActiveModsMeaning` | src/keyboard.c:142-161 | A mask is collected if and only if some active, not excluded layer has it |
| `Output.SetModsReachesTarget` | src/keyboard.c:116-132 | set_mods leaves a modifier key down if and only if its mask is requested, and no other key changes, despite the interposed control taps |
| `Output.SetModsGuarded` | src/keyboard.c:91-132 | With the guard on, every release of alt, altgr or meta that set_mods sends happens with control down or after another key was pressed |
| `Output.SendKeepsOutput` | src/keyboard.c:72-84 | send_key keeps every key's strokes alternating and its recorded state equal to the last one |
| `Output.ResetKeysReleases` | src/keyboard.c:59-70 | reset_keystate releases every key and keeps the strokes alternating |
| `Cache.PutRefinesUpdate` | src/keyboard.c:22-46 | cache_set with an entry updates the partial map at its code and nowhere else; it fails, changing nothing, if and only if the code is absent and no slot is free |
| `Cache.RemoveRefinesRemoval` | src/keyboard.c:22-46 | cache_set without an entry removes its code and nothing else |
| `Cache.RebindRefinesUpdate` | src/keyboard.c:582-587 | Rebinding a key, by overloadi and repeat, changes the partial map at its code only, and there the action only |
| `Cache.MarkLayerRefinesUpdate` | src/keyboard.c:271-283 | activate_layer changes the partial map at its code only, and there the mark only |
| `Cache.SwapEditRebinds` | src/keyboard.c:820-825 | The edit swap makes to the slot it picked is the rebinding of that key |
| `LookupLaws.LookupFindsBinding` | src/keyboard.c:189-254 | lookup_descriptor finds the binding of a fully active composite layer with the most constituents, the lowest index on ties; else that of the active layer with the latest activation time, the highest index on ties; else the key itself in layer 0 |
| `LookupLaws.MatchComparesSets` | src/keyboard.c:290-318 | With distinct pressed codes and distinct chord keys, chord_event_match is 2 if and only if the pressed set equals the chord's key set and 1 if and only if it is a non-empty proper subset |
| `LookupLaws.RepeatedPressMatches` | src/keyboard.c:290-318 | Without distinct codes it does not compare sets: a key pressed twice counts as two |
| `LookupLaws.ChordMatchChecked` | src/keyboard.c:340-378 | check_chord_match reports a full match if and only if some chord of an active layer matches in full, a partial one likewise, and picks a full match of the layer activated last, the highest index on ties |
| `Events.CheckChordMatchOk` | src/keyboard.c:340-378 | A full match of a queue of presses is a chord of the configuration with one key for each event, each event a press of one of its keys; without one the recogniser keeps what it had |
| `Events.FirstMatch` | src/keyboard.c:978-986 | Only a press starts a chord |
| `Events.Minimum` | src/keyboard.c:479-485 | The returned deadline is the least of the list |
| `Events.Later` | src/keyboard.c:479-487 | Exactly the deadlines after the given time stay in the list |
| `Machine.ProcessEvents` | src/keyboard.c:1254-1274 | The loop terminates on every batch, by an order on the chord state, the events taken in but not settled, the nesting of pending actions and the time left for ticks; while a chord is being resolved the chord queue stays untouched |
| `Machine.ProcessEvent` | src/keyboard.c:1185-1251 | process_event takes in at most its own event; if it settles none, no more nesting is pending than before |
| `Machine.HandlePendingOverload` | src/keyboard.c:1107-1176 | The replay from the copied queue terminates: each resolution leaves less nesting pending |
| `Machine.ResolveChord` | src/keyboard.c:893-928 | The replay of the chord queue terminates, and afterwards the recogniser is not resolving |
| `Machine.HandleChord` | src/keyboard.c:936-1075 | handle_chord terminates; the release of a chord's last key re-enters process_event with fewer chord keys held |
| `Machine.StrikeLowers` | src/keyboard.c:953-961 | Releasing a key of a chord lowers the number of its keys still held |
| `Pending.HandlePendingTimeout` | src/keyboard.c:1077-1105 | A pending timeout leaves no more nesting pending than before, a pending overload stays pending, and timers are only added |
| `Pending.ResolveOverload` | src/keyboard.c:1156-1169 | Resolving a pending overload leaves strictly less nesting pending |
| `Actions.Act` | src/keyboard.c:491-851 | process_descriptor, which calls itself through overload, overloadi, oneshotk and repeat, terminates on every well-formed configuration, leaves no deeper nesting pending than its action, and only adds timers |
| `Engine.Keyboard.constructor` | src/keyboard.c:853-891 | new_keyboard builds the start state, which is reached by the empty run |
| `Engine.Keyboard.HandleEvents` | src/keyboard.c:1254-1274 | A call from outside takes the object from a reached state to a reached state, so every promise about runs holds of the object for as long as it lives |
| `Engine.Keyboard.KbdProcessEvents` | src/keyboard.c:1254-1274 | The loop computes the recursive specification, also on events that lie in the chord queue itself; they are unchanged at the end |
| `Engine.Keyboard.ProcessOne` | src/keyboard.c:1254-1274 | One turn leaves the batch as it is, even if it lies in the chord queue |
| `Engine.Keyboard.ProcessEvent` | src/keyboard.c:1185-1251 | New state and returned timeout are those of the specification |
| `Engine.Keyboard.PassChord` | src/keyboard.c:1193-1246 | The steps after the chord handler, in their order |
| `Engine.Keyboard.Dispatch` | src/keyboard.c:1199-1246 | Expiry, macro and key event in their order, with the event recorded as passed and settled |
| `Engine.Keyboard.PressKey` | src/keyboard.c:1220-1233 | Ignores a key that is cached or finds no slot; otherwise binds it, then acts |
| `Engine.Keyboard.ReleaseKey` | src/keyboard.c:1234-1245 | Unbinds the key and acts with the action of its press |
| `Engine.Keyboard.ExpireOneshots` | src/keyboard.c:1199-1202 | The state of the specification |
| `Engine.Keyboard.RepeatMacro` | src/keyboard.c:1204-1214 | The state of the specification |
| `Engine.Keyboard.HandleChord` | src/keyboard.c:936-1075 | The new state is the specification's, and so is whether the event was taken |
| `Engine.Keyboard.ReleaseFromChord` | src/keyboard.c:943-973 | Takes a release exactly if an active chord holds the key |
| `Engine.Keyboard.StrikeChords` | src/keyboard.c:944-971 | Strikes the key from the first active chord that holds it, in place, and counts the keys left |
| `Engine.Keyboard.StartChord` | src/keyboard.c:978-1004 | The inactive state's branch |
| `Engine.Keyboard.ExtendChord` | src/keyboard.c:1026-1052 | The disambiguation state's branch on a key event |
| `Engine.Keyboard.DisambiguationTick` | src/keyboard.c:1006-1024 | The disambiguation state's branch on a tick |
| `Engine.Keyboard.HoldChord` | src/keyboard.c:1053-1071 | The hold state's branch |
| `Engine.Keyboard.MatchChord` | src/keyboard.c:984-1003 | What follows a partial, ambiguous or unambiguous match |
| `Engine.Keyboard.ResolveChord` | src/keyboard.c:893-928 | Claims the first free chord, presses its code and replays the rest of the queue in place |
| `Engine.Keyboard.ReplayQueue` | src/keyboard.c:923-927 | Replays the chord queue from an offset without changing it |
| `Engine.Keyboard.PressChord` | src/keyboard.c:904-919 | Activates the chord and sends its code's press at the time of its last key |
| `Engine.Keyboard.EnqueueChordEvent` | src/keyboard.c:320-332 | Appends a key event; fails only on a full queue |
| `Engine.Keyboard.CheckChordMatch` | src/keyboard.c:340-378 | The nested scan computes the specification and stores a full match in the recogniser |
| `Engine.Keyboard.ChordEventMatch` | src/keyboard.c:290-318 | The nested loops compute the specification |
| `Engine.Keyboard.HandlePendingTimeout` | src/keyboard.c:1077-1105 | The state of the specification |
| `Engine.Keyboard.HandlePendingOverload` | src/keyboard.c:1107-1176 | The new state is the specification's, and so is whether the event was taken |
| `Engine.Keyboard.FlushOverload` | src/keyboard.c:1150-1173 | Replays a copy of the queue, so that the resolution may queue again |
| `Engine.Keyboard.ResolvePendingOverload` | src/keyboard.c:1156-1169 | Binds the key to the action, then acts |
| `Engine.Keyboard.LookupDescriptor` | src/keyboard.c:189-254 | The two scans compute the specification |
| `Engine.Keyboard.ProcessDescriptor` | src/keyboard.c:491-851 | The state of the specification, for every action |
| `Engine.Keyboard.KeySequenceAction` | src/keyboard.c:521-550 | Releases the key first if it is down, remembers the resulting mask for repeat, clears oneshots after the stroke |
| `Engine.Keyboard.LayerAction` | src/keyboard.c:614-632 | (De)activates, then updates the modifiers with the guard off exactly if no other key was pressed since |
| `Engine.Keyboard.OverloadAction` | src/keyboard.c:653-682 | Deactivates before the tap, which needs the key to be the last one pressed and in time |
| `Engine.Keyboard.OneshotAction` | src/keyboard.c:683-711 | Arms the layer while the latch holds, else deactivates it |
| `Engine.Keyboard.OneshotKAction` | src/keyboard.c:683-711 | The key half precedes the layer half |
| `Engine.Keyboard.ToggleAction` | src/keyboard.c:742-758 | Clears the oneshots after its last modifier update |
| `Engine.Keyboard.SwapLayers` | src/keyboard.c:794-829 | Moves a toggle, else a oneshot, else the first held key whose activation it was |
| `Engine.Keyboard.MacroAction` | src/keyboard.c:712-741 | Starts the macro and lists the time of its first repetition |
| `Engine.Keyboard.TimeoutAction` | src/keyboard.c:759-777 | Sets or marks the pending timeout |
| `Engine.Keyboard.OverloadTimeoutAction` | src/keyboard.c:590-607 | Sets the pending overload |
| `Engine.Keyboard.OverloadIdleAction` | src/keyboard.c:571-589 | Runs one of its two actions and binds the key to it |
| `Engine.Keyboard.RepeatAction` | src/keyboard.c:640-648 | Runs the remembered action and binds the key to what is remembered afterwards |
| `Engine.Keyboard.ClearAction` | src/keyboard.c:633-652 | The state of the specification |
| `Engine.Keyboard.LayoutAction` | src/keyboard.c:609-613 | The state of the specification |
| `Engine.Keyboard.CommandAction` | src/keyboard.c:778-784 | Clears the oneshots, then updates the modifiers |
| `Engine.Keyboard.ScrollAction` | src/keyboard.c:551-570 | The scroll settings of the specification |
| `Engine.Keyboard.CacheGet` | src/keyboard.c:48-57 | Finds the first slot of the code |
| `Engine.Keyboard.CacheSet` | src/keyboard.c:22-46 | Writes the slot of the code, else the last free one before the end; fails exactly if there is none |
| `Engine.Keyboard.ResetKeystate` | src/keyboard.c:59-70 | The loop releases the keys in order of their codes |
| `Engine.Keyboard.SendKey` | src/keyboard.c:72-84 | Records and sends a change; sends nothing for silent codes or no change |
| `Engine.Keyboard.ClearMod` | src/keyboard.c:91-114 | Interposes the control tap exactly where the guard asks for it |
| `Engine.Keyboard.SetMods` | src/keyboard.c:116-132 | The loop over the modifier table computes the specification |
| `Engine.Keyboard.UpdateMods` | src/keyboard.c:135-166 | The loops over layers and constituents compute the specification and the returned mask |
| `Engine.Keyboard.ExecuteMacro` | src/keyboard.c:168-187 | The short form for a lone key sequence, the interpreter for every other macro |
| `Engine.Keyboard.DeactivateLayer` | src/keyboard.c:256-264 | Lowers the count or records the failed assertion |
| `Engine.Keyboard.ActivateLayer` | src/keyboard.c:271-283 | Stamps the layer, raises its count and marks the slot of the key |
| `Engine.Keyboard.ClearOneshot` | src/keyboard.c:411-423 | The nested loops compute the specification |
| `Engine.Keyboard.Clear` | src/keyboard.c:425-443 | Oneshots, toggles, macro and keys, in that order |
| `Engine.Keyboard.SetLayout` | src/keyboard.c:445-464 | clear(), then every layout but main off, then the new one on |
| `Engine.Keyboard.ScheduleTimeout` | src/keyboard.c:467-471 | Appends the deadline; fails only on a full list |
| `Engine.Keyboard.CalculateMainLoopTimeout` | src/keyboard.c:473-489 | The in-place compaction keeps exactly the deadlines after the time, in order, and returns the distance to the least |
| `Engine.Keyboard.MacroExecute` | src/macro.c:85-173 | The interpreter's loop sends exactly the requests of the macro, in order, and returns their time |
| `Engine.Keyboard.MacroEntry` | src/macro.c:94-170 | One entry's requests and the start of the open hold group after it |
| `Macros.ClosedMacroEffect` | src/macro.c:85-173 | From any key state, a macro that leaves no hold group open leaves down exactly the keys that were down before and that it never mentions |
| `Macros.TimesRelease` | src/macro.c:109-120 | A time in a hold group sends a release of the code equal to its low byte, from any key state |
| `MacroParser.ParsedMacroReleases` | src/macro.c:8-83 | Every macro that parses closes its hold groups, so run from any key state it leaves no key down that was up |
| `MacroParser.MacroBuilder.Parse` | src/macro.c:8-83 | The token loop builds exactly the entries the text stands for and fails on an invalid key or more than 256 entries |
| `MacroParser.MacroBuilder.AddToken` | src/macro.c:24-79 | A key sequence, a hold group, a time or the characters of a text, in that order of preference |
| `MacroParser.MacroBuilder.AddHolds` | src/macro.c:30-43 | The keys and times of a hold group; an invalid key fails |
| `MacroParser.Split` | src/macro.c:24-24 | The pieces strtok yields, as the recursive cut defines them |
| `MacroParser.PiecesUncut` | src/macro.c:24-24 | No piece is empty or contains the separator |
| `MacroParser.PiecesOfJoined` | src/macro.c:24-24 | Cutting undoes joining: pieces that are not empty and free of the separator come back in order |
| `Strings.StrEscape` | src/string.c:66-107 | Unescapes the text of the buffer in place; the write cursor never passes the read cursor, the result is never longer |
| `Strings.UnescapeEscape` | src/string.c:66-107 | Unescaping undoes escaping on every text |
| `Calls.ParseFn` | src/config.c:478-548 | The nested argument splitter computes the specification: NoCall without a parenthesis or a closing one, TooMany where the source's assertion fails |
| `Calls.ParsePrint` | src/config.c:478-548 | For any name and any balanced arguments joined by a comma and a space, the splitter returns them in order without leading spaces and empty ones, unless more than five are left |
| `Calls.ParsesBackExactly` | src/config.c:478-548 | It returns exactly the printed arguments if and only if there are at most five and none is empty or begins with a space |
| `Calls.MacroSurvives` | src/config.c:586-589 | For any text t, macro(escape(t)) in any argument position comes out whole and is turned back into t, unless it exceeds the buffer |
| `DescriptorParser.ConfigBuilder.ParseDescriptor` | src/config.c:617-813 | Terminates, keeps the descriptor table acyclic and every macro closed, only appends to the tables, returns a well-formed action that means what the text says, and fails only on an invalid text or a full table |
| `DescriptorParser.ConfigBuilder.ParseAction` | src/config.c:693-808 | The same for an action written as a call, lettermod() rewritten first |
| `DescriptorParser.ConfigBuilder.ParseArgs` | src/config.c:732-804 | The arguments, last to first, with the descriptor they make up |
| `DescriptorParser.ConfigBuilder.ParseArg` | src/config.c:738-803 | An argument of each type: what it accepts and what its value means |
| `DescriptorParser.ConfigBuilder.ParseAuxiliary` | src/config.c:762-779 | An argument that is an action becomes a new table entry, which refers to earlier ones only |
| `DescriptorParser.ParseMacroExpression` | src/config.c:560-597 | Strips and unescapes macro(...), lets a key sequence or a single character be its own macro, and parses the result |
| `DescriptorParser.ArgsShrink` | src/config.c:697-711 | Every argument has a smaller measure than its text, also when lettermod() rewrites the text to a longer one |
| `DescriptorParser.LetterModReads` | src/config.c:703-711 | The rewritten lettermod() fits its buffer and reads back as overloadi(key, overloadt2(layer, key, hold), idle) |
| `DescriptorParser.TableGrows` | src/config.c:777-778 | Appending an action that refers to existing entries keeps the table acyclic |
| `DescriptorParser.MeansGrows` | src/config.c:777-797 | What an action means does not change when tables grow |
| `DescriptorParser.MeantWellFormed` | src/config.c:738-803 | What a text says, read against the tables, is well formed: its layers, macros and auxiliary actions exist and are of the right kind |
| `DescriptorParser.BuiltConfigOk` | src/config.c:617-813 | The tables a ConfigBuilder has built, with layers bound to what texts say, make a configuration the engine can run on, and every macro closes its hold groups |
| `Configs.TableAllowed` | src/keyboard.c:571-697 | A table entry is well formed and refers to smaller indices only |
| `LayerParser.NewLayer` | src/config.c:381-437 | The branches of the source compute the specification |
| `LayerParser.NewLayerOk` | src/config.c:381-437 | Only a normal layer has modifiers; a layer is composite if and only if its name joins names, and its constituents are those layers, in order, all existing |
| `Gadget.ReportShowsHeld` | src/vkbd/usb-gadget.c:106-127 | In every run the occupied slots of the report are pairwise distinct and show held keys only |
| `Gadget.ReportShowsAll` | src/vkbd/usb-gadget.c:106-127 | If at most six keys that can occupy a slot were ever held at once, every held one occupies a slot |
| `Gadget.ModifierByteIsHeld` | src/vkbd/usb-gadget.c:90-104 | In every run a bit of the modifier byte is set if and only if its key is held |
| `Gadget.UsbGadget.SendKey` | src/vkbd/usb-gadget.c:152-158 | Updates modifier byte or slots, then sends the report |
| `Gadget.UsbGadget.UpdateKeyState` | src/vkbd/usb-gadget.c:106-127 | The loops clear a released usage and give a pressed one the first free slot unless it is shown already |
| `Gadget.UsbGadget.UpdateModifierState` | src/vkbd/usb-gadget.c:90-104 | Sets or clears the bit of a modifier key and leaves every other key to the slots |

## Left out

- Device discovery, evdev, uinput, inotify, the poll loop, sockets and IPC: output.send_key is an entry in a ghost trace, everything else there is I/O.
- execute_command and the pauses of macro_execute: foreign effects; the execution time that is returned is modelled.
- on_layer_change, LEDs, logging and warnings: they do not reach the state of the engine.
- kbd_eval: it rewrites the configuration under live pointers; the configuration is fixed during a run.
- The widths of C integers in the engine: layer counters, timestamps and deadlines are unbounded here (src/keyboard.c:1257-1258 keeps a timestamp in an int); the parsers' 16-bit arguments are modelled.
- The key code, compose and HID tables as data: fixed maps, of which the proofs use that no two mapped keys share a HID usage and that a character stands for a key sequence or a compose sequence.
- UTF-8: texts are sequences of characters, so the byte counts of src/string.c:10-50 are not modelled.
- Runs.LayersPaid: says nothing after a swap() went astray, when it can fail (StaleMark.AssertionFails); output, layouts and cache are proved for every run.
- Runs.LayersPaidExactly: excludes swap(), overloadi() and timeout(), which is sufficient for a run and not necessary: Taps.TapLeaks, Taps.TimeoutTapLeaks and ActionLaws.SwapAccounts say which single uses leak.
- Taps.TapLeaks: leaves out a tap that comes down to a swap(); what that does to the accounts is ActionLaws.SwapAccounts.
- Runs.AllReleasedAllUp: excludes chords; with them Runs.NothingHeldNothingDown says the same of an empty cache.
- Runs.OrderKept: excludes chords, and Runs.PressesInOrder overloadt() and overloadt2(); with both the order does not survive (LostOrder.OrderLost). Runs.NothingLost has no such restriction.
- Deadlines.PassedServes: is about an event that triggers no flush; what a flush or the resolution of a chord leaves overdue depends on the events replayed and is only bounded by Deadlines.NoDeadlineMissed.
- Effects.OneshotHandsOver: leaves out oneshotk(), whose key half disarms the oneshots first; ActionLaws.ActKeeps covers it.
- The counter behind get_time (src/keyboard.c:15-20): all keyboards share it in the source, and it grows by one for each activation of the one keyboard here; only the order of its values is used.
- Calls.ParseFn: takes slices where the source writes NULs into its buffer and keeps pointers.
- LayerParser.NewLayer: takes the section header as a value; the limit of eight constituents, which src/config.c:414 checks against a counter that is never advanced, is not modelled.
- Sections, aliases, file inclusion and the assignment of parsed actions to keys and chords (src/config.c:119-379, 815-1110): plumbing around parse_descriptor; Configs.ConfigOk states what it must deliver, among others that no chord names a code reserved for chords, which have no name.
- Engine.Keyboard.CommandAction: the command is not run.
- Mouse motion and the use of the scroll settings: easy cases outside the engine.
