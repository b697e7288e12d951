# Capitalist: the economy and timer engine in Dafny

This project models the engine of an idle "capitalist" browser game. The game
has production lines (businesses), one balance of money, managers that
automate lines, and countdown timers. A line:

- can be bought up a level;
- produces revenue when a cycle of its processing time completes;
- restarts on its own once its manager is hired;
- can be saved and loaded.

The model has six modules. `Wrappers` (`wrappers.dfy`) holds the `Option`
type, used for lookups that may find nothing and for save data that may be
absent. The other five follow the concerns of the source:

- `Models` (`models.dfy`) holds the definitions: the `Offer`,
  `RuntimeBusiness`, `Manager` and `Timer` records, and the shipped `Offers`
  and `Managers` tables, which fix the initial state.
- `Timers` (`timers.dfy`) holds the `TimerController` class:
  - a list of timers and an id counter;
  - `StartTimer`, `UpdateTimers`, `GetRemainingTime`, `AbortTimer` and
    `ResetAll`;
  - the functions `Advance`, `Survivors`, `Fires` and `Remaining` that
    specify them.
- `Money` (`money.dfy`) holds the `MoneyController` class: one balance with
  `CanAfford`, `Consume`, `Grant` and `ResetAll`.
- `Managers` (`managers.dfy`) holds the `ManagerController` class: one unlock
  flag per manager and a purchase gated on the balance.
- `Business` (`business.dfy`) holds the `BusinessController` class. It owns
  the array of lines and orchestrates the three controllers above.

Every class has a `Valid()` invariant, which its operations keep, with two
exceptions. `MoneyController.Grant` keeps it only for a non-negative credit:
a negative credit can take the balance below zero, as in the source. Inside a
tick, `TimerCompletionHandler` and `HandleFired` keep the weaker
`Linked(pending)` instead, where `pending` are the completions not yet
handled. The invariants are:

- timer ids strictly increase along the list and stay below the counter;
  durations are positive;
- the balance is never negative;
- one unlock flag per manager;
- for the business controller, `Linked`:
  - every line's `timerId` is -1 or the id of a live timer of that line's cycle time;
  - no two lines share a timer;
  - revenue is never negative.

Design points:

- **Completion callbacks.** In the source, every timer carries a closure that
  calls the business controller's completion handler.
  - Here `TimerController.UpdateTimers(dt)` advances every timer, removes the
    due ones and returns their completions `(id, repeatCount, remainingTime)`
    in list order.
  - `BusinessController.Tick(dt)` then runs `TimerCompletionHandler` on each
    completion, in that order.
  - The source runs each handler before it scans the next timer. The handler
    only appends timers that are not due: a restart starts with the
    overshoot, which is less than the duration.
  - `Timers.InterleavedUpdateMatches` proves that the source's interleaved
    loop (`Timers.DrainWithHandlers`) ends with the same timer list, in the
    same order, and reports the same completions in the same order.
  - That both orders hand out timer ids in the same sequence is argued, not
    proved: the lemma takes the timers the handlers append as a parameter
    (`extras`). In both orders the handlers run on the same completions in
    the same order, and each restart takes the next value of the counter.
- **Manager unlock callback.** `ManagerController.BuyManager` returns the
  manager it would pass to its callback slot.
  `BusinessController.BuyManager` passes that manager to
  `ManagerUnlockedCallback`, the hook the business controller's constructor
  installs in that slot.
- **Time and identity.**
  - Time is an integer number of units. `floor(time / duration)` is `/` on
    positive operands.
  - Definitions are compared by value, where the source compares
    references. `Models.OffersDistinct` shows that this identifies the same
    line for the shipped tables.
- **Save and load.** `WriteLocal` returns the records that would be
  serialised. `ReadLocal` takes them, possibly absent, as an `Option`.
- **Offline catch-up** in the source is a single engine update with the
  whole time away, which is `Tick` with a large `dt`.

## Model

| member | source | states |
|---|---|---|
| Models.NewRuntimeBusiness | src/app/models.js:28-39 | a new line copies name, price, revenue and cycle time from its definition without recomputing them for the level, and starts idle (timer -1) without a manager |
| Models.Recalculated | src/app/controllers.js:39-48 | price and revenue become base times level above level 1 and the base values otherwise; nothing else about the line changes |
| Models.PriceAt | src/app/controllers.js:41-47 | from level 1 on the price is the base price times the level; at level 0 it is the base price |
| Models.RevenueAt | src/app/controllers.js:41-47 | from level 1 on the revenue is the base revenue times the level; at level 0 it is the base revenue |
| Models.LevelStep | src/app/controllers.js:41-47 | from level 1 on, each level adds the base price and the base revenue once more |
| Models.LevelRuleMonotone | src/app/controllers.js:41-47 | with non-negative base values, price and revenue never fall as the level rises |
| Models.NewTimer | src/app/models.js:66-71 | a new timer keeps the given id and duration and starts at elapsed time 0 |
| Models.OffersWellFormed | src/app/models.js:15-22 | every shipped definition has a positive cycle time (so it can be a timer duration) and a non-negative revenue |
| Models.OffersDefaultLevels | src/app/models.js:6-22 | an omitted default level is 0; only "Earth" starts at level 1 |
| Models.InitialLinesFollowLevelRule | src/app/models.js:28-39 | a line built at a default level of 0 or 1 already satisfies the level rule, although its constructor does not recompute |
| Models.ShippedLinesFollowLevelRule | src/app/models.js:15-22 | every line built from the shipped table satisfies the level rule |
| Models.OffersDistinct | src/app/models.js:15-22 | the shipped definitions are pairwise different |
| Models.ManagersTargetOffers | src/app/models.js:53-60 | there are as many managers as offers and the i-th manager runs the i-th offer |
| Timers.FireOf | src/app/controllers.js:322-326 | a due timer's completion has at least one whole cycle and an overshoot in [0, duration), and cycles times duration plus overshoot is the elapsed time |
| Timers.Remaining | src/app/controllers.js:331-339 | the time left on the first timer with the id, and -1 when no timer has it |
| Timers.TimerController.constructor | src/app/controllers.js:292-295 | the engine starts with no timers and its counter at 0 |
| Timers.TimerController.StartTimer | src/app/controllers.js:297-309 | returns the counter's old value, increments the counter, and appends a timer with that id, the duration and the start time; the id invariant is kept |
| Timers.TimerController.AdvanceAll | src/app/controllers.js:312-314 | every timer's elapsed time grows by dt |
| Timers.TimerController.DrainDue | src/app/controllers.js:316-328 | the drain loop leaves exactly the list's timers that are not due, in order, and returns the completions of the due ones in list order |
| Timers.TimerController.UpdateTimers | src/app/controllers.js:311-329 | the new list is the timers that are not due after the advance, in their order, and the completions are those of the due timers, in list order; the invariant is kept |
| Timers.TimerController.GetRemainingTime | src/app/controllers.js:331-339 | returns `Remaining` of the list for the id |
| Timers.TimerController.AbortTimer | src/app/controllers.js:341-350 | removes the timer with the id and keeps the others in order; with no such timer nothing changes (corrected loop, see Findings) |
| Timers.TimerController.ResetAll | src/app/controllers.js:354-358 | empties the list and sets the counter back to 0 |
| Timers.SurvivorsMembers | src/app/controllers.js:317-321 | a timer survives exactly when it was in the list and is not due |
| Timers.SurvivorsIncreasing | src/app/controllers.js:317-328 | removing due timers keeps the survivors in insertion order |
| Timers.FiresComplete | src/app/controllers.js:317-328 | every due timer is reported |
| Timers.FiresSound | src/app/controllers.js:322-326 | every report comes from a due timer of the list |
| Timers.FiresIncreasing | src/app/controllers.js:317-328 | reports come in list order, so no timer is reported twice |
| Timers.PartitionSize | src/app/controllers.js:317-328 | every timer either survives or is reported |
| Timers.DueTimerFiresOnce | src/app/controllers.js:311-329 | a timer whose elapsed time plus dt reaches its duration is reported, and no other report shares its id |
| Timers.FiredIffCovered | src/app/controllers.js:311-339 | a live timer is reported by an update exactly when dt covers the time it had left |
| Timers.SurvivorRemaining | src/app/controllers.js:311-339 | a live timer not covered by dt survives the update with exactly dt less time left |
| Timers.FiredOvershoot | src/app/controllers.js:322-326 | the report of a covered live timer carries (elapsed time + dt) modulo its duration as overshoot |
| Timers.FiredIsFireOf | src/app/controllers.js:322-326 | the report carrying a live timer's id is that timer's own completion after the advance |
| Timers.OvershootIsMod | src/app/controllers.js:324-325 | elapsed time minus the whole cycles is elapsed time modulo the duration |
| Timers.RemainingLast | src/app/controllers.js:297-309 | a timer appended with a fresh id has its duration minus its elapsed time left |
| Timers.AdvanceExample | src/app/controllers.js:311-329 | a 10-unit timer advanced by 25 fires once with 2 cycles and an overshoot of 5, and leaves no timer |
| Timers.RemainingOfMember | src/app/controllers.js:331-339 | with distinct ids, the time left reported for a live timer is its own duration minus elapsed time |
| Timers.RemoveIncreasing | src/app/controllers.js:345-347 | cutting one timer out keeps ids increasing and leaves exactly the other timers |
| Timers.DrainWithHandlersMatches | src/app/controllers.js:317-328 | the source's loop, with each handler appending timers that are not due, ends with the survivors followed by the appended timers, and reports exactly the completions of the due timers, in order |
| Timers.DrainWithHandlersShape | src/app/controllers.js:316-328 | the source's loop with handlers running inside it keeps the timers before the cursor, leaves no due timer from the cursor on, and reports at least one cycle and a non-negative overshoot per completion |
| Timers.InterleavedUpdateMatches | src/app/controllers.js:311-329 | running the handlers during the source's loop gives the same timer list and the same completion order as running them after the drain |
| Timers.AbortAsWrittenDiverges | src/app/controllers.js:341-350 | the loop as written, after any number of iterations, is still running at cursor 0 when the first timer does not carry the id |
| Timers.AbortAsWrittenExits | src/app/controllers.js:341-350 | the loop as written exits only on an empty list or a match at the front |
| Timers.AbortSecondTimerHangs | src/app/controllers.js:341-350 | aborting the second of two live timers never finishes |
| Timers.AbortStepAsWritten | src/app/controllers.js:341-350 | one iteration of the loop as written exits exactly on the end of the list or a match, removing just the matching timer, and otherwise leaves list and cursor as they were |
| Timers.AbortRunAsWritten | src/app/controllers.js:341-350 | however many iterations run, the loop as written has either exited or is exactly where it started |
| Money.MoneyController.constructor | src/app/controllers.js:363-365 | the balance starts at 0 |
| Money.MoneyController.CanAfford | src/app/controllers.js:371-373 | true exactly when the cost is at most the balance; on a valid ledger a cost of at most zero is always affordable |
| Money.MoneyController.Grant | src/app/controllers.js:375-377 | the balance grows by the amount; a non-negative credit keeps it non-negative |
| Money.MoneyController.Consume | src/app/controllers.js:371-387 | debits exactly when `CanAfford` held before the call (amount at most the balance) and reports it; the balance never drops below zero |
| Money.MoneyController.ResetAll | src/app/controllers.js:412-415 | the balance goes back to 0 |
| Managers.IndexOf | src/app/controllers.js:255-263 | the first manager whose target is the definition, or -1 exactly when none is |
| Managers.ShippedManagerIndex | src/app/models.js:53-60 | the manager of the i-th shipped offer is the i-th manager, so every listed offer has one |
| Managers.ManagerController.constructor | src/app/controllers.js:200-207 | one flag per manager, all locked |
| Managers.ManagerController.FindManagerIndex | src/app/controllers.js:255-263 | the scan returns `IndexOf` |
| Managers.ManagerController.BuyManager | src/app/controllers.js:209-226 | succeeds exactly when a manager targets the definition and its price is affordable; then debits that price, sets that flag and passes that manager to the unlock callback; otherwise nothing changes |
| Managers.ManagerController.FindManager | src/app/controllers.js:228-235 | the manager at `IndexOf`, or none |
| Managers.ManagerController.IsUnlocked | src/app/controllers.js:237-244 | true exactly when some manager targets the definition and its flag is set |
| Managers.ManagerController.CanAfford | src/app/controllers.js:246-253 | true exactly when some manager targets the definition and the balance covers its price |
| Managers.ManagerController.WriteLocal | src/app/controllers.js:267-269 | the persisted flags are the current flags |
| Managers.ManagerController.ReadLocal | src/app/controllers.js:271-279 | copies the first min(flags, saved) entries and keeps the rest; absent data changes nothing |
| Managers.ManagerController.ResetAll | src/app/controllers.js:283-287 | every manager is locked again |
| Managers.SaveLoadRoundTrip | src/app/controllers.js:267-279 | saving the flags and loading them back changes nothing |
| Business.FirstIdleMatch | src/app/controllers.js:83-94 | where the manager hook stops: the first line of the target definition that is idle, every earlier line not being one |
| Business.AdvanceKeepsLinks | src/app/controllers.js:311-329 | after an update, a line's timer is either still live with no overshoot or reported with an overshoot below the line's cycle time |
| Business.TickPrelude | src/app/controllers.js:311-329 | an update keeps every line linked with the due timers pending, and every running line is updated as `LineUpdated` says |
| Business.TickOutcome | src/app/controllers.js:62-79 | once every completion is handled, every line stands as `LineTicked` says: idle stays idle, uncovered keeps its timer with dt less left, covered is idle when unmanaged and restarted with cycle time minus overshoot left when managed |
| Business.LinePrelude | src/app/controllers.js:311-329 | a running line's timer is reported exactly when dt covers its time left; uncovered, it survives with dt less left; covered, its report's overshoot is (elapsed time + dt) modulo the cycle time |
| Business.LineOvershoots | src/app/controllers.js:322-326 | the report of a covered running line's timer carries (elapsed time + dt) modulo the cycle time as overshoot |
| Business.LineOutcome | src/app/controllers.js:62-79 | one line after all completions of an update: the cases of `LineTicked` follow from where the handler left it and from the update's facts |
| Business.HandleStep | src/app/controllers.js:62-79 | handling the k-th completion moves every line from its state after k completions to its state after k+1 |
| Business.HandledAdded | src/app/controllers.js:62-79 | a handled completion appends at most one timer, carrying the counter's id, and exactly the owner's fresh timer with the overshoot when the owner is managed |
| Business.TickStepAdvance | src/app/controllers.js:62-79 | the owner of the k-th reported id goes idle or restarts; every other line keeps its timer id |
| Business.TickTimersAdvance | src/app/controllers.js:62-79 | after the k-th completion a line not yet reported keeps its survivor's time left, and a restarted managed line has the cycle time minus the overshoot left |
| Business.LiveAt | src/app/controllers.js:331-339 | a running line's timer sits in the list with the line's cycle time, and its time left is the cycle time minus its elapsed time |
| Business.HeadOwner | src/app/controllers.js:62-79 | the line holding a reported id is the only one holding it, and the overshoot it restarts with is below its cycle time |
| Business.HandleLine | src/app/controllers.js:62-79 | handling a reported completion keeps every line linked whether its owner goes idle or restarts with the overshoot, and the completion is no longer pending |
| Business.StartLine | src/app/controllers.js:51-60 | giving an idle line a fresh timer keeps every line linked |
| Business.AbortLine | src/app/controllers.js:159-162 | aborting a line's timer and marking it idle keeps every line linked |
| Business.StopFacts | src/app/controllers.js:159-162 | a producing line's timer is in the list; cutting it out keeps every line linked and no other line's time left changes |
| Business.StartFacts | src/app/controllers.js:164-170 | starting an idle line with an elapsed time keeps every line linked, gives the new id the rest of the cycle as time left and changes no other id's time left |
| Business.RemainingRemove | src/app/controllers.js:159-162 | aborting one timer does not change the time left on any other id |
| Business.RemainingAppend | src/app/controllers.js:164-170 | starting a timer does not change the time left on any other id |
| Business.BusinessController.constructor | src/app/controllers.js:14-26 | one idle, unmanaged line per definition, at its default level, wired to the given controllers |
| Business.BusinessController.BuyBusiness | src/app/controllers.js:29-37 | when the price is covered, debits exactly the old price, raises the level by one and applies the level rule; otherwise nothing changes; no other line changes |
| Business.BusinessController.StartProcessing | src/app/controllers.js:51-60 | starts a timer of the line's cycle time only when the line is idle, whatever its level, and records its id; otherwise nothing changes |
| Business.BusinessController.TimerCompletionHandler | src/app/controllers.js:62-79 | the line holding the id is credited revenue times the cycle count; it becomes idle, or, when managed, restarts at once with the overshoot as elapsed time (below its cycle time); a stale id changes nothing |
| Business.BusinessController.HandleFired | src/app/controllers.js:322-326 | handing one reported completion to the handler changes only timer ids, never lowers the balance and moves every line one step of the tick outcome on |
| Business.BusinessController.Tick | src/app/controllers.js:311-329 | after one update, with the time left taken before it: only timer ids change; an idle line stays idle; a line with more than dt left keeps its timer with exactly dt less left; a covered unmanaged line is idle; a covered managed line holds a fresh timer whose time left is the cycle time minus (elapsed time + dt) modulo the cycle time; the balance never decreases |
| Business.BusinessController.ManagerUnlockedCallback | src/app/controllers.js:83-94 | every line of the target up to and including the first idle one gets the manager, that idle line starts, and later lines are untouched |
| Business.BusinessController.BuyManager | src/app/controllers.js:209-226 | the purchase succeeds exactly as the manager registry decides; on success the price is debited, the flag set, every line of the target before the first idle one becomes managed, that idle line becomes managed and takes the counter as its timer id, a timer of its cycle time is appended and the counter grows by one (no line and no timer changes when none is idle); on failure nothing changes |
| Business.BusinessController.SetManaged | src/app/controllers.js:87-88 | marks one line as managed and changes nothing else |
| Business.BusinessController.WriteLocal | src/app/controllers.js:118-144 | one record per line with its level and manager; processing is true exactly when the line holds a timer, and the timer field is the time left (0 when idle) |
| Business.BusinessController.StopLine | src/app/controllers.js:159-162 | `LineStop`: the line becomes idle and nothing else about the lines changes; the timer list loses the line's timer, cut out at its position, and keeps the others in order; the counter is unchanged; no other line's time left changes |
| Business.BusinessController.StartLineAt | src/app/controllers.js:164-170 | the idle line takes the counter as its timer id; exactly one timer is appended, with that id, the given elapsed time and the cycle time; the counter grows by one; the time left is the cycle minus the elapsed time; no other line's time left changes |
| Business.BusinessController.StopIfProducing | src/app/controllers.js:159-162 | `LineStop`: a producing line's timer is aborted and the line marked idle; an idle line changes nothing |
| Business.BusinessController.StartIfProcessing | src/app/controllers.js:164-170 | `LineStart`: when the save was producing, the idle line starts with the saved time left, as `StartLineAt`; otherwise nothing changes |
| Business.BusinessController.RestartLine | src/app/controllers.js:159-170 | `LineRestart`: the timer list is the old one without the line's timer, followed by the new timer when producing; the line holds the counter's old value or -1; the counter grows by one exactly when producing; the new timer has the saved time left; no other line's time left changes |
| Business.BusinessController.ReloadLevels | src/app/controllers.js:154-156 | the line takes the saved level and manager flag and its price and revenue follow the level rule; nothing else changes and the engine is not touched |
| Business.BusinessController.RestoreLine | src/app/controllers.js:151-170 | `LineReload`: the line is `Restored` (saved level and manager, level rule, producing exactly when the save says so, with the saved time left) on the counter's old value when producing; the timer list loses exactly the line's old timer and gains exactly the new one; the counter grows by one exactly when producing; no other line changes, nor its time left |
| Business.BusinessController.ReadLocal | src/app/controllers.js:146-173 | `Loaded` for the first min(lines, records) lines: each is `Restored` from its record, the timer it held before is gone, a producing one runs on a timer newer than the old counter, and the counter grew once per producing record; the other lines and their time left are kept; absent data changes nothing |
| Business.RestartComposed | src/app/controllers.js:159-170 | making a line idle and then starting it, as the two guarded blocks do, is restarting it |
| Business.ReloadComposed | src/app/controllers.js:151-170 | taking the saved level and manager and then restarting the line is loading it from the record |
| Business.LoadedStep | src/app/controllers.js:149-172 | one more iteration of the load loop keeps `Loaded`: the lines loaded earlier keep their time left, and their old timers stay gone because a new timer's id is never an old one |
| Business.KeepsChain | src/app/controllers.js:159-170 | two steps that each leave every other line's time left alone leave it alone together |
| Timers.WithoutCut | src/app/controllers.js:345-347 | with increasing ids, removing the timers with a listed timer's id is cutting that one timer out |
| Timers.WithoutMembers | src/app/controllers.js:341-350 | a timer is left exactly when it was in the list and does not carry the id |
| Timers.WithoutAbsent | src/app/controllers.js:341-350 | removing an id that no timer carries changes nothing |
| Timers.RemainingWithout | src/app/controllers.js:331-350 | after removing an id no time is left on it, and every other id has the time left it had |
| Business.BusinessController.ResetAll | src/app/controllers.js:177-185 | every line is back to a new line of its definition at the default level: no manager, base price and revenue, idle |
| Business.SaveLoadRoundTrip | src/app/controllers.js:118-173 | saving and loading keeps every line's level, manager, producing state and time left; a line that followed the level rule keeps everything but its timer id |

## Left out

- game.js is not part of this model: the canvas, the animation-frame loop, the clock, the conversion of milliseconds to seconds, and the order in which it calls the controllers' save, load and reset. Offline catch-up is `Tick` with the time away.
- Rendering and input: `populateUIItemList`, `MoneyController.render`, the UI item classes, colours and layout constants. They are presentation only.
- Browser storage, JSON encoding and `parseInt`: the save operations return and take records instead. This includes `MoneyController.writeLocal`/`readLocal`, which only store and parse the balance as a string (and can yield NaN).
- Floating-point time: time is an integer number of units, so rounding of `dt` and of `time / duration` is not modelled.
- Closures: the completion handler and the unlock callback are direct calls, because every timer the game creates has the same handler and the callback slot is assigned once.
- An out-of-range line index in `buyBusiness`/`startProcessing` would throw in the source; here it is a precondition.
- Business.BusinessController.ReadLocal: saved levels and times are natural numbers, which is what `WriteLocal` produces; hand-edited negative values are not modelled.
- Business.BusinessController.ReadLocal: `Loaded` states, for the whole load, the loaded lines, the removal of their old timers, the time left on their new ones and the counter, but not the whole timer list at the end; `RestoreLine` states the exact list after each record.
- Business.BusinessController.ResetAll: requires the parts' own invariants but not the timer links, and does not abort running timers, like the source. The game resets the timer engine beside it, so a leftover timer can only fire into the handler's "no line holds this id" case, which changes nothing (`TimerCompletionHandler`).
- Business.BusinessController.Tick: states the balance only as non-decreasing; the exact credit of each completion is stated by `TimerCompletionHandler`. The time left is stated for the lines' timers, not for leftover timers no line holds.
- Business.BusinessController.TimerCompletionHandler: takes the completions still to be handled in the same update as a ghost argument, so that the links between lines and timers can be stated while they are in flight.

## Findings

| source | as written | input that shows it | evidently intended | confidence | as-written member | corrected member |
|---|---|---|---|---|---|---|
| src/app/controllers.js:341-350 | the loop in `abortTimer` never advances `ptr`, so it ends only on an empty list or when the match is the first timer | two live timers with ids 0 and 1, abort id 1: the loop stays at `ptr` 0 forever | advance `ptr` after a timer that does not match, so the matching timer is removed wherever it is and a missing id is a no-op | not executed | Timers.AbortAsWrittenDiverges | Timers.TimerController.AbortTimer |

`abortTimer` is only called from `readLocal`, for lines that already hold a
timer. The game loads once at start-up, before any line is started, so it
does not reach the defect there. The model uses the corrected loop, so
`ReadLocal` and `SaveLoadRoundTrip` hold for any state.
