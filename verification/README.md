# Tenon: a verified model of its state machines

Tenon runs agent environments under one base process. This project models the parts of it whose
promises are about whole runs, every interleaving or every input, and proves those promises. Where the
code changes things in place the model is a class with the same fields, and each method is proved to
be one step of a pure state machine; what holds over runs is proved about the state machine.

| files | part |
|---|---|
| `KvSpec`, `KvFacade`, `KvLife`, `KvFilter`, `KvWatch`, `KvLag`, `Ingress` | the two-tier key store as one flat map, how long a key lives, its watch and the bus filter behind it, and the route registry kept in it |
| `LimiterSpec`, `Limiter`, `LimiterRuns`, `LimiterPace` | the account rate limiter and its circuit breaker |
| `PluginSpec`, `PluginLoop`, `PluginRuns`, `PluginWire` | the Python SDK's re-entrant loop |
| `WsCodec`, `WsClient`, `WsWire`, `Framing` | the WebSocket client and the length-prefixed frames |
| `SupervisorSpec`, `Supervisor`, `SupervisorRuns`, `SupervisorLife` | the environment tree, restarts, pruning and kernel switches |
| `ApprovalSpec`, `Approvals`, `ApprovalRuns`, `ApprovalGates` | the approval queue and the gates behind it |
| `Mirror` | the bounded projection of object graphs |
| `DeepMerge` | the in-place JSON merge |
| `Prelude`, `Decimal` | shared datatypes, orderings and decimal text |

`dafny verify dfyconfig.toml` checks everything.

## Assumptions

- kv: writes to the store succeed; each verb is one step; `expires_at <= at` decides what the store reports as expired; the bus queue of a subscription loses nothing its filter lets through and keeps the order; a watcher starts at revision 0; keys and prefixes hold no NUL and a prefix is short enough for SQLite's `like`.
- Ingress: the clock does not go back; an env's name is not empty (`rs/base/src/spawn.rs:187-192`); a JSON value that names an env is one written as a route.
- Limiter: the clock is positive and does not go back; configuration values are not negative; tokens are counted exactly, in units of 1/60000 of a token.
- Plugin loop: the wire is a finite sequence of frames; a handler is any function of the replies it has seen that ends after some number of actions; request numbers are values a dictionary can hold; frames are under 4 GiB.
- Supervisor: a process exit is reported at most once, at any later time; nobody spawns under, resets or switches a `~green` name; `max_total >= 1`. `SupervisorRuns.SwitchKeepsForestIff` and `SupervisorRuns.ResetKeepsForestIff` say exactly what goes wrong otherwise.
- Approvals: the store moves only PENDING rows and says whether it did, and only base decides rows. Whether the store accepts a new row is left open. Commands, timers, gates and restarts interleave in any order.
- Mirror: properties read the same throughout one projection; listing the keys of an object names each once.

## Where the code surprises

- Unlike set, delete and the sweep, `expire` writes a new revision without firing a watch event (`rs/base/src/kv.rs:234-257`); `KvLag.WatcherRevision` says exactly whose revisions lag.
- A watch whose prefix does not end in a slash, such as `/timers`, lists the keys under it in its snapshot but hears no change to them, because the bus takes `**` for a wildcard only as a whole segment (`rs/bus/src/filter.rs:92-109`); `KvWatch.WatchesAreRightIff` gives the exact condition.
- `range`, and with it the snapshot, lists durable keys that match the prefix only up to the case of ASCII letters (`rs/storage/src/kv.rs:70-80`); a watcher keeps what the snapshot says of them for good. See `KvSpec.RangeIsThePrefixIff` and `KvWatch.StraysAfterSweep`.
- Nothing checks a write under the env `@ingress`. A caller bound to an env cannot make one, unless an env is given that name; an unbound caller can (`rs/base/src/facaderpc.rs:66-83`). `Ingress.QuotasHold` and `Ingress.LiveNameKeepsOwner` say exactly which such writes the quotas and the owners survive.
- A durable key bound to a lease outlives the lease when the process restarts: the key keeps the lease's name and the lease itself is gone (`rs/base/src/kv.rs:55-74`); see `KvLife.CrashKeepsDurable`.
- `approval_answer` treats every decision other than `deny`, `denied`, `no` and `false` as an approval (`rs/base/src/approvals.rs:173-176`).
- With mode `auto`, a gated action is approved even when its row could not be written (`rs/base/src/approvals.rs:88-99`); `ApprovalRuns.ApprovedWithoutRow` says that is the only way.
- An env's own config is patched without a gate when an upgrade is promoted (`rs/base/src/drive.rs:261-265`); base's own config never is. The upgrade itself was let through by its tier, or approved at a gate of a kind of its own, `upgrade` (`rs/base/src/upgrade.rs:80-106`); see `ApprovalRuns.UpgradePassesTheGate`.
- A picked argument is not recorded as an ancestor and its pick is not cut to 64 keys (`bridge/dsh/src/mirror.ts:103-105`); a key `__proto__` is not shown (`bridge/dsh/src/mirror.ts:54`), except when a pick names it twice over a null; see `Mirror.RowsLookup`.
- A handler result that is not JSON, a held-back registration that is too large, or a hook, service or method named by a list or an object leaves the request unanswered (`sdk/py/tenon.py:332-389`); `PluginRuns.LeftUnansweredIff` and `PluginRuns.LoadAnnouncesFirst` give the exact conditions.
- A fragmented WebSocket message is not put together: its first frame is delivered alone and the continuation frames are skipped (`sdk/py/tenon.py:93-108`); see `WsClient.FragmentsAreNotJoined`.
- A reset whose new process cannot be spawned leaves the old generation in place, so the exit of the process it stopped still counts as the env's: the env goes down with its children, and is started once more while it has restarts left (`rs/base/src/base.rs:426-450`); see `SupervisorRuns.ExitAfterResetIsIgnoredIff`.

## Model

| member | source | states |
|---|---|---|
| KvFacade.KvFacade.constructor | rs/base/src/kv.rs:55-74 | A facade over a fresh store is the empty flat map with revision 0. |
| KvFacade.KvFacade.Restart | rs/base/src/kv.rs:55-74 | Losing the process and opening the same store again leaves the durable table exactly as it was and starts revisions at the persisted mark; leases and ephemeral keys are gone. |
| KvFacade.KvFacade.NextRev | rs/base/src/kv.rs:84-92 | One new revision; whenever it passes the reserved ceiling a block of 256 is persisted first. |
| KvFacade.KvFacade.GetKey | rs/base/src/kv.rs:94-112 | Reading the two tiers answers what the flat map holds for the key, unless it has expired. |
| KvFacade.KvFacade.SetKey | rs/base/src/kv.rs:117-149 | In either tier, the flat map gets exactly this entry under a new revision and one set event; the other tier loses the key. |
| KvFacade.KvFacade.Write | rs/base/src/kv.rs:151-175 | A write in one tier removes any shadow in the other, so no key is ever in both. |
| KvFacade.KvFacade.DelKey | rs/base/src/kv.rs:177-199 | Says whether the key was anywhere, removes it, and fires one delete event only if it was. |
| KvFacade.KvFacade.CasKey | rs/base/src/kv.rs:204-218 | Writes exactly when the live value equals the expected one (both may be absent). |
| KvFacade.KvFacade.IncrKey | rs/base/src/kv.rs:220-232 | Adds to the live decimal value, or to 0 when there is none; fails on anything that is not an integer. |
| KvFacade.KvFacade.ExpireKey | rs/base/src/kv.rs:234-257 | A live key gets a deadline in the tier it is in, a new revision, no lease and no event; any other key is an error. |
| KvFacade.KvFacade.GrantLease | rs/base/src/kv.rs:259-274 | A new lease with its deadline and a number of its own within the process. |
| KvFacade.KvFacade.KeepLease | rs/base/src/kv.rs:276-281 | Renews exactly the lease named; an unknown one is an error. |
| KvFacade.KvFacade.RangeKeys | rs/base/src/kv.rs:283-303 | Merging the store's rows, matched up to ASCII case, with the ephemeral ones under the prefix itself and sorting gives the flat map's range. |
| KvFacade.KvFacade.WatchSnapshot | rs/base/src/kv.rs:318-324 | The snapshot is that range's rows newer than the revision, as set events. |
| KvFacade.KvFacade.SweepExpired | rs/base/src/kv.rs:357-397 | The sweep over both tiers and the leases is the flat map's tick. |
| KvSpec.RevisionsNeverRepeat | rs/base/src/kv.rs:80-92 | Over any run, crashes included, every revision issued is greater than all issued before. |
| KvSpec.RunKeepsRevInv | rs/base/src/kv.rs:55-92 | issued revision <= reserved <= persisted mark, over any run from any state that has it. |
| KvSpec.TickIsExact | rs/base/src/kv.rs:357-397 | A tick removes exactly the keys past their deadline or bound to a lease past its own, drops exactly those leases, and fires one delete event for each key, in key order, with consecutive revisions. |
| KvSpec.RangeMatchesGet | rs/base/src/kv.rs:283-303 | range is strictly sorted by key and lists exactly the live keys of the env that it takes in (ephemeral ones under the prefix, durable ones matching it up to ASCII case), with the value and revision get answers. |
| KvSpec.RangeIsThePrefixIff | rs/storage/src/kv.rs:70-80 | Every live key under the prefix is listed; nothing else is, exactly when no live durable key of the env matches the prefix only up to the case of ASCII letters. |
| KvSpec.AnotherCaseIsListed | rs/storage/src/kv.rs:70-80 | A concrete store in which /Timers/x is listed under /timers/. |
| KvSpec.IncrAccumulates | rs/base/src/kv.rs:220-232 | What incr writes reads back as the sum, wrapped to 64 bits. |
| Decimal.RenderParses | rs/base/src/kv.rs:223-230 | Every i64 survives being written in decimal and parsed back. |
| KvSpec.LikeIff | rs/storage/src/kv.rs:70-80 | A key matches a prefix in the store exactly when its first characters are the prefix's, up to the case of ASCII letters. |
| KvLife.CrashKeepsDurable | rs/base/src/kv.rs:55-74 | In any state, the end of the process takes exactly the ephemeral keys and the leases; a durable key keeps value, revision, deadline and lease name and is answered as before. |
| KvLife.KeyIsAnswered | rs/base/src/kv.rs:94-112 | What a key without a lease answers after any run that does not name it, restarts included: what it was, unless it is past its deadline, or was ephemeral and the process ended. |
| KvLife.SetIsAnswered | rs/base/src/kv.rs:117-149 | A key that was set is answered with that value and revision through any such run, restarts included if it is durable, exactly until now + ttl. |
| KvLife.DeletedIsGone | rs/base/src/kv.rs:177-199 | A deleted key is not answered after any such run. |
| KvLife.CasIsAnswered | rs/base/src/kv.rs:204-218 | cas takes effect, like a set, exactly when what get answers is what was expected; otherwise nothing changes and it fails with cas_mismatch. |
| KvLife.IncrIsAnswered | rs/base/src/kv.rs:220-232 | incr of an integer, or of nothing as 0, is answered as a text that reads as the sum, in any run that leaves the key alone. |
| KvLife.IncrNeedsAnInteger | rs/base/src/kv.rs:220-232 | incr of anything else is refused and changes nothing. |
| KvLife.ExpireIsAnswered | rs/base/src/kv.rs:234-257 | expire keeps value and tier under a new revision and frees the key of its lease, exactly until now + ttl; on a key not answered it fails. |
| KvLife.LeasesAreApart | rs/base/src/kv.rs:259-274 | In any run, crashes included, the next lease has a number no lease of its process has. |
| KvLife.BoundKeyLives | rs/base/src/kv.rs:357-397 | A key bound to a lease is still there, unchanged, after a sweep exactly when the sweep comes before the end of the lease, whatever ran in between. |
| KvLife.LeasedKeyLives | rs/base/src/kv.rs:259-274 | A key set under a new lease survives exactly the sweeps before now + ttl. |
| KvLife.RenewedKeyLives | rs/base/src/kv.rs:276-281 | After keep_alive in time, exactly those before the renewal + ttl. |
| KvFilter.HearsItsPrefixIff | rs/bus/src/filter.rs:85-109 | A watch's bus filter hears every key under its prefix exactly when the prefix, leading slashes aside, is empty or ends in a slash. |
| KvFilter.UnalignedHearsLiterally | rs/bus/src/filter.rs:92-109 | With any other prefix the stars are literal: it hears only keys whose last segment is the prefix's own last segment followed by two stars. |
| KvFilter.ManyIff | rs/bus/src/filter.rs:92-109 | Two stars stand for any number of segments, none included. |
| KvWatch.HeardKeysAgree | rs/base/src/facaderpc.rs:376-386 | A watcher that starts empty, subscribes, then takes the snapshot and folds it and all queued events, is right about every key under the prefix that its filter hears (an unexpired key is there with its value, and what is there is in the store with that value), for any run between subscribing and the snapshot and any run after it. |
| KvWatch.WatcherAgrees | rs/base/src/kv.rs:305-324 | With a prefix that ends where a segment does, it is right about every key under it; the filter is the one the code builds. |
| KvWatch.WatchesAreRightIff | rs/base/src/kv.rs:305-314 | All watches of a prefix are right about all keys under it, over all runs, exactly when the prefix, leading slashes aside, is empty or ends in a slash. |
| KvWatch.UnalignedWatcherMisses | rs/base/src/kv.rs:308-314 | For every other prefix, a concrete watch that never hears of a key set after its snapshot. |
| KvWatch.WatcherExactAfterSweep | rs/base/src/kv.rs:357-397 | After the next tick, of the keys under such a prefix its view holds exactly those get answers for, with their values. |
| KvWatch.UnheardKeysFreeze | rs/base/src/kv.rs:318-348 | A key the filter does not hear is in the view exactly if the snapshot listed it, with the value it had then, whatever happens later. |
| KvWatch.StraysAfterSweep | rs/base/src/kv.rs:283-324 | So it is for the keys outside the prefix that are listed for their case only, also after the next tick. |
| KvWatch.StrayOutlivesItsDeletion | rs/base/src/kv.rs:283-324 | A concrete such key that stays in the view after it is deleted. |
| KvWatch.SnapshotSaysListed | rs/base/src/kv.rs:318-324 | The last word on a key of a snapshot since a revision is its live value if range takes the key in and its revision is newer, and nothing otherwise. |
| KvWatch.SnapshotSaysGet | rs/base/src/kv.rs:318-324 | Since revision zero, that is what get answers for each key under the prefix. |
| KvWatch.RunExplains | rs/base/src/kv.rs:339-348 | The events of any run within a boot explain every change of a key's live value, up to expiry. |
| KvLag.WatcherRevision | rs/base/src/kv.rs:318-348 | With a prefix that ends where a segment does, the revision a watcher holds for a live key is the store's exactly when no expire of that key has succeeded since the value it last heard, in the queue or else in the snapshot; otherwise it is an older one. Over all runs before and after the snapshot. |
| KvLag.ExpireLeavesWatchersBehind | rs/base/src/kv.rs:234-257 | One expire of a live key leaves every watcher of such a prefix with the right value under an older revision. |
| Ingress.CheckRequest | rs/base/src/ingress.rs:163-199 | In any store: the checks in the code's order, counting the rows that parse, with the first refusal that applies. |
| Ingress.RegisterRoute | rs/base/src/ingress.rs:201-237 | In any store: an accepted registration grants a lease and writes the route bound to it; a refused one changes nothing and says why. |
| Ingress.UnregisterRoute | rs/base/src/ingress.rs:243-259 | Deletes a live route exactly when the caller owns it. |
| Ingress.GrantedIff | rs/base/src/ingress.rs:163-199 | A registration is granted exactly to an env, for a name of 1 to 64 letters, digits, - or _ and a published port, when the name is its own already, or is free while host and env are below their caps. |
| Ingress.GrantedIsRouted | rs/base/src/ingress.rs:201-225 | What it gets: the route, with the address published for the port, answered under the name and bound to a new lease; no other key changes. |
| Ingress.UnregisteredIff | rs/base/src/ingress.rs:243-259 | An env takes back exactly a live route of its own, and nothing else changes. |
| Ingress.GivenUpIsFree | rs/base/src/ingress.rs:267-294 | A route given up after failed probes leaves its name free at once. |
| Ingress.GrantedFits | rs/base/src/ingress.rs:173-190 | In any store whatever, a registration the checks let through for an env had room: the name was its own already, or its count and the host's were below their caps. |
| Ingress.QuotasHold | rs/base/src/ingress.rs:173-190 | Over any run of registrations, removals, ticks, crashes and any kv traffic, also under the env @ingress: no env has more than max_per_env live routes and the host no more than max_total, at every point, exactly when each write that is not a registration had room when it was made. |
| Ingress.QuotasHoldFromTheStart | rs/base/src/ingress.rs:173-190 | The same from a fresh store on; and when nothing but the registry writes under @ingress the quotas hold outright. |
| Ingress.HandWriteKeepsQuotasIff | rs/base/src/ingress.rs:178-189 | A route written by hand under a name, in either tier, keeps the quotas exactly when the name is held by the owner it names, or that env is below its cap and, if nothing that parses stands under the name, the host is below its own. |
| Ingress.HandWrittenRoutesPassTheQuota | rs/base/src/ingress.rs:178-189 | Concretely, where an env may have one route: the first written by hand keeps the quotas, the second does not. |
| Ingress.LiveNameKeepsOwner | rs/base/src/ingress.rs:173-177 | Over any run in which a live route stands under a name before and after each step, the name belongs to one env throughout exactly when nothing but registrations writes another env's route under it. |
| Ingress.HandWrittenRoutesTakeNames | rs/base/src/ingress.rs:173-177 | A route written by hand over a held name leaves its owner exactly when it names that owner. |
| Ingress.ReRegistrationOutlivesOldLease | rs/base/src/ingress.rs:201-225 | After registering again, the route survives the expiry of the lease it had before, through any run that leaves the key and its new lease alone. |
| Limiter.Limiter.TryAcquire | rs/base/src/ratelimit.rs:156-206 | The stages in the code's order; the exact grant, hint or halt and the exact new counters. |
| Limiter.Limiter.RecordResult | rs/base/src/ratelimit.rs:217-246 | The breaker's step: streak, opening, capped back-off, halting. |
| Limiter.Limiter.ReleaseCall | rs/base/src/ratelimit.rs:208-210 | One slot back, never below zero. |
| Limiter.Limiter.RecordOk | rs/base/src/ratelimit.rs:248-250 | A success ends the streak and changes nothing else. |
| LimiterRuns.RateOverAnyInterval | rs/base/src/ratelimit.rs:169-201 | Of n grants in any interval [t1, t2] of any run: 60000 n <= rpm (60000 + t2 - t1). |
| LimiterRuns.GapOverAnyInterval | rs/base/src/ratelimit.rs:190-194 | Of n grants in [t1, t2]: (n - 1) min_gap_ms <= t2 - t1. |
| LimiterRuns.DayCapOverAnyInterval | rs/base/src/ratelimit.rs:173-179 | With rpd > 0, any interval shorter than a day holds at most 2 rpd grants. |
| LimiterRuns.NewLimiterKeepsItsBounds | rs/base/src/ratelimit.rs:125-143 | A new limiter keeps all three bounds from its first attempt on. |
| LimiterSpec.ConcurrencyHolds | rs/base/src/ratelimit.rs:187-189 | in_flight never exceeds max(concurrency, 1) in any run. |
| LimiterRuns.HintsAreTight | rs/base/src/ratelimit.rs:156-198 | Not halted and below the concurrency limit, no attempt before now + w is granted after Wait(w), whatever happens in between. |
| LimiterRuns.BusyHintIsNotTight | rs/base/src/ratelimit.rs:187-189 | At the concurrency limit the hint is only a guess: a concrete run is granted earlier. |
| LimiterRuns.HintPassesStage | rs/base/src/ratelimit.rs:156-198 | Waiting exactly the hint gets past the stage that gave it and every earlier one. |
| LimiterRuns.FiveWaitsSuffice | rs/base/src/ratelimit.rs:156-206 | Retrying exactly at each hinted time is granted after at most five waits. |
| LimiterRuns.BreakerCountsStreaks | rs/base/src/ratelimit.rs:217-246 | Over any history, opens is the sum over maximal rate-limited streaks of floor(length / threshold), and the limiter is halted exactly when opens >= max_opens. |
| LimiterRuns.BreakerNeverRelents | rs/base/src/ratelimit.rs:226-241 | Halting is absorbing and open_until never goes back. |
| LimiterSpec.BackoffGrows | rs/base/src/ratelimit.rs:228-234 | Each back-off is at least the one before and at most backoff_max_ms, in spite of the capped shift. |
| LimiterPace.BackoffDoubles | rs/base/src/ratelimit.rs:228-234 | The first back-off is backoff_base_ms, each next one up to the 21st twice the one before, all cut to 64 bits and to backoff_max_ms, and constant after that. |
| LimiterPace.OpenBlocks | rs/base/src/ratelimit.rs:223-234 | After the opening at now that follows n others, every attempt is told to wait until now + min(base doubled min(n, 20) times, max), and before that nothing that happens lets one through. |
| LimiterPace.HaltsWithTheCount | rs/base/src/ratelimit.rs:235-241 | The opening that makes up breaker_max_opens halts, and its number is what every later attempt is told. |
| LimiterPace.GrantedIff | rs/base/src/ratelimit.rs:156-206 | From any reachable state after the first attempt, the exact condition for a grant in terms of that state: breaker, counts of windows not over, slots, gap, refilled tokens. |
| LimiterPace.BusyWaits | rs/base/src/ratelimit.rs:187-189 | With every slot taken and neither window spent, the hint is max(min_gap_ms, 1). |
| LimiterPace.FirstGapIsJittered | rs/base/src/ratelimit.rs:148-154 | A concrete gap that is longer than the minimum by its jitter. |
| LimiterPace.InFlightCounts | rs/base/src/ratelimit.rs:201-210 | In any run that gives back no more than was granted, in_flight is what was granted and not given back. |
| LimiterPace.NewLimiterLetsPacedCallsPass | rs/base/src/ratelimit.rs:156-206 | A caller that spaces its calls by the gap with its jitter and by 60000 / rpm, and gives each back, is never made to wait, without a daily cap, however long. |
| PluginLoop.Plugin.Settle | sdk/py/tenon.py:300-309 | Serves frames until its slot is filled and takes what is there; gives up only when the wire is over, and throws only what a dispatch let out. The new state and the outcome are exactly those of the specification's wait. |
| PluginLoop.Plugin.Ask | sdk/py/tenon.py:222-231 | call and svc draw the next number, send the request with it, and wait for that number. |
| PluginLoop.Plugin.SendAndSettle | sdk/py/tenon.py:359-364 | A frame that does not go out throws at once; otherwise its wait begins. next is this for the request's result. |
| PluginLoop.Plugin.Dispatch | sdk/py/tenon.py:311-326 | Each kind of frame has exactly the specification's effect. |
| PluginLoop.Plugin.OnHook | sdk/py/tenon.py:340-357 | A call runs its handler and answers; an emit runs it and swallows its errors. |
| PluginLoop.Plugin.OnLoad | sdk/py/tenon.py:328-338 | Live, the held-back registrations, then the load handler or the plain answer. |
| PluginLoop.Plugin.Announce | sdk/py/tenon.py:332-334 | Registrations go out in order up to the first that does not fit. |
| PluginLoop.Plugin.Guard | sdk/py/tenon.py:376-389 | Runs the handler and answers with its ending, or records that the wire was over first. |
| PluginLoop.Plugin.Fail | sdk/py/tenon.py:391-397 | The reason, or the short one; left unanswered exactly when even that does not fit. |
| PluginLoop.Plugin.RunHandler | sdk/py/tenon.py:344-357 | The handler's own choices, one after the other, each on the replies seen so far. |
| PluginLoop.Plugin.Act | sdk/py/tenon.py:195-231 | Each thing a handler can do, with what it sends, registers or waits for. |
| PluginLoop.Plugin.Run | sdk/py/tenon.py:241-254 | The greeting, then every frame until the wire ends, an unload comes or an exception gets out. |
| PluginRuns.RunAccountsForEveryRequest | sdk/py/tenon.py:241-254 | For every wire and every nesting: each request read was answered exactly once, or was being handled when the wire ended or said unload, or was left with a true cause (its result is not JSON, its reply and the short one do not fit, a held-back registration or the plain answer did not, or the frame named a hook, service or method by something that cannot be looked up). The loop ends by itself exactly after the whole wire without an unload, is cut only when the wire is over, and breaks only after a request was left or a frame was not JSON. The greeting is the first frame sent, and every number is sent at most once, in order. |
| PluginRuns.RoomyPluginsAnswerEverything | sdk/py/tenon.py:376-397 | If values are JSON and registrations, the short refusal and the plain answer fit: every request read is answered once or cut off by the end of the wire or an unload, apart from those of frames naming something that cannot be looked up; without such frames nothing is left and only a frame that is not JSON breaks the loop. |
| PluginRuns.AskKeeps | sdk/py/tenon.py:222-231 | A call or svc that returns, returns the payload of a rep frame with its own number, whichever level read that frame; it gives up only when the wire is over; it throws only when its frame did not go out or an exception left a dispatch meanwhile. |
| PluginRuns.SettleKeeps | sdk/py/tenon.py:300-309 | The same for any wait, with all accounts in order; a reply once read stays until its own wait takes it. |
| PluginRuns.HandlersEndAsTheyDecide | sdk/py/tenon.py:376-384 | A handler returns or raises exactly what it decides after the replies it saw. |
| PluginRuns.AnswersComeFromTheHandler | sdk/py/tenon.py:340-389 | A numbered request that is neither cut off nor left is answered, last of all, with what its own handler decided, or frame_too_large. |
| PluginRuns.UnknownIsRefused | sdk/py/tenon.py:354-372 | A request for something not registered is refused as unknown and nothing else changes. |
| PluginRuns.LeftUnansweredIff | sdk/py/tenon.py:376-397 | A finished handler's request stays unanswered exactly when its result is not JSON, or neither its reply nor the short one fits. |
| PluginRuns.LoadAnnouncesFirst | sdk/py/tenon.py:328-338 | A load sends exactly the held-back registrations in order before anything else, and is left there exactly when one does not fit. |
| PluginRuns.ResultNotJsonIsLeft | sdk/py/tenon.py:385-389 | A concrete plugin and wire on which a caller is never answered because the result is not JSON. |
| PluginRuns.HeldBackIsLeft | sdk/py/tenon.py:332-334 | A concrete plugin and wire on which a load is never answered because a held-back registration does not fit. |
| PluginWire.ActsAreSaid | sdk/py/tenon.py:195-231 | Whatever a handler does puts its frame on the wire before anything served while it waits: a call or svc once in the whole run with the next number, next with its request's own, emits and registrations too; a frame that does not fit leaves the wire as it is and the handler is told why. |
| PluginWire.FramesRunTheirHandler | sdk/py/tenon.py:340-374 | A call, an emit or a service request for something registered runs that handler with its arguments: what it says first is on the wire first. |
| PluginWire.HandlersSee | sdk/py/tenon.py:300-309 | What a handler sees of its last action is the reply it got or the exception it met. |
| PluginWire.EmitsSwallow | sdk/py/tenon.py:344-353 | However an emit's handler ends, only the end of the wire gets past it. |
| PluginWire.RegistrationsTakeEffect | sdk/py/tenon.py:195-221 | From a registration on, exactly the new hook or service runs its handler and one taken back runs nothing; before the load it is held back to be sent. |
| WsCodec.FrameDecodes | sdk/py/tenon.py:115-142 | Any legal frame, masked or not, in any of the three length forms (section 5.2 of RFC 6455), decodes to its opcode and payload and leaves the rest. |
| WsCodec.DecodeExtends | sdk/py/tenon.py:115-142 | A complete frame decodes the same however many bytes follow. |
| WsCodec.CutFrameWaits | sdk/py/tenon.py:133-135 | A frame cut anywhere is not decoded and nothing is consumed. |
| WsCodec.StreamRoundTrip | sdk/py/tenon.py:115-142 | Any sequence of frames decodes to the same items in order, leaving exactly the tail. |
| WsCodec.EveryChunkingDecodes | sdk/py/tenon.py:93-108 | The same for every way of cutting the stream into chunks. |
| WsCodec.HeaderIsMinimal | sdk/py/tenon.py:151-156 | The header reads back as this opcode, masked and this length, and no header that does is shorter. |
| WsCodec.ClientFrameDecodes | sdk/py/tenon.py:88-91 | What the client sends decodes to the payload (section 5.3 of RFC 6455). |
| WsWire.HeaderOnTheWire | sdk/py/tenon.py:144-156 | The bytes of the header written out: first byte, mask bit with the length or the mark of a longer one, and the length most significant byte first. |
| WsWire.FrameOnTheWire | sdk/py/tenon.py:144-150 | Then the key, and the payload with each bit turned over where the repeated key has a one (section 5.3 of RFC 6455). |
| WsWire.FourBytes | sdk/py/tenon.py:284-292 | What four bytes say as a length. |
| WsClient.WsClient.DecodeOne | sdk/py/tenon.py:115-142 | Decoding in the buffer takes one complete frame off its front or leaves it alone. |
| WsClient.WsClient.RecvText | sdk/py/tenon.py:93-108 | Receiving over any chunks returns what listening to the whole stream gives, leaves exactly the rest, and has sent a pong for each ping passed. |
| WsClient.WsClient.SendText | sdk/py/tenon.py:88-91 | One masked text frame is put on the wire. |
| WsClient.ListenFindsFirst | sdk/py/tenon.py:93-108 | Listening skips control and unknown frames, answers the pings among them, and stops at the first text or close frame. |
| WsWire.OneFrameIsHeard | sdk/py/tenon.py:93-108 | By its opcode: 1 is the message, 8 ends the stream, 9 is answered, anything else is passed over. |
| WsWire.SentTextIsHeard | sdk/py/tenon.py:88-91 | What the client sends as a text starts with 0x81 and is heard as that text. |
| WsWire.PingIsAnswered | sdk/py/tenon.py:104-108 | A ping is answered with a final pong carrying its payload. |
| WsClient.FragmentsAreNotJoined | sdk/py/tenon.py:102-108 | A text message in fragments (section 5.4 of RFC 6455), pings and pongs in between, is heard whole exactly when every continuation is empty; what is heard is its first frame, and the next call passes over the rest to whatever follows. |
| WsClient.ListenSkips | sdk/py/tenon.py:102-108 | Continuations, pings and pongs are passed over, the pings answered, and the stream behind them is heard as if alone. |
| WsClient.HalfAMessage | sdk/py/tenon.py:104-105 | A concrete message in two frames of which only the first half is heard. |
| Framing.PacketsUnpack | sdk/ts/tenon.ts:166-176 | A stream of length-prefixed bodies unpacks to those bodies and the incomplete tail. |
| Framing.WriteAllIsPackets | rs/base/src/frame.rs:23-32 | A writer with any cap emits exactly the packets of the bodies within it and under 2^32 bytes. |
| Framing.WritersReachReaders | sdk/py/tenon.py:266-296 | What any of the three writers emits, the SDK readers return: those bodies, in order, nothing left over. |
| Framing.WritersReachRust | rs/base/src/frame.rs:7-32 | The Rust reader returns them too, exactly when none is over MAX_FRAME. |
| Framing.UnpackSplits | sdk/ts/tenon.ts:166-176 | Unpacking a stream in two parts is unpacking it whole. |
| Framing.Decoder.Feed | sdk/ts/tenon.ts:166-176 | Each chunk dispatches exactly the bodies it completes; the buffer keeps only the incomplete suffix. |
| Framing.Decoder.FeedStream | sdk/ts/tenon.ts:166-176 | Every chunking of a framed stream dispatches the same bodies in order. |
| Framing.Pipe.ReadN | sdk/py/tenon.py:275-282 | Reading a count over short reads gives exactly those bytes, or nothing at the end of the stream. |
| Framing.Pipe.ReadFrame | sdk/py/tenon.py:284-296 | One frame off the front of the stream, however it is delivered. |
| Framing.Pipe.ReadFrames | sdk/py/tenon.py:284-296 | Reading frame after frame gives every whole body of the wire in order. |
| Framing.RustReadsUnderCap | rs/base/src/frame.rs:7-21 | A packet is read back exactly when its body is within MAX_FRAME; a larger one is refused. |
| Framing.RustReadsAll | rs/base/src/frame.rs:7-32 | A written stream of bodies within the cap reads back as the same bodies. |
| Framing.RustReadsCut | rs/base/src/frame.rs:7-21 | A packet cut short ends the stream quietly within its length and is an error within its body. |
| Framing.Writer.Send | sdk/ts/tenon.ts:150-164 | Nothing for a body over the cap or of 2^32 bytes or more. Otherwise the wire gains exactly what the descriptor's answers took of the packet: all of it, once, when they take it; a prefix when one of them is an error or they run out; and it stops at the first of these. |
| Framing.PacketGoesOutIff | sdk/ts/tenon.ts:156-163 | The packet goes out exactly when the descriptor's answers take all of it before the first error among them. |
| Supervisor.Base.StartNode | rs/base/src/base.rs:151-287 | A start takes a new generation and keeps the record's place, restarts, store and budget; where it fails decides whether the old record is still there. |
| Supervisor.Base.SpawnChild | rs/base/src/spawn.rs:59-131 | Refused for the first reason that applies, in the code's order; otherwise a child one level down, under the name wanted or the first free number, and no record when it cannot be started. |
| Supervisor.Base.ChildName | rs/base/src/spawn.rs:187-201 | The name asked for, or the first number that is free under the parent; the search ends. |
| Supervisor.Base.ChildrenOf | rs/base/src/state.rs:146-152 | Exactly the nodes whose parent is the env, in name order. |
| Supervisor.Base.Prune | rs/base/src/spawn.rs:162-178 | Stops and removes exactly the env and what is below it, each node once, children before parents, and nothing else changes. |
| Supervisor.Base.PruneBelow | rs/base/src/spawn.rs:150-160 | The same for everything below an env but not itself. |
| Supervisor.Base.RuntimeStop | rs/base/src/spawn.rs:136-145 | Only a child env can be stopped; its subtree is. |
| Supervisor.Base.StopNodes | rs/base/src/base.rs:522-536 | Every agent is halted once, no node after one it stands below, and the guardian last. |
| Supervisor.Base.Halt | rs/base/src/base.rs:538-563 | The record stays, without process and sandbox. |
| Supervisor.Base.OnExit | rs/base/src/base.rs:368-424 | Only the exit of the env's current process counts: children pruned, and one restart while max_restarts is not used up. |
| Supervisor.Base.ResetEnv | rs/base/src/base.rs:426-477 | A reset starts the env anew with its restarts cleared, and succeeds exactly for an env that is known, is not the guardian and comes up. |
| Supervisor.Base.KernelSwitch | rs/base/src/bluegreen.rs:97-192 | A candidate beside the env, in the env's place, whose exit will be reported for the env. |
| Supervisor.Base.KernelReady | rs/base/src/bluegreen.rs:198-244 | A rejected candidate is dropped; an accepted one takes over the env's record. |
| Supervisor.Base.KernelDrain | rs/base/src/bluegreen.rs:249-260 | The old process is no longer held for draining; the env's record is not touched. |
| SupervisorSpec.StepKeepsInv | rs/base/src/spawn.rs:59-178 | Every step keeps the forest, its depth and size limits, the bound on restarts, distinct generations, and the naming of guardian and candidates. |
| SupervisorRuns.AlwaysABoundedTree | rs/base/src/spawn.rs:73-98 | From boot, in every run: parents exist one level up, depth is at most max_depth, at most max_total agents that are not candidates, generations pairwise distinct. |
| SupervisorSpec.SiblingsAreApart | rs/base/src/state.rs:146-152 | The subtrees of two children of one env have nothing in common. |
| SupervisorRuns.ReplacedProcessesAreIgnored | rs/base/src/base.rs:368-377 | Once a step has taken a process out of the tree, its exit changes nothing, after any further run. |
| SupervisorRuns.ReplacedAreGone | rs/base/src/base.rs:426-477 | A promotion, a rejection and a stop take such processes out, and a reset does exactly unless the new process could not be spawned. |
| SupervisorRuns.ExitAfterResetIsIgnoredIff | rs/base/src/base.rs:368-450 | After a reset the exit of the process it stopped changes nothing, exactly unless the new process could not be spawned and the env is not already down, childless and out of restarts. |
| SupervisorRuns.FailedResetIsHeard | rs/base/src/base.rs:426-450 | After a reset that could not spawn, that exit takes the env down with its children and starts it once more while it has restarts left. |
| SupervisorRuns.FailedResetRestarts | rs/base/src/base.rs:402-423 | A concrete run from boot in which it does. |
| SupervisorRuns.CandidateExitIsIgnored | rs/base/src/bluegreen.rs:166-170 | While it is a candidate, its exit matches nothing. |
| SupervisorRuns.RestartsAreCounted | rs/base/src/base.rs:402-412 | Between resets the counter is exactly the number of automatic restarts, which is at most max_restarts. |
| SupervisorRuns.RestartsSinceReset | rs/base/src/base.rs:454-457 | After a reset it counts from zero. |
| SupervisorRuns.RestartStandsInPlace | rs/base/src/base.rs:207-262 | A node started again by an exit or a reset has a new generation and its old role, parent, depth and store, and its budget unless the reset clears it. |
| SupervisorRuns.OnlyTheseTouchARecord | rs/base/src/base.rs:368-377 | An env's record changes or goes only when its own or an ancestor's current process exits, it or an ancestor is stopped, it is reset, it registers, or its kernel is promoted. |
| SupervisorRuns.RecordOutlivesTheSwitch | rs/base/src/bluegreen.rs:198-215 | So over any run between starting a candidate and rejecting it, with anything else interleaved, the env's record is exactly what it was. |
| SupervisorRuns.RejectionLeavesTheEnv | rs/base/src/bluegreen.rs:206-211 | Whatever happened since the candidate started, rejecting it removes it and nothing else. |
| SupervisorRuns.FailedSwitchLeavesNoTrace | rs/base/src/bluegreen.rs:97-211 | A switch whose candidate is rejected leaves the tree as it was. |
| SupervisorRuns.PromotionMovesTheProcess | rs/base/src/bluegreen.rs:198-310 | One node under the env's name and none under the candidate's, same place, sandbox, store, budget and restarts; the process is the candidate's and the old one is left to be drained. |
| SupervisorRuns.SwitchKeepsForestIff | rs/base/src/bluegreen.rs:212-226 | A promotion or rejection keeps the forest exactly when nothing was spawned under the candidate. |
| SupervisorRuns.ResetKeepsForestIff | rs/base/src/base.rs:207-218 | A reset whose sandbox fails keeps the forest exactly when the env has no children. |
| SupervisorLife.BootStands | rs/base/src/base.rs:151-287 | A base comes up with the guardian and the root env running, and nothing else. |
| SupervisorLife.SpawnedIff | rs/base/src/spawn.rs:59-131 | The exact condition for a child to come up, and what then stands: one level below, a process, sandbox and store of its own. Otherwise the tree is what it was. |
| SupervisorLife.ExitIsHandled | rs/base/src/base.rs:368-424 | The exit of the current process takes exactly what is below the env out of the tree; the env has a new, counted process while it has restarts left and none after that. |
| SupervisorLife.StoppedIsGone | rs/base/src/spawn.rs:136-178 | Stopping a child env takes exactly it and what is below it out of the tree. |
| SupervisorLife.RegisteredIff | rs/base/src/base.rs:306-340 | An env counts as registered exactly when its current process has said so. |
| SupervisorLife.SwitchStandsCandidate | rs/base/src/bluegreen.rs:97-192 | A switch that can be made and spawned stands exactly one candidate beside the env: a shadow in its place with the new process and nothing else; any other leaves the tree as it was. |
| SupervisorLife.CandidateStays | rs/base/src/bluegreen.rs:166-192 | It stands through any run that neither stops nor kills what is above it, nor switches or decides it. |
| SupervisorLife.SwitchedIsPromoted | rs/base/src/bluegreen.rs:97-310 | A switch, any run that leaves env and candidate alone, then healthy: the env runs exactly the process the switch started, with all it had, the old process is left to be drained, and no candidate is left. |
| SupervisorLife.DrainedIsForgotten | rs/base/src/bluegreen.rs:249-260 | Draining forgets the old process and changes nothing else. |
| Approvals.Base.Decide | rs/base/src/approvals.rs:78-115 | Sweep, then a verdict on the spot for auto and deny, and the queue otherwise. |
| Approvals.Base.Enqueue | rs/base/src/approvals.rs:117-155 | A pending row with its waiter and its timer, or an error when the row cannot be written. |
| Approvals.Base.ApprovalAnswer | rs/base/src/approvals.rs:172-227 | A pending row gets the human's verdict and its waiter is told; otherwise an error and no change. |
| Approvals.Base.ApprovalExpire | rs/base/src/approvals.rs:230-253 | The timer of a waiting request expires its row and tells its waiter; otherwise nothing. |
| Approvals.Base.SweepApprovals | rs/base/src/approvals.rs:257-271 | Exactly the listed pending rows that nobody here waits for and that are old enough expire. |
| Approvals.Base.Wake | rs/base/src/approvals.rs:288-306 | An approved gate puts its command back as approved; any other verdict answers the caller. |
| Approvals.Base.OnSnapExport | rs/base/src/approvals.rs:362-384 | Performed when approved or ungated, and held for a verdict otherwise. |
| Approvals.Base.OnSpawn | rs/base/src/spawn.rs:14-53 | The same, gated at or past a soft limit that is not 0. |
| Approvals.Base.ConfigPatch | rs/base/src/envrpc.rs:125-156 | The same, gated for base's own config always and for an env's when configured; a patch that is no object is refused first. |
| ApprovalSpec.StepKeepsInv | rs/base/src/approvals.rs:78-306 | Every step keeps the queue, the verdicts, the passes and the place of every reply in order. |
| ApprovalRuns.AnswersMatchRows | rs/base/src/approvals.rs:172-271 | In every run: pending is exactly the PENDING rows of this boot, whoever was told about a row was told its final status, and nobody else was told about it. |
| ApprovalRuns.DecisionsAreFinal | rs/base/src/approvals.rs:180-190 | A decided row never changes again, and no verdict, answer or performed action is ever replaced. |
| ApprovalRuns.RowsMoveForAReason | rs/base/src/approvals.rs:172-271 | A row leaves PENDING only by a human's words (denied for four words, approved for any other), by its own timer, or by age when an earlier process left it. |
| ApprovalRuns.DecidingReleases | rs/base/src/approvals.rs:196-253 | Answering or expiring a waiting request tells its waiter the status the row then has. |
| ApprovalRuns.RepliesAreNeverLost | rs/base/src/approvals.rs:276-306 | In every run each command's reply is in exactly one place: queued, held, waking, answered, or lost with an earlier process. |
| ApprovalRuns.TimersDrainTheQueue | rs/base/src/approvals.rs:150-155 | Once timers have fired and queues are worked off, every command of this boot has its one answer and no row of it is pending. |
| ApprovalRuns.GatedActionsWereApproved | rs/base/src/approvals.rs:276-306 | Unless some command is handled in mode auto while the store refuses the row, over every run: an export performed while exports are gated, a spawn performed at or past a non-zero soft limit, a patch of base's own config, and a patch of an env's performed while those are gated came only after a row of exactly that kind became APPROVED; or, the last, as the promotion of an upgrade. Limits and kinds are written out, against the configuration and count each action was performed under. |
| ApprovalRuns.GatedActionsHaveAPass | rs/base/src/envrpc.rs:137-156 | Without that assumption: what was performed past a limit, and every patch of base's own config, has a pass naming its verdict. |
| ApprovalRuns.OneCommandPerRow | rs/base/src/approvals.rs:296-298 | Each approved row lets at most one command through. |
| ApprovalRuns.ApprovedWithoutRow | rs/base/src/approvals.rs:88-99 | A request is approved without a row exactly when the mode is auto and the store refuses it. |
| ApprovalRuns.AutoNeedsNoRow | rs/base/src/approvals.rs:88-99 | A concrete run in which a gated export goes through with no row anywhere. |
| ApprovalRuns.UpgradePassesTheGate | rs/base/src/drive.rs:261-265 | Under any configuration that gates patches, a concrete run in which a promoted upgrade patches an env's config with no row of that or any kind. |
| ApprovalGates.PerformedAtOnce | rs/base/src/spawn.rs:14-30 | A command that is approved, or below the limits, is performed by the very step that handles it and adds no row. |
| ApprovalGates.HeldAtTheGate | rs/base/src/approvals.rs:78-155 | An unapproved command past its limit is not performed: a row of its env and kind is written with the mode's status, and it is decided at once, held for a human with a timer, or turned away when no row can be written. |
| ApprovalGates.AskedIsDecided | rs/base/src/approvals.rs:78-155 | The same for a request for approval by hand, by its own mode and under the kind it names. |
| ApprovalGates.HumanDecides | rs/base/src/approvals.rs:172-227 | A held command is performed when it is handled again after any answer but deny, denied, no and false, and its caller is refused after one of these. |
| ApprovalGates.OrphansExpire | rs/base/src/approvals.rs:257-271 | After a restart, a sweep that lists a row of the process before expires it exactly if it was PENDING and is old enough. |
| ApprovalGates.WaitingRowsStay | rs/base/src/approvals.rs:257-271 | A row that is waited for here is moved by no sweep. |
| Mirror.Walk.ProjectValue | bridge/dsh/src/mirror.ts:59-98 | On every heap it terminates, restores seen, and returns the recursive projection. |
| Mirror.Walk.ProjectRecord | bridge/dsh/src/mirror.ts:44-57 | The readable properties in order, with what assigning __proto__ does, and seen restored. |
| Mirror.Walk.ProjectArgs | bridge/dsh/src/mirror.ts:100-109 | Each argument is projected as if it were alone. |
| Mirror.RowsLookup | bridge/dsh/src/mirror.ts:44-57 | A record shows exactly the listed properties that can be read and projected, apart from __proto__: that one is shown exactly when it projects to null, or to a record whose own prototype was nulled, and is named at least twice. |
| Mirror.ListedLookup | bridge/dsh/src/mirror.ts:88-93 | So an object shown by its own keys, each listed once, never shows a __proto__. |
| Mirror.OutputMirrorsGraph | bridge/dsh/src/mirror.ts:59-98 | Every place in the output is a place of the graph at most 4 deep, reached without passing an object twice, showing that value's own projection. |
| Mirror.GraphShowsInOutput | bridge/dsh/src/mirror.ts:76-96 | Conversely, whatever is within the limits and reached through other keys than __proto__ without passing an object twice is shown, shared objects each time. |
| Mirror.PlacesShowTheirValues | bridge/dsh/src/mirror.ts:59-98 | What stands at every place: a primitive as itself, texts cut at 4096 characters, a list with its first 64 items, a record as a record, and each marker exactly where there is a reason for it. |
| Mirror.RowsInOrder | bridge/dsh/src/mirror.ts:44-57 | A record shows its properties in the order they are listed, each once. |
| Mirror.ProtoIsNeverShown | bridge/dsh/src/mirror.ts:54 | Nothing is ever shown under a key __proto__ anywhere in an unpicked value: assigning it once adds no property. |
| Mirror.ProtoIsLost | bridge/dsh/src/mirror.ts:54 | A concrete object with such a key, shown without it. |
| Mirror.CircularIsBackReference | bridge/dsh/src/mirror.ts:75-78 | [circular] stands exactly where the graph points back at an object on the way there. |
| Mirror.ProjectionIsBounded | bridge/dsh/src/mirror.ts:3-5 | At most (64^5 - 1) / 63 = 17043521 nodes. |
| Mirror.PickedCircular | bridge/dsh/src/mirror.ts:100-109 | With a pick the argument itself does not count as an ancestor: the exact condition for [circular] there. |
| Mirror.PickedRootIsShownTwice | bridge/dsh/src/mirror.ts:103-105 | A concrete object that is shown once more because it is picked. |
| Mirror.PickedTwiceIsShown | bridge/dsh/src/mirror.ts:54 | A concrete object and pick that does show it: a null __proto__ named twice. |
| Mirror.PickedIsBounded | bridge/dsh/src/mirror.ts:103-105 | The bound with a pick, which is not cut to 64 keys. |
| DeepMerge.Document.Merge | rs/base/src/home.rs:410-424 | Merging in place gives the recursive merge. |
| DeepMerge.MergeIdempotent | rs/base/src/home.rs:410-424 | Applying any patch twice is applying it once. |
| DeepMerge.MergeKeepsSparedPaths | rs/base/src/home.rs:413-420 | Every path the patch does not cover reads as before. |
| DeepMerge.MergeSetsLeaves | rs/base/src/home.rs:413-420 | Every non-object the patch sets is there afterwards. |
| DeepMerge.ComposeIffNoConflict | rs/base/src/home.rs:410-424 | Two patches can be merged first, for every document, exactly when no path has a non-object in the first and an object in the second. |

## Left out

- KvFacade.KvFacade.IncrKey: the sum wraps at 64 bits as a release build does; a build with overflow checks would stop instead.
- Values in the store are text or a structured route instead of bytes; the lossy UTF-8 view of a value in an event is not modelled.
- KvFacade.KvFacade.GrantLease: lease numbers are unique within one process; a later process with the same pid may issue the same text again.
- The ingress liveness probe's count of misses, the ingress approval gate, and listing routes for a scoped caller.
- KvWatch.WatcherAgrees: a watcher that resumes from a later revision is not covered, because the snapshot does not report deletions.
- Limiter.Limiter.TryAcquire: floating-point rounding of tokens and overflow of the 32- and 64-bit counters are not modelled.
- PluginLoop.Plugin.Run: write failures on the wire, user code that catches the unload exception, Python's recursion limit and the unload handler are not modelled; the names in two refusals are shortened; a request whose own number is a list or an object, on which `next` raises, is not modelled; the TypeScript loop, which does not wait inside a dispatch, is not modelled.
- WsClient.WsClient.RecvText: the handshake is not modelled.
- Framing: JSON parsing of the bodies.
- Supervisor: processes, sockets, workers, harnesses, tokens, release directories and gateways; a node is its place in the tree, its process, its counters and the identity of its sandbox, store and budget.
- Approvals: the copy of each row in the env's own state file, events, notifications to the guardian, and the performing of an export, spawn or patch once it is let through.
- Approvals.Base.Enqueue: a request has one waiter, as every caller of the code gives it; the list of waiters is not modelled as a list.
- Mirror.Walk.ProjectRecord: the order JavaScript gives integer-like keys, and getters that answer differently each time.
- The other parts of the bridge's mirror: truncating to the frame, merging replies back, and denials.
- The hub, the storage crate, the loader, snapshots, the HTTP surface, method policy and configuration defaults: not part of this model.
