# CoinThrow in Dafny

A verified model of the CoinThrow game-server plugin. The plugin provides the
`css_cointhrow` command. A player who passes a validity guard and a 10-second
per-player cooldown throws a coin. The outcome is drawn once. A text roulette
then shows five spinning frames. After that, the `onComplete` callback
announces the result and the player's stored throw total to everybody. The
result frame is then re-rendered ten times and the display is cleared.

Three modules, one per component of `CoinThrow.cs`:

- `Cooldown` (`cooldown.dfy`): the `_lastCoinThrowTimes` dictionary as a
  `map<string, int>`. It has the pure query `IsOnCooldown` and lemmas about
  how the answer changes with time and with updates. The clock is an
  integer count of milliseconds, passed in by the caller.
- `Roulette` (`roulette.dfy`): `ShowTextRoulette`.
  - `Next` is the count-down state machine of `SpinStep`/`HoldResult`.
  - `Trace` gives every event a session produces.
  - `Expected` is an independent reference definition of a session, and
    `FullTraceIsExpected` proves that the machine produces exactly it.
  - Class `Session` keeps `remainingFlips`, `count` and a phase as fields.
    Its `Step` method is one timer callback.
  - `RunToEnd` plays the host's timer queue and runs a session to its end.
- `CoinThrow` (`coin_throw.dfy`): the command.
  - `Decide` and `ThrowsAfter` are the pure specification of what an
    invocation answers and how it changes the dictionary.
  - `OnComplete` is the completion callback.
  - Class `CoinThrowPlugin` holds the dictionary. Its methods are
    `UpdateLastCoinThrowTime` and `OnCoinThrowCommand`.

Things the code does that a reader might not expect. The model follows the
code in each case:

- The cooldown entry is written when the command runs (`CoinThrow.cs:84`).
  At that point only the first spinning frame has been shown. The entry
  does not wait for the animation to finish or for `onComplete` to run.
- `onComplete` runs at the terminal step `SpinStep(0)`, before any result
  frame (`CoinThrow.cs:117`). The terminal step does not print the result
  frame itself. It calls `HoldResult(10)` at once, and that prints the
  frame for counts 10 down to 1. So a session shows 5 spinning frames and 10
  result frames, and then clears the display once (16 centre-display
  updates). Those updates are 17 events together with the completion call.
- The animation never checks whether the player is still valid.
- Nothing but the cooldown stops a second session for the same player.
  A session lasts 3.5 s and the cooldown is 10 s. Two sessions of one
  player never overlap if timers fire on time and the clock advances in
  step with the timers (`SessionsOfOnePlayerDoNotOverlap`). The source
  reads local wall-clock time, so a forward jump such as a daylight-saving
  change can admit a second session while the first is still running.
- The spinning frames show `options[remainingFlips % 2]` for
  `remainingFlips` = 5..1: Tails, Heads, Tails, Heads, Tails. The result
  frames show the drawn outcome, never a side taken from that index.

## Model

| member | source | states |
|---|---|---|
| `Cooldown.IsOnCooldown` | CoinThrow.cs:34-48 | A player is on cooldown iff they have an entry and `now` lies before the entry plus 10 s. If so, the remaining time is positive and ends exactly when the window ends. Otherwise it is 0. |
| `Cooldown.NeverThrownIsAdmitted` | CoinThrow.cs:34-47 | A player with no entry is never on cooldown, and the reported remaining time is 0. |
| `Cooldown.RemainingWithinWindow` | CoinThrow.cs:38-43 | With an entry not in the future, a rejection reports a remaining time in (0, 10 s]. |
| `Cooldown.JustRecordedIsOnCooldown` | CoinThrow.cs:36-51 | Right after a player's entry is set to `now`, a check at `now` rejects that player with the whole 10 s remaining. |
| `Cooldown.RecordIsolated` | CoinThrow.cs:50-51 | Writing one player's entry leaves every other player's cooldown answer unchanged. |
| `Cooldown.RemainingCountsDown` | CoinThrow.cs:38-41 | A player on cooldown at `t2` was also on cooldown at any earlier `t1`. The remaining time fell by exactly `t2 - t1`. |
| `Roulette.ResultSide` | CoinThrow.cs:110 | The result shown is Heads exactly when the draw was heads. |
| `Roulette.Next` | CoinThrow.cs:93-134 | Every callback of the roulette lowers a well-founded measure and produces at least one event, so the count-down terminates. |
| `Roulette.HoldingTrace` | CoinThrow.cs:121-133 | From `HoldResult(n)` on, the display shows the result exactly n times and then is cleared once. |
| `Roulette.SpinningTrace` | CoinThrow.cs:93-134 | From `SpinStep(r)` on, the callbacks produce r spinning frames, then one completion call, then 10 result frames and one clear. Each spinning frame shows `options[k % 2]` for its own `k`. This holds for any value of the hold counter, which is unused while spinning. |
| `Roulette.FullTraceIsExpected` | CoinThrow.cs:87-138 | The state machine started at `SpinStep(5)` produces exactly the reference session `Expected`. |
| `Roulette.SessionFrames` | CoinThrow.cs:89-137 | A session is Spin Tails, Heads, Tails, Heads, Tails, then Complete, then 10 result frames of the drawn side, then Clear. That is 17 events. |
| `Roulette.CompleteExactlyOnce` | CoinThrow.cs:107-117 | `onComplete` runs exactly once per session, at the terminal step right after the fifth spinning frame. |
| `Roulette.ResultFramesShowOutcome` | CoinThrow.cs:107-133 | Every result frame shows the drawn outcome and comes after `onComplete`. The first one directly follows `onComplete`. |
| `Roulette.ClearedOnceAtEnd` | CoinThrow.cs:121-127 | The display is cleared exactly once, by the last event of the session. |
| `Roulette.HoldingTime` | CoinThrow.cs:120-130 | From `HoldResult(n)`, the remaining callbacks take n × 0.2 s. |
| `Roulette.SpinningTime` | CoinThrow.cs:90-133 | From `SpinStep(r)`, the remaining callbacks take r × 0.3 s + 10 × 0.2 s, whatever the unused hold counter holds. |
| `Roulette.SessionDuration` | CoinThrow.cs:90-137 | A session lasts 3.5 s from its first spinning frame to the clear. |
| `Roulette.Session.constructor` | CoinThrow.cs:89-91 | A new session has `SpinStep(5)` pending and has produced nothing. `count` is 0, because it is unused until `SpinStep(0)` runs. |
| `Roulette.Session.Step` | CoinThrow.cs:93-134 | One callback moves the counters and appends the events as `Next` says. It returns the timer it schedules (0.3 s, 0.2 s or none) and keeps the invariant that produced plus pending events form the whole session. Once done, the session has produced exactly `Expected`. |
| `Roulette.Session.HoldResult` | CoinThrow.cs:121-131 | At 0 it clears and schedules nothing. Otherwise it re-renders the result, lowers the count by 1 and schedules 0.2 s. `remainingFlips` is untouched. It is a helper that only `Step` calls. |
| `Roulette.Start` | CoinThrow.cs:87-138 | `ShowTextRoulette` makes a fresh session and runs `SpinStep(5)` at once. The first Tails frame is shown and `SpinStep(4)` is scheduled 0.3 s later. |
| `Roulette.RunToEnd` | CoinThrow.cs:93-137 | Firing each scheduled callback in order, the session produces exactly `Expected` and lasts 3.5 s. |
| `CoinThrow.Decide` | CoinThrow.cs:54-69 | An invocation is ignored iff the guard fails. It throws iff it passes the guard and the cooldown, and the outcome is Heads iff `Random.Next(2)` gave 0. A rejection names the rest of the window, which is positive. |
| `CoinThrow.ThrowsAfter` | CoinThrow.cs:54-85 | Only an admitted invocation writes the dictionary, and it sets the player's entry to `now`. An ignored or rejected one leaves the dictionary unchanged. Other players' entries never change. |
| `CoinThrow.OnComplete` | CoinThrow.cs:69-82 | The completion callback announces the player's name with the drawn side, then the stored total. The total is 0 when there is no database. |
| `CoinThrow.SessionChatOnce` | CoinThrow.cs:69-117 | A session run to its end announces the result and the total exactly once, because `onComplete` runs once. |
| `CoinThrow.AnnouncementMatchesDisplay` | CoinThrow.cs:69-133 | The announcement names the invoking player, and the side it announces is the side every result frame of that session shows. |
| `CoinThrow.SecondThrowWithinWindowRefused` | CoinThrow.cs:54-85 | After an admitted throw at `t1`, the same player at `t2` in `[t1, t1 + 10 s)` is refused with `10 s - (t2 - t1)` remaining, and the dictionary stays unchanged. |
| `CoinThrow.SessionsOfOnePlayerDoNotOverlap` | CoinThrow.cs:61-133 | On the `now` clock, once a player's entry is `t1`, their next admitted throw comes at least 10 s later. That is more than the 3.5 s the session started at `t1` lasts. |
| `CoinThrow.CoinThrowPlugin.constructor` | CoinThrow.cs:13 | The plugin starts with an empty cooldown dictionary. |
| `CoinThrow.CoinThrowPlugin.UpdateLastCoinThrowTime` | CoinThrow.cs:50-51 | It overwrites this player's entry with `now` and changes no other entry. |
| `CoinThrow.CoinThrowPlugin.OnCoinThrowCommand` | CoinThrow.cs:53-85 | It answers as `Decide` says and leaves the dictionary as `ThrowsAfter` says. A session exists iff the coin was thrown. That session is fresh, holds the drawn outcome, has shown its first spinning frame and still has `SpinStep(4)` pending, while the cooldown entry is already written. |

## Left out

- The host API (`PrintToChat`, `PrintToChatAll`, `PrintToCenterHtml`, `AddTimer`, the player controller, the command attribute) is not modelled. Centre-display updates and the completion call are `Event` values. A scheduled timer is a `Timer` value that `Step` returns.
- `RunToEnd` and `SessionsOfOnePlayerDoNotOverlap` assume that each timer fires exactly after its delay. Host scheduling jitter is not modelled.
- SessionsOfOnePlayerDoNotOverlap: it is stated on the `now` clock. It shows that sessions do not overlap in real time only if that clock advances in step with the timers. `DateTime.Now` is local wall-clock time. If it jumps forward, for example by one hour at a daylight-saving change, a second command one real second after the first is admitted, and the two sessions overlap.
- HTML and chat-colour formatting, `Config.ServerBrand`, and the `F0` rounding of the remaining seconds are not modelled. The remaining time is exact, in milliseconds.
- `DateTime.Now` is an integer millisecond clock passed in as `now`. The command uses one `now` for both its check and its update. The source reads the clock twice, a few instructions apart.
- The clock is not assumed to be monotone. The source uses local time. If the clock goes backwards, `IsOnCooldown` reports more than 10 s remaining, exactly as the formula gives. `RemainingWithinWindow` states its bound only for a clock that has not gone backwards.
- The `0.3f` and `0.2f` timer delays are the integers 300 ms and 200 ms. `TotalSeconds` as a `double` is replaced by integer milliseconds.
- `Random.Next(2)` is not modelled. The draw is the parameter `roll` in [0, 2). Fairness of the draw is not modelled.
- OnComplete: assumed to return normally. `onComplete` runs inside the `SpinStep(0)` callback with no exception handling. `?? 0` covers only a missing database, not an `IncrementPlayerThrows` call that throws. If that call throws, the callback stops after `Complete`. Then there is no total line, no result frame and no `Clear`, and the last Tails spinning frame stays on screen. `Next`, `SessionFrames`, `ClearedOnceAtEnd`, `RunToEnd` and `Session.Step`'s promise of `Expected` once done all describe only the case where the call returns.
- The `Database` class, `IncrementPlayerThrows` and `Load` are not part of this model, because they do network I/O and plugin start-up. The total that `onComplete` gets is the parameter `storedTotal`, with `None` for a missing database.
- The player's SteamID is used as a string, standing for `SteamID.ToString()`. The model does not cover the 64-bit number or its formatting.
- `OnCoinThrowCommand` returns the started session and does not run its later callbacks itself. `RunToEnd` and the trace lemmas describe those callbacks. The database call made by `onComplete` is not performed by the command.
