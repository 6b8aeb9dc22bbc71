/**
 The per-user cooldown gate of the CoinThrow plugin: a dictionary from a
 player's SteamID (as a string) to the time of that player's last accepted
 throw, and the query that decides whether a new throw must wait.

 Time is an integer clock in milliseconds, passed in by the caller in place
 of `DateTime.Now`.
 */
module Cooldown {

  /** `CooldownSeconds` of the plugin. */
  const COOLDOWN_SECONDS: int := 10
  const MS_PER_SECOND: int := 1000
  /** The cooldown window on the millisecond clock. */
  const COOLDOWN_MS: int := COOLDOWN_SECONDS * MS_PER_SECOND

  /** The answer of `IsOnCooldown`: its boolean result and its `remainingSeconds` out-parameter (in ms). */
  datatype Status = Status(onCooldown: bool, remainingMs: int)

  /**
   A player is on cooldown when they have an entry and less than the window
   has elapsed since it; the remaining time is then the rest of the window,
   and 0 otherwise.
   */
  function IsOnCooldown(lastThrows: map<string, int>, steamId: string, now: int): (st: Status)
    ensures st.onCooldown <==> steamId in lastThrows && now < lastThrows[steamId] + COOLDOWN_MS
    ensures st.onCooldown ==> 0 < st.remainingMs && now + st.remainingMs == lastThrows[steamId] + COOLDOWN_MS
    ensures !st.onCooldown ==> st.remainingMs == 0
  {
    if steamId in lastThrows then
      var elapsed := now - lastThrows[steamId];
      if elapsed < COOLDOWN_MS then Status(true, COOLDOWN_MS - elapsed) else Status(false, 0)
    else
      Status(false, 0)
  }

  /** A player who has never thrown is admitted, and the reported remaining time is 0. */
  lemma NeverThrownIsAdmitted(lastThrows: map<string, int>, steamId: string, now: int)
    requires steamId !in lastThrows
    ensures IsOnCooldown(lastThrows, steamId, now) == Status(false, 0)
  {
  }

  /** With a clock that has not gone backwards, the remaining time lies in (0, window]. */
  lemma RemainingWithinWindow(lastThrows: map<string, int>, steamId: string, now: int)
    requires steamId in lastThrows && lastThrows[steamId] <= now
    requires IsOnCooldown(lastThrows, steamId, now).onCooldown
    ensures 0 < IsOnCooldown(lastThrows, steamId, now).remainingMs <= COOLDOWN_MS
  {
  }

  /** Right after an entry is written, a check at the same instant reports the whole window. */
  lemma JustRecordedIsOnCooldown(lastThrows: map<string, int>, steamId: string, now: int)
    ensures IsOnCooldown(lastThrows[steamId := now], steamId, now) == Status(true, COOLDOWN_MS)
  {
  }

  /** Writing one player's entry does not change any other player's answer. */
  lemma RecordIsolated(lastThrows: map<string, int>, steamId: string, at: int, other: string, now: int)
    requires other != steamId
    ensures IsOnCooldown(lastThrows[steamId := at], other, now) == IsOnCooldown(lastThrows, other, now)
  {
  }

  /** While a player stays on cooldown, the remaining time falls by exactly the time that passed. */
  lemma RemainingCountsDown(lastThrows: map<string, int>, steamId: string, t1: int, t2: int)
    requires t1 <= t2
    requires IsOnCooldown(lastThrows, steamId, t2).onCooldown
    ensures IsOnCooldown(lastThrows, steamId, t1).onCooldown
    ensures IsOnCooldown(lastThrows, steamId, t2).remainingMs
            == IsOnCooldown(lastThrows, steamId, t1).remainingMs - (t2 - t1)
  {
  }
}
