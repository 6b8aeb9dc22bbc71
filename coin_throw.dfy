/**
 The `css_cointhrow` command of the CoinThrow plugin: a validity guard, the
 cooldown check, one binary draw, the start of the text roulette, and the
 cooldown update, in that order; and the `onComplete` callback that announces
 the result and the player's total.

 The random draw (`Random.Next(2)`), the clock and the throw total returned
 by the database are parameters.
 */
module CoinThrow {
  import opened Cooldown
  import opened Roulette

  datatype Option<T> = None | Some(value: T)

  /**
   The invoking player as the command sees it: `SteamID.ToString()`,
   `PlayerName`, whether `PlayerPawn.Value` is set, and `IsValid`.
   */
  datatype Player = Player(steamId: string, name: string, hasPawn: bool, isValid: bool)

  /** How one invocation ended. */
  datatype Reply =
    | Ignored                          // the validity guard returned early
    | CooldownMessage(remainingMs: int) // the player was told to wait
    | Thrown(outcome: Side)             // a coin was thrown and the roulette started

  /** The two chat lines `onComplete` sends to everybody. */
  datatype Broadcast =
    | ResultAnnounced(playerName: string, result: Side)
    | TotalAnnounced(total: int)

  /** The guard: a player is present, has a pawn, and is valid. */
  predicate CanThrow(player: Option<Player>) {
    player.Some? && player.value.hasPawn && player.value.isValid
  }

  /** The command gets past the guard and the cooldown check. */
  predicate Admitted(lastThrows: map<string, int>, player: Option<Player>, now: int) {
    CanThrow(player) && !IsOnCooldown(lastThrows, player.value.steamId, now).onCooldown
  }

  /** What an invocation does, given the draw `roll` of `Random.Next(2)`. */
  function Decide(lastThrows: map<string, int>, player: Option<Player>, now: int, roll: int): (r: Reply)
    requires 0 <= roll < 2
    ensures r.Ignored? <==> !CanThrow(player)
    ensures r.Thrown? <==> Admitted(lastThrows, player, now)
    ensures r.Thrown? ==> (r.outcome == Heads <==> roll == 0)
    ensures r.CooldownMessage? ==>
              && player.value.steamId in lastThrows
              && 0 < r.remainingMs
              && now + r.remainingMs == lastThrows[player.value.steamId] + COOLDOWN_MS
  {
    if !CanThrow(player) then Ignored
    else
      var status := IsOnCooldown(lastThrows, player.value.steamId, now);
      if status.onCooldown then CooldownMessage(status.remainingMs)
      else Thrown(ResultSide(roll == 0))
  }

  /** The cooldown dictionary after an invocation: only an admitted player's entry is written. */
  function ThrowsAfter(lastThrows: map<string, int>, player: Option<Player>, now: int): (m: map<string, int>)
    ensures Admitted(lastThrows, player, now) ==>
              player.value.steamId in m && m[player.value.steamId] == now
    ensures !Admitted(lastThrows, player, now) ==> m == lastThrows
    ensures forall id :: (player.None? || id != player.value.steamId) ==>
              (id in m <==> id in lastThrows) && (id in m ==> m[id] == lastThrows[id])
  {
    if Admitted(lastThrows, player, now) then lastThrows[player.value.steamId := now] else lastThrows
  }

  /** `onComplete`: announce the result, then the total, which is 0 when there is no database. */
  function OnComplete(playerName: string, isHeads: bool, storedTotal: Option<int>): (b: seq<Broadcast>)
    ensures |b| == 2 && b[0].ResultAnnounced? && b[1].TotalAnnounced?
    ensures b[0].playerName == playerName && (b[0].result == Heads <==> isHeads)
    ensures storedTotal.None? ==> b[1].total == 0
    ensures storedTotal.Some? ==> b[1].total == storedTotal.value
  {
    var total := match storedTotal case Some(t) => t case None => 0;
    [ResultAnnounced(playerName, ResultSide(isHeads)), TotalAnnounced(total)]
  }

  /** The chat lines produced when the events of a session run: `onComplete` for each completion call. */
  function ChatOf(events: seq<Event>, playerName: string, isHeads: bool, storedTotal: Option<int>): seq<Broadcast> {
    if events == [] then []
    else
      (if events[0] == Complete then OnComplete(playerName, isHeads, storedTotal) else [])
      + ChatOf(events[1..], playerName, isHeads, storedTotal)
  }

  lemma {:induction false} ChatOfConcat(a: seq<Event>, b: seq<Event>, name: string, isHeads: bool, total: Option<int>)
    ensures ChatOf(a + b, name, isHeads, total) == ChatOf(a, name, isHeads, total) + ChatOf(b, name, isHeads, total)
  {
    if a != [] {
      assert (a + b)[1..] == a[1..] + b;
      ChatOfConcat(a[1..], b, name, isHeads, total);
    } else {
      assert a + b == b;
    }
  }

  lemma {:induction false} ChatOfNoCompletion(a: seq<Event>, name: string, isHeads: bool, total: Option<int>)
    requires Complete !in a
    ensures ChatOf(a, name, isHeads, total) == []
  {
    if a != [] {
      ChatOfNoCompletion(a[1..], name, isHeads, total);
    }
  }

  /**
   A session that runs to its end announces its result and total exactly
   once: `onComplete` runs once.
   */
  lemma SessionChatOnce(player: Player, isHeads: bool, total: Option<int>)
    ensures ChatOf(FullTrace(isHeads), player.name, isHeads, total) == OnComplete(player.name, isHeads, total)
  {
    var name := player.name;
    FullTraceIsExpected(isHeads);
    var side := ResultSide(isHeads);
    var spins, holds := SpinFrames(FLIPS), HoldFrames(REPEATS, side) + [Clear];
    assert Expected(isHeads) == spins + ([Complete] + holds);
    ChatOfConcat(spins, [Complete] + holds, name, isHeads, total);
    ChatOfConcat([Complete], holds, name, isHeads, total);
    assert Complete !in spins;
    ChatOfNoCompletion(spins, name, isHeads, total);
    assert Complete !in holds;
    ChatOfNoCompletion(holds, name, isHeads, total);
    assert ChatOf([Complete], name, isHeads, total) == OnComplete(name, isHeads, total) + ChatOf([], name, isHeads, total);
  }

  /**
   The announcement names the invoking player (`player.PlayerName`), and the
   side it announces is the side every result frame of the same session shows.
   */
  lemma AnnouncementMatchesDisplay(player: Player, isHeads: bool, total: Option<int>)
    ensures OnComplete(player.name, isHeads, total)[0].playerName == player.name
    ensures var tr := FullTrace(isHeads);
            forall i :: 0 <= i < |tr| && tr[i].Hold? ==> tr[i].shown == OnComplete(player.name, isHeads, total)[0].result
  {
    ResultFramesShowOutcome(isHeads);
  }

  /**
   After an admitted throw at `t1`, the same player is refused at any `t2`
   within the window, told the rest of the window, and the dictionary stays
   as it is.
   */
  lemma SecondThrowWithinWindowRefused(lastThrows: map<string, int>, player: Option<Player>, t1: int, t2: int, roll: int)
    requires 0 <= roll < 2
    requires Admitted(lastThrows, player, t1)
    requires t1 <= t2 < t1 + COOLDOWN_MS
    ensures var m := ThrowsAfter(lastThrows, player, t1);
            && Decide(m, player, t2, roll) == CooldownMessage(COOLDOWN_MS - (t2 - t1))
            && ThrowsAfter(m, player, t2) == m
  {
  }

  /**
   Only the cooldown keeps one player's sessions apart: once a player's
   entry says `t1`, the next admitted throw comes at least the window
   later on the `now` clock, which is longer than a session (3.5 s). So
   the earlier session has cleared the display before the next starts,
   provided the timers fire on time and the clock advances in step with
   them. A forward jump of local time admits an overlapping second session.
   */
  lemma SessionsOfOnePlayerDoNotOverlap(lastThrows: map<string, int>, player: Option<Player>, t1: int, t2: int, isHeads: bool)
    requires CanThrow(player)
    requires player.value.steamId in lastThrows && lastThrows[player.value.steamId] == t1
    requires Admitted(lastThrows, player, t2)
    ensures t2 >= t1 + COOLDOWN_MS
    ensures t1 + RunningMs(Initial(), isHeads) < t2
  {
    SessionDuration(isHeads);
  }

  /** The plugin's mutable state: the `_lastCoinThrowTimes` dictionary. */
  class CoinThrowPlugin {
    var lastCoinThrowTimes: map<string, int>

    constructor ()
      ensures lastCoinThrowTimes == map[]
    {
      lastCoinThrowTimes := map[];
    }

    /** Overwrite this player's entry with the current time. */
    method UpdateLastCoinThrowTime(steamId: string, now: int)
      modifies this
      ensures lastCoinThrowTimes == old(lastCoinThrowTimes)[steamId := now]
    {
      lastCoinThrowTimes := lastCoinThrowTimes[steamId := now];
    }

    /**
     `OnCoinThrowCommand`: the guard, the cooldown check, the draw, the
     roulette (its first spinning frame is shown at once), then the
     cooldown entry, written before the animation has finished.
     */
    method OnCoinThrowCommand(player: Option<Player>, now: int, roll: int) returns (reply: Reply, session: Session?)
      requires 0 <= roll < 2
      modifies this
      ensures reply == Decide(old(lastCoinThrowTimes), player, now, roll)
      ensures lastCoinThrowTimes == ThrowsAfter(old(lastCoinThrowTimes), player, now)
      ensures session != null <==> reply.Thrown?
      ensures session != null ==>
                && fresh(session) && session.Valid() && session.isHeads == (roll == 0)
                && session.emitted == [Spin(Tails)]
                && session.Current() == Counters(Spinning, FLIPS - 1, 0)
    {
      if player.None? || !player.value.hasPawn || !player.value.isValid {
        return Ignored, null;
      }
      var steamId := player.value.steamId;
      var status := IsOnCooldown(lastCoinThrowTimes, steamId, now);
      if status.onCooldown {
        return CooldownMessage(status.remainingMs), null;
      }
      var isHeads := roll == 0;
      var timer;
      session, timer := Start(isHeads);
      UpdateLastCoinThrowTime(steamId, now);
      reply := Thrown(ResultSide(isHeads));
    }
  }
}
