/** A simulated participant (backend/core/bot.py). Times and delays are integer milliseconds. */
module Bots {
  import opened Wrappers

  const NormalName := "normal"
  const AggressiveName := "aggressive"
  const PassiveName := "passive"
  const RandomName := "random"

  /** ready_delay 2.0 s */
  const DefaultReadyDelay := 2000
  /** An aggressive bot acts again after more than 1.0 s, a passive one after more than 5.0 s. */
  const AggressiveInterval := 1000
  const PassiveInterval := 5000

  /** A profile dict; every key is optional. */
  datatype BotProfile = BotProfile(
    username: Option<string>,
    skillRating: Option<int>,
    behavior: Option<string>,
    autoReady: Option<bool>,
    readyDelay: Option<int>,
    metadata: Option<map<string, int>>)

  /** `f'Bot_{bot_id[:4]}'` */
  function DefaultUsername(botId: string): string {
    "Bot_" + (if |botId| <= 4 then botId else botId[..4])
  }

  /** The time a bot's `tick` records as its last action. */
  function NextAction(behavior: string, lastAction: int, now: int): int {
    if behavior == AggressiveName && now - lastAction > AggressiveInterval then now
    else if behavior == PassiveName && now - lastAction > PassiveInterval then now
    else lastAction
  }

  class Bot {
    const botId: string
    const username: string
    const profile: BotProfile
    var ready: bool
    var team: Option<int>
    var lobbyId: Option<string>
    const skillRating: int
    const behavior: string
    const autoReady: bool
    const readyDelay: int
    const joinedAt: int
    var lastAction: int
    const metadata: map<string, int>

    /** Defaults: skill 1000, behaviour normal, auto-ready, a 2 s ready delay; not ready, no lobby. */
    constructor (botId: string, profile: BotProfile, now: int)
      ensures this.botId == botId && this.profile == profile
      ensures !ready && team == None && lobbyId == None
      ensures username == profile.username.GetOr(DefaultUsername(botId))
      ensures skillRating == profile.skillRating.GetOr(1000)
      ensures behavior == profile.behavior.GetOr("normal")
      ensures autoReady == profile.autoReady.GetOr(true)
      ensures readyDelay == profile.readyDelay.GetOr(2000)
      ensures metadata == profile.metadata.GetOr(map[])
      ensures joinedAt == now && lastAction == now
    {
      this.botId := botId;
      username := profile.username.GetOr(DefaultUsername(botId));
      this.profile := profile;
      ready := false;
      team := None;
      lobbyId := None;
      skillRating := profile.skillRating.GetOr(DefaultSkill());
      behavior := profile.behavior.GetOr(NormalName);
      autoReady := profile.autoReady.GetOr(true);
      readyDelay := profile.readyDelay.GetOr(DefaultReadyDelay);
      joinedAt := now;
      lastAction := now;
      metadata := profile.metadata.GetOr(map[]);
    }

    static function DefaultSkill(): int { 1000 }

    /** Auto-ready is due once strictly more than `readyDelay` has passed since joining. */
    predicate ReadyDue(now: int) {
      autoReady && now - joinedAt > readyDelay
    }

    /** `update`: becomes ready when auto-ready is due; never becomes unready. */
    method Update(now: int)
      modifies this`ready
      ensures ready == (old(ready) || ReadyDue(now))
    {
      if autoReady && !ready {
        if now - joinedAt > readyDelay {
          ready := true;
        }
      }
    }

    method SetTeam(team: int)
      modifies this`team
      ensures this.team == Some(team)
    {
      this.team := Some(team);
    }

    /**
     * `tick`: an aggressive bot refreshes its last action after more than 1 s, a passive one after
     * more than 5 s, any other never; then `update` runs.
     */
    method Tick(now: int)
      modifies this`lastAction, this`ready
      ensures lastAction == NextAction(behavior, old(lastAction), now)
      ensures old(lastAction) != lastAction ==> lastAction == now && (behavior == AggressiveName || behavior == PassiveName)
      ensures ready == (old(ready) || ReadyDue(now))
    {
      var currentTime := now;
      if behavior == AggressiveName {
        if currentTime - lastAction > AggressiveInterval {
          lastAction := currentTime;
        }
      } else if behavior == PassiveName {
        if currentTime - lastAction > PassiveInterval {
          lastAction := currentTime;
        }
      }
      Update(now);
    }
  }

  /** A second `tick` at the same instant changes nothing more. */
  lemma NextActionIdempotent(behavior: string, lastAction: int, now: int)
    ensures NextAction(behavior, NextAction(behavior, lastAction, now), now) == NextAction(behavior, lastAction, now)
  {
  }
}
