/** A human participant (backend/core/player.py). Times are integer milliseconds. */
module Players {
  import opened Wrappers

  const DefaultSkill := 1000
  const SkillKey := "skill_rating"

  /** `metadata.get('skill_rating', 1000) if metadata else 1000` */
  function SkillFrom(metadata: map<string, int>): int {
    if SkillKey in metadata then metadata[SkillKey] else DefaultSkill
  }

  class Player {
    const playerId: string
    const username: string
    var ready: bool
    var team: Option<int>
    var lobbyId: Option<string>
    var partyId: Option<string>
    var connected: bool
    var lastHeartbeat: int
    const metadata: map<string, int>
    const skillRating: int
    const joinedAt: int
    var permissions: set<string>

    /** A new player is not ready, connected, and has no team, lobby or party. */
    constructor (playerId: string, username: string, metadata: map<string, int>, now: int)
      ensures this.playerId == playerId && this.username == username && this.metadata == metadata
      ensures !ready && connected && team == None && lobbyId == None && partyId == None
      ensures lastHeartbeat == now && joinedAt == now && permissions == {}
      ensures skillRating == (if SkillKey in metadata then metadata[SkillKey] else 1000)
    {
      this.playerId := playerId;
      this.username := username;
      ready := false;
      team := None;
      lobbyId := None;
      partyId := None;
      connected := true;
      lastHeartbeat := now;
      this.metadata := metadata;
      skillRating := SkillFrom(metadata);
      joinedAt := now;
      permissions := {};
    }

    method SetReady(ready: bool)
      modifies this`ready
      ensures this.ready == ready
    {
      this.ready := ready;
    }

    method SetTeam(team: int)
      modifies this`team
      ensures this.team == Some(team)
    {
      this.team := Some(team);
    }

    /** `heartbeat`: seen now, and connected again. */
    method Heartbeat(now: int)
      modifies this`lastHeartbeat, this`connected
      ensures lastHeartbeat == now && connected
      ensures IsAlive(1, now)
    {
      lastHeartbeat := now;
      connected := true;
    }

    /** `is_alive(timeout)`: the last heartbeat is strictly less than `timeout` old. */
    predicate IsAlive(timeout: int, now: int)
      reads this`lastHeartbeat
    {
      now - lastHeartbeat < timeout
    }
  }
}
