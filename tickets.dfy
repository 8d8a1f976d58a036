/**
 * A matchmaking ticket (backend/matchmaking/tickets.py): one player waiting in a queue. The uuid
 * ticket id and the clock are passed in; times are integer milliseconds.
 */
module Tickets {
  import opened Wrappers
  import Players

  const Queued := "queued"
  const Matched := "matched"
  const TimedOut := "timeout"
  const Cancelled := "cancelled"

  const DefaultSkill := 1000

  /**
   * The metadata `to_player` hands the new player: the ticket's skill, overlaid by the ticket's
   * own metadata (`{'skill_rating': skill, **metadata}`).
   */
  function PlayerMetadata(skillRating: int, metadata: map<string, int>): (m: map<string, int>)
    ensures m.Keys == metadata.Keys + {Players.SkillKey}
    ensures forall k :: k in metadata ==> m[k] == metadata[k]
    ensures Players.SkillKey !in metadata ==> m[Players.SkillKey] == skillRating
  {
    map[Players.SkillKey := skillRating] + metadata
  }

  class MatchTicket {
    const ticketId: string
    const playerId: string
    const username: string
    const skillRating: int
    const metadata: map<string, int>
    var status: string
    const createdAt: int
    var queuedAt: int
    var matchedAt: Option<int>
    var partyId: Option<string>
    var priority: int

    /** Skill defaults to 1000 and metadata to empty; a new ticket is queued, unmatched, priority 0. */
    constructor (ticketId: string, playerId: string, username: string,
                 skillRating: Option<int>, metadata: Option<map<string, int>>, now: int)
      ensures this.ticketId == ticketId && this.playerId == playerId && this.username == username
      ensures this.skillRating == skillRating.GetOr(1000) && this.metadata == metadata.GetOr(map[])
      ensures status == Queued && matchedAt == None && partyId == None && priority == 0
      ensures createdAt == now && queuedAt == now
    {
      this.ticketId := ticketId;
      this.playerId := playerId;
      this.username := username;
      this.skillRating := skillRating.GetOr(DefaultSkill);
      this.metadata := metadata.GetOr(map[]);
      status := Queued;
      createdAt := now;
      queuedAt := now;
      matchedAt := None;
      partyId := None;
      priority := 0;
    }

    /** `set_status`: any status is accepted; only `'matched'` stamps `matched_at`. */
    method SetStatus(status: string, now: int)
      modifies this`status, this`matchedAt
      ensures this.status == status
      ensures matchedAt == if status == Matched then Some(now) else old(matchedAt)
    {
      this.status := status;
      if status == Matched {
        matchedAt := Some(now);
      }
    }

    /**
     * `get_wait_time`: measured up to `matched_at` when that is set and truthy (a stamp of 0 is
     * falsy in Python and counts as unset), otherwise up to now.
     */
    function GetWaitTime(now: int): (w: int)
      reads this`matchedAt, this`queuedAt
      ensures matchedAt.Some? && matchedAt.value != 0 ==> w == matchedAt.value - queuedAt
      ensures matchedAt == None || matchedAt == Some(0) ==> w == now - queuedAt
    {
      if matchedAt.Some? && matchedAt.value != 0 then matchedAt.value - queuedAt else now - queuedAt
    }

    /**
     * `to_player`: a new player with the ticket's id and name, whose skill is the ticket's
     * metadata `'skill_rating'` when present and the ticket's own skill otherwise.
     */
    method ToPlayer(now: int) returns (p: Players.Player)
      ensures fresh(p) && !p.ready && p.team == None && p.lobbyId == None
      ensures p.playerId == playerId && p.username == username
      ensures p.metadata == PlayerMetadata(skillRating, metadata)
      ensures p.skillRating == if Players.SkillKey in metadata then metadata[Players.SkillKey] else skillRating
    {
      p := new Players.Player(playerId, username, PlayerMetadata(skillRating, metadata), now);
    }
  }

  /** Matching stamps the time, any later status change keeps it, and the wait is then frozen. */
  lemma MatchedWaitIsFrozen(t: MatchTicket, now: int, later: int)
    requires t.matchedAt == Some(now) && now != 0
    ensures t.GetWaitTime(later) == t.GetWaitTime(now) == now - t.queuedAt
  {
  }
}
