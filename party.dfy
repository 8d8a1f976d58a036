/**
 * A party (backend/core/party.py): at most five members keyed by player id, one of them the
 * leader. `order` is the insertion order of the `members` dict, which decides who is promoted
 * when the leader leaves.
 */
module Parties {
  import opened Wrappers
  import Seqs

  const MaxMembers := 5

  datatype Role = Leader | Member

  /** One entry of `members`: `{'player_id', 'joined_at', 'role'}`. */
  datatype Membership = Membership(playerId: string, joinedAt: int, role: Role)

  /**
   * The order lists the members, each entry is filed under its own id, there are never more
   * than five, and only the leader id can hold the leader role. The leader id need not be a
   * member: it dangles once the last member has left.
   */
  ghost predicate Consistent(members: map<string, Membership>, order: seq<string>, leaderId: string) {
    && Seqs.Lists(order, members.Keys)
    && |members| <= MaxMembers
    && (forall k :: k in members ==> members[k].playerId == k)
    && (forall k :: k in members && members[k].role == Leader ==> k == leaderId)
  }

  class Party {
    const partyId: string
    var leaderId: string
    var members: map<string, Membership>
    var order: seq<string>
    const createdAt: int
    const maxMembers: int
    var lobbyId: Option<string>

    ghost predicate Valid()
      reads this
    {
      maxMembers == MaxMembers && Consistent(members, order, leaderId)
    }

    /** A new party has exactly one member, the leader, in the leader role. */
    constructor (partyId: string, leaderId: string, now: int)
      ensures Valid()
      ensures this.partyId == partyId && this.leaderId == leaderId
      ensures members == map[leaderId := Membership(leaderId, now, Leader)] && order == [leaderId]
      ensures lobbyId == None && createdAt == now
    {
      this.partyId := partyId;
      this.leaderId := leaderId;
      members := map[leaderId := Membership(leaderId, now, Leader)];
      order := [leaderId];
      createdAt := now;
      maxMembers := MaxMembers;
      lobbyId := None;
    }

    /** `add_member`: refused when the party is full or the player already belongs to it. */
    method AddMember(playerId: string, now: int) returns (added: bool)
      requires Valid()
      modifies this`members, this`order
      ensures Valid()
      ensures added <==> |old(members)| < maxMembers && playerId !in old(members)
      ensures added ==> members == old(members)[playerId := Membership(playerId, now, Member)]
                        && order == old(order) + [playerId]
      ensures !added ==> members == old(members) && order == old(order)
    {
      if |members| >= maxMembers {
        return false;
      }
      if playerId !in members {
        Seqs.AppendLists(order, members.Keys, playerId);
        members := members[playerId := Membership(playerId, now, Member)];
        order := order + [playerId];
        return true;
      }
      return false;
    }

    /**
     * `remove_member`: nothing happens for a non-member. Otherwise the member is deleted; if it
     * was the leader and others remain, the earliest remaining member becomes leader and gets
     * the leader role. If it was the last member, `leaderId` is left naming a non-member.
     */
    method RemoveMember(playerId: string)
      requires Valid()
      modifies this`members, this`order, this`leaderId
      ensures Valid()
      ensures playerId !in old(members) ==>
        members == old(members) && order == old(order) && leaderId == old(leaderId)
      ensures playerId in old(members) ==> order == Seqs.Without(old(order), playerId)
      ensures playerId in old(members) && (playerId != old(leaderId) || old(members).Keys == {playerId}) ==>
        members == old(members) - {playerId} && leaderId == old(leaderId)
      ensures playerId in old(members) && playerId == old(leaderId) && old(members).Keys != {playerId} ==>
        && |order| > 0
        && leaderId == order[0]
        && members == (old(members) - {playerId})[order[0] := old(members)[order[0]].(role := Leader)]
      ensures old(members).Keys == {playerId} ==> members == map[] && leaderId !in members
    {
      if playerId in members {
        RemovalConsistent(members, order, leaderId, playerId);
        members := members - {playerId};
        order := Seqs.Without(order, playerId);
        if playerId == leaderId && members != map[] {
          var newLeader := order[0];
          PromotionConsistent(members, order, leaderId, newLeader);
          leaderId := newLeader;
          members := members[newLeader := members[newLeader].(role := Leader)];
        }
      }
    }

    /** `is_leader` */
    predicate IsLeader(playerId: string)
      reads this`leaderId
    {
      playerId == leaderId
    }

    /** `get_member_ids`: member ids in the order they joined. */
    function GetMemberIds(): (ids: seq<string>)
      reads this
      requires Valid()
      ensures Seqs.Lists(ids, members.Keys)
      ensures |ids| == |members|
    {
      Seqs.ListsLength(order, members.Keys);
      order
    }

    function GetMemberCount(): nat
      reads this`members
    {
      |members|
    }
  }

  /** A member holding the leader role is the leader. */
  lemma LeaderRoleIsLeader(p: Party, k: string)
    requires p.Valid() && k in p.members && p.members[k].role == Leader
    ensures p.IsLeader(k)
  {
  }

  /** The member count never exceeds five. */
  lemma MembersBounded(p: Party)
    requires p.Valid()
    ensures p.GetMemberCount() <= 5
  {
  }

  /** Deleting a member keeps the state consistent; the rest is empty only if it was the last one. */
  lemma RemovalConsistent(members: map<string, Membership>, order: seq<string>, leaderId: string, p: string)
    requires Consistent(members, order, leaderId) && p in members
    ensures Consistent(members - {p}, Seqs.Without(order, p), leaderId)
    ensures members - {p} == map[] <==> members.Keys == {p}
    ensures members - {p} != map[] ==> |Seqs.Without(order, p)| > 0 && Seqs.Without(order, p)[0] in members - {p}
  {
    var rest := members - {p};
    Seqs.WithoutLists(order, members.Keys, p);
    assert rest.Keys == members.Keys - {p};
    assert |rest| <= MaxMembers by {
      assert rest.Keys <= members.Keys;
      Seqs.SubsetSize(rest.Keys, members.Keys);
    }
    if members.Keys != {p} {
      var k :| k in members.Keys && k != p;
      assert k in rest;
    }
    if rest != map[] {
      var o := Seqs.Without(order, p);
      Seqs.ListsLength(o, rest.Keys);
      assert o[0] in rest;
    }
  }

  /** Promoting a member to leader, and recording it as leader, keeps the state consistent. */
  lemma PromotionConsistent(members: map<string, Membership>, order: seq<string>, leaderId: string, k: string)
    requires Consistent(members, order, leaderId) && k in members
    requires forall j :: j in members ==> members[j].role == Member || j == k
    ensures Consistent(members[k := members[k].(role := Leader)], order, k)
  {
    assert members[k := members[k].(role := Leader)].Keys == members.Keys;
  }
}
