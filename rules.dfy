/**
 * Join rules and action checks (backend/core/rules.py). A rule's check is a closed datatype: the
 * three default checks, a skill bound standing for a custom predicate, and `Throws`, a custom
 * predicate that raises.
 */
module Rules {
  import opened Wrappers
  import opened Lobbies

  /** The joining player as the rules see it. */
  datatype Candidate = Candidate(playerId: string, skillRating: int)

  datatype Check =
    | NotFull
    | NotInLobby
    | Accepting
    | MinSkill(min: int)
    | Throws

  datatype Rule = Rule(name: string, check: Check)

  /** A check passes, fails, or raises. */
  datatype Verdict = Pass | Fail | Raised

  function Evaluate(c: Check, v: LobbyView, p: Candidate): Verdict {
    match c
    case NotFull => if !(v.playerCount >= v.maxPlayers) then Pass else Fail
    case NotInLobby => if p.playerId !in v.memberIds then Pass else Fail
    case Accepting => if v.state == Waiting || v.state == Open then Pass else Fail
    case MinSkill(min) => if p.skillRating >= min then Pass else Fail
    case Throws => Raised
  }

  /** Every rule passes. */
  predicate Admits(rules: seq<Rule>, v: LobbyView, p: Candidate) {
    forall i :: 0 <= i < |rules| ==> Evaluate(rules[i].check, v, p) == Pass
  }

  /** The rules `setup_default_rules` registers, in order. */
  function DefaultRules(): (rs: seq<Rule>)
    ensures |rs| == 3
    ensures rs[0].name == "lobby_not_full" && rs[1].name == "player_not_in_lobby" && rs[2].name == "lobby_accepting"
  {
    [Rule("lobby_not_full", NotFull), Rule("player_not_in_lobby", NotInLobby), Rule("lobby_accepting", Accepting)]
  }

  /** `[r for r in rules if r.name != name]` */
  function WithoutRule(rules: seq<Rule>, name: string): (r: seq<Rule>)
    ensures forall x :: x in r <==> x in rules && x.name != name
    ensures |r| <= |rules|
  {
    if rules == [] then []
    else if rules[0].name == name then WithoutRule(rules[1..], name)
    else [rules[0]] + WithoutRule(rules[1..], name)
  }

  class RuleEngine {
    var rules: seq<Rule>

    constructor ()
      ensures rules == DefaultRules()
    {
      rules := DefaultRules();
    }

    /** `add_rule` appends at the end. */
    method AddRule(name: string, check: Check)
      modifies this
      ensures rules == old(rules) + [Rule(name, check)]
    {
      rules := rules + [Rule(name, check)];
    }

    /** `remove_rule` drops every rule of that name and keeps the rest in order. */
    method RemoveRule(name: string)
      modifies this
      ensures rules == WithoutRule(old(rules), name)
    {
      rules := WithoutRule(rules, name);
    }

    /**
     * `can_join`: true iff every rule passes. Rules run in order and the first one that fails or
     * raises ends the scan with false (`evaluated` counts the rules run); a raise never escapes.
     */
    method CanJoin(v: LobbyView, p: Candidate) returns (ok: bool, ghost evaluated: nat)
      ensures ok <==> Admits(rules, v, p)
      ensures evaluated <= |rules|
      ensures forall i :: 0 <= i < evaluated - 1 ==> Evaluate(rules[i].check, v, p) == Pass
      ensures ok ==> evaluated == |rules|
      ensures !ok ==> 0 < evaluated && Evaluate(rules[evaluated - 1].check, v, p) != Pass
    {
      var i := 0;
      while i < |rules|
        invariant 0 <= i <= |rules|
        invariant forall j :: 0 <= j < i ==> Evaluate(rules[j].check, v, p) == Pass
      {
        var verdict := Evaluate(rules[i].check, v, p);
        if verdict == Raised {
          return false, i + 1;
        }
        if verdict == Fail {
          return false, i + 1;
        }
        i := i + 1;
      }
      return true, i;
    }
  }

  /** The default rules admit exactly a non-member joining a waiting or open lobby with room. */
  lemma DefaultAdmits(v: LobbyView, p: Candidate)
    ensures Admits(DefaultRules(), v, p) <==>
      v.playerCount < v.maxPlayers && p.playerId !in v.memberIds && (v.state == Waiting || v.state == Open)
  {
    var rs := DefaultRules();
    if Admits(rs, v, p) {
      assert Evaluate(rs[0].check, v, p) == Pass;
      assert Evaluate(rs[1].check, v, p) == Pass;
      assert Evaluate(rs[2].check, v, p) == Pass;
    }
  }

  /** Under the default rules a lobby that has gone ready admits nobody. */
  lemma ReadyLobbyRejects(v: LobbyView, p: Candidate)
    requires v.state == Ready
    ensures !Admits(DefaultRules(), v, p)
  {
    DefaultAdmits(v, p);
  }

  /** Adding a rule can only make joining harder. */
  lemma AddRuleNarrows(rules: seq<Rule>, r: Rule, v: LobbyView, p: Candidate)
    ensures Admits(rules + [r], v, p) <==> Admits(rules, v, p) && Evaluate(r.check, v, p) == Pass
  {
    if Admits(rules, v, p) && Evaluate(r.check, v, p) == Pass {
      forall i | 0 <= i < |rules + [r]| ensures Evaluate((rules + [r])[i].check, v, p) == Pass {
        if i < |rules| { assert (rules + [r])[i] == rules[i]; }
      }
    }
    if Admits(rules + [r], v, p) {
      forall i | 0 <= i < |rules| ensures Evaluate(rules[i].check, v, p) == Pass {
        assert (rules + [r])[i] == rules[i];
      }
      assert (rules + [r])[|rules|] == r;
    }
  }

  /** A registered rule that raises blocks every join. */
  lemma ThrowingRuleRejects(rules: seq<Rule>, v: LobbyView, p: Candidate)
    requires exists i :: 0 <= i < |rules| && rules[i].check == Throws
    ensures !Admits(rules, v, p)
  {
  }

  /** Removing by name commutes with concatenation, so the survivors keep their relative order. */
  lemma {:induction false} WithoutRuleAppend(a: seq<Rule>, b: seq<Rule>, name: string)
    ensures WithoutRule(a + b, name) == WithoutRule(a, name) + WithoutRule(b, name)
  {
    if a == [] {
      assert a + b == b;
    } else {
      assert (a + b)[1..] == a[1..] + b;
      WithoutRuleAppend(a[1..], b, name);
    }
  }

  /** Removing the same name twice is the same as removing it once. */
  lemma {:induction false} WithoutRuleIdempotent(rules: seq<Rule>, name: string)
    ensures WithoutRule(WithoutRule(rules, name), name) == WithoutRule(rules, name)
  {
    if rules != [] {
      WithoutRuleIdempotent(rules[1..], name);
      if rules[0].name != name {
        assert WithoutRule(rules, name) == [rules[0]] + WithoutRule(rules[1..], name);
        assert WithoutRule(rules, name)[1..] == WithoutRule(rules[1..], name);
      }
    }
  }

  /** The context dict of `validate_action`; every key is optional. */
  datatype ActionContext = ActionContext(
    players: Option<seq<bool>>, botCount: Option<int>, maxBots: Option<int>, hasPermission: Option<bool>)

  /** `validate_action`: the built-in action checks; any other action name is allowed. */
  function ValidateAction(action: string, ctx: ActionContext): (ok: bool)
    ensures action == "start_match" ==> (ok <==> forall i :: 0 <= i < |ctx.players.GetOr([])| ==> ctx.players.GetOr([])[i])
    ensures action == "add_bot" ==> (ok <==> ctx.botCount.GetOr(0) < ctx.maxBots.GetOr(4))
    ensures action == "kick_player" ==> ok == ctx.hasPermission.GetOr(false)
    ensures action !in {"start_match", "add_bot", "kick_player"} ==> ok
  {
    if action == "start_match" then
      var ps := ctx.players.GetOr([]);
      forall i :: 0 <= i < |ps| ==> ps[i]
    else if action == "add_bot" then ctx.botCount.GetOr(0) < ctx.maxBots.GetOr(4)
    else if action == "kick_player" then ctx.hasPermission.GetOr(false)
    else true
  }

  /** With nothing in the context, a match may start, a bot may be added and nobody may be kicked. */
  lemma EmptyContextDefaults()
    ensures var c := ActionContext(None, None, None, None);
      ValidateAction("start_match", c) && ValidateAction("add_bot", c) && !ValidateAction("kick_player", c)
  {
  }
}
