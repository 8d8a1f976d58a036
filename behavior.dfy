/**
 * Behaviour-scaled auto-ready (backend/bots/behavior.py). Every behaviour readies a bot that is
 * not yet ready and has auto-ready on, once the time since it joined exceeds a behaviour-specific
 * threshold. The random behaviour's threshold is drawn by the caller and passed in.
 */
module Behaviors {
  import opened Bots

  /** The registry's keys, in registration order (`get_available_behaviors`). */
  function AvailableBehaviors(): (r: seq<string>)
    ensures |r| == 4 && r[0] == NormalName
  {
    [NormalName, AggressiveName, PassiveName, RandomName]
  }

  /**
   * `drawn` is the floor of a draw of `random.uniform(0.5 * d, 2.0 * d)`. Against an integer
   * elapsed time, `elapsed > x` holds exactly when `elapsed > floor(x)`, so the floor loses
   * nothing. For an odd `d` it can be `(d - 1) / 2`; range bounds are kept exact by doubling.
   */
  predicate InDrawRange(d: int, drawn: int) {
    if d >= 0 then d <= 2 * drawn + 1 && drawn <= 2 * d else 4 * d <= 2 * drawn <= d
  }

  /**
   * Whether the behaviour named `behavior` readies a bot `elapsed` after it joined, with ready
   * delay `d`; names outside the registry behave as normal.
   */
  predicate Due(behavior: string, elapsed: int, d: int, drawn: int) {
    if behavior == AggressiveName then 2 * elapsed > d
    else if behavior == PassiveName then 2 * elapsed > 3 * d
    else if behavior == RandomName then elapsed > drawn
    else elapsed > d
  }

  /** `execute_behavior`: the registry lookup, with the normal behaviour as the fallback. */
  method ExecuteBehavior(bot: Bot, now: int, drawn: int)
    requires bot.behavior == RandomName ==> InDrawRange(bot.readyDelay, drawn)
    modifies bot`ready
    ensures bot.ready == (old(bot.ready) || (bot.autoReady && Due(bot.behavior, now - bot.joinedAt, bot.readyDelay, drawn)))
  {
    if bot.behavior == AggressiveName {
      AggressiveBehavior(bot, now);
    } else if bot.behavior == PassiveName {
      PassiveBehavior(bot, now);
    } else if bot.behavior == RandomName {
      RandomBehavior(bot, now, drawn);
    } else {
      NormalBehavior(bot, now);
    }
  }

  method NormalBehavior(bot: Bot, now: int)
    modifies bot`ready
    ensures bot.ready == (old(bot.ready) || (bot.autoReady && now - bot.joinedAt > bot.readyDelay))
  {
    if !bot.ready && bot.autoReady {
      if now - bot.joinedAt > bot.readyDelay {
        bot.ready := true;
      }
    }
  }

  /** Readies after more than half the delay. */
  method AggressiveBehavior(bot: Bot, now: int)
    modifies bot`ready
    ensures bot.ready == (old(bot.ready) || (bot.autoReady && 2 * (now - bot.joinedAt) > bot.readyDelay))
  {
    if !bot.ready && bot.autoReady {
      if 2 * (now - bot.joinedAt) > bot.readyDelay {
        bot.ready := true;
      }
    }
  }

  /** Readies after more than one and a half times the delay. */
  method PassiveBehavior(bot: Bot, now: int)
    modifies bot`ready
    ensures bot.ready == (old(bot.ready) || (bot.autoReady && 2 * (now - bot.joinedAt) > 3 * bot.readyDelay))
  {
    if !bot.ready && bot.autoReady {
      if 2 * (now - bot.joinedAt) > 3 * bot.readyDelay {
        bot.ready := true;
      }
    }
  }

  /** Readies after more than the drawn threshold, the floor of a draw between half and twice the delay. */
  method RandomBehavior(bot: Bot, now: int, drawn: int)
    requires InDrawRange(bot.readyDelay, drawn)
    modifies bot`ready
    ensures bot.ready == (old(bot.ready) || (bot.autoReady && now - bot.joinedAt > drawn))
  {
    if !bot.ready && bot.autoReady {
      var delay := drawn;
      if now - bot.joinedAt > delay {
        bot.ready := true;
      }
    }
  }

  /**
   * With a non-negative delay, a passive bot is due only when a normal one is, a normal one only
   * when an aggressive one is, and a random one is due after twice the delay and never before half.
   */
  lemma ThresholdsOrdered(elapsed: int, d: int, drawn: int)
    requires d >= 0 && InDrawRange(d, drawn)
    ensures Due(PassiveName, elapsed, d, drawn) ==> Due(NormalName, elapsed, d, drawn)
    ensures Due(NormalName, elapsed, d, drawn) ==> Due(AggressiveName, elapsed, d, drawn)
    ensures elapsed > 2 * d ==> Due(RandomName, elapsed, d, drawn)
    ensures Due(RandomName, elapsed, d, drawn) ==> Due(AggressiveName, elapsed, d, drawn)
  {
  }

  /** A name outside the registry is treated exactly as normal. */
  lemma UnknownIsNormal(name: string, elapsed: int, d: int, drawn: int)
    requires name !in AvailableBehaviors()
    ensures Due(name, elapsed, d, drawn) == Due(NormalName, elapsed, d, drawn)
  {
  }

  /** The normal behaviour readies at exactly the moment a bot's own `update` does. */
  lemma NormalMatchesUpdate(bot: Bot, now: int, drawn: int)
    ensures (bot.autoReady && Due(NormalName, now - bot.joinedAt, bot.readyDelay, drawn)) == bot.ReadyDue(now)
  {
  }
}
