/**
 The login rate limiter against a specification over the history of logins.

 The limiter keeps one entry per key and drops entries on the way; the specification only looks at
 who failed and who succeeded when.
 */
module LoginLimiter {
  import opened Basics
  import opened Text

  datatype Event = Failure(key: string, at: int) | Success(key: string)

  datatype Rules = Rules(maxFailures: nat, lockout: nat)

  // --------------------------------------------------------------------------------------------
  // The history

  /** The failures that count against a key, and when the last one happened. */
  datatype Streak = Streak(failures: nat, last: int)

  /** A success ends a streak; so does a failure that comes when the lockout of a full streak has passed. */
  function StreakOf(h: seq<Event>, key: string, r: Rules): Streak {
    if h == [] then Streak(0, 0)
    else
      var before := StreakOf(h[..|h| - 1], key, r);
      match h[|h| - 1]
      case Success(k) => if k == key then Streak(0, 0) else before
      case Failure(k, at) =>
        if k != key then before
        else if before.failures >= r.maxFailures && at - before.last >= r.lockout then Streak(1, at)
        else Streak(before.failures + 1, at)
  }

  predicate Full(s: Streak, r: Rules) { s.failures >= r.maxFailures && s.failures >= 1 }

  /** Locked out: the streak is full and its last failure is less than the lockout ago. */
  predicate Locked(h: seq<Event>, key: string, now: int, r: Rules) {
    var s := StreakOf(h, key, r);
    Full(s, r) && now - s.last < r.lockout
  }

  function About(h: seq<Event>, key: string): seq<Event> {
    if h == [] then []
    else About(h[..|h| - 1], key) + (if h[|h| - 1].key == key then [h[|h| - 1]] else [])
  }

  /** What other keys do never matters. */
  lemma {:induction false} KeysAreIndependent(h: seq<Event>, key: string, r: Rules)
    ensures StreakOf(About(h, key), key, r) == StreakOf(h, key, r)
  {
    if h != [] {
      var n := |h| - 1;
      KeysAreIndependent(h[..n], key, r);
      var before := About(h[..n], key);
      if h[n].key == key {
        assert (before + [h[n]])[..|before|] == before;
      } else {
        assert before + [] == before;
      }
    }
  }

  function FailuresInARow(h: seq<Event>, key: string): nat {
    if h == [] then 0
    else
      var e := h[|h| - 1];
      if e.key != key then FailuresInARow(h[..|h| - 1], key)
      else if e.Success? then 0 else FailuresInARow(h[..|h| - 1], key) + 1
  }

  /** Nobody is locked out without `maxFailures` failures since the last success, the last of them recent. */
  lemma {:induction false} StreakIsBounded(h: seq<Event>, key: string, r: Rules)
    ensures StreakOf(h, key, r).failures <= FailuresInARow(h, key)
    ensures StreakOf(h, key, r).failures > 0 ==> Failure(key, StreakOf(h, key, r).last) in h
    ensures FailuresInARow(h, key) <= r.maxFailures ==> StreakOf(h, key, r).failures == FailuresInARow(h, key)
  {
    if h != [] {
      var n := |h| - 1;
      StreakIsBounded(h[..n], key, r);
      assert h == h[..n] + [h[n]];
    }
  }

  /** Exactly `maxFailures` failures in a row lock the key until the lockout after the last of them has passed. */
  lemma {:induction false} FirstLockout(h: seq<Event>, key: string, now: int, r: Rules)
    requires r.maxFailures >= 1 && FailuresInARow(h, key) == r.maxFailures
    ensures Locked(h, key, now, r) <==> now - StreakOf(h, key, r).last < r.lockout
  {
    StreakIsBounded(h, key, r);
  }

  /** What a failure does: it extends a streak, also a locked one, and begins a new one when a lockout has passed. */
  lemma {:induction false} FailureCounts(h: seq<Event>, key: string, at: int, r: Rules)
    requires r.maxFailures >= 1
    ensures var before, after := StreakOf(h, key, r), StreakOf(h + [Failure(key, at)], key, r);
            && after.last == at
            && (Locked(h, key, at, r) || before.failures < r.maxFailures ==> after.failures == before.failures + 1)
            && (!Locked(h, key, at, r) && before.failures >= r.maxFailures ==> after.failures == 1)
  {
    assert (h + [Failure(key, at)])[..|h|] == h;
  }

  /** A key whose lockout has passed, or that has logged in, is judged as if the history began there. */
  lemma {:induction false} FreshStart(h: seq<Event>, more: seq<Event>, key: string, r: Rules)
    requires r.maxFailures >= 1 && more != [] && more[0].key == key
    requires more[0].Failure? ==> Full(StreakOf(h, key, r), r) && !Locked(h, key, more[0].at, r)
    ensures StreakOf(h + more, key, r) == StreakOf(more, key, r)
    decreases |more|
  {
    var n := |more| - 1;
    assert (h + more)[..|h + more| - 1] == h + more[..n];
    if n > 0 {
      FreshStart(h, more[..n], key, r);
    } else {
      assert h + more[..0] == h && more[..0] == [];
    }
  }

  /** So after a lockout has passed the key has all its attempts again: it takes as many failures as at first. */
  lemma {:induction false} LockoutIsForgotten(h: seq<Event>, more: seq<Event>, key: string, now: int, r: Rules)
    requires r.maxFailures >= 1 && more != [] && more[0].key == key && more[0].Failure?
    requires Full(StreakOf(h, key, r), r) && !Locked(h, key, more[0].at, r)
    requires FailuresInARow(more, key) < r.maxFailures
    ensures !Locked(h + more, key, now, r)
  {
    FreshStart(h, more, key, r);
    StreakIsBounded(more, key, r);
  }

  // --------------------------------------------------------------------------------------------
  // The limiter

  datatype Entry = Entry(failures: nat, lockedAt: Option<int>)

  class Limiter {
    const rules: Rules
    var entries: map<string, Entry>
    ghost var history: seq<Event>
    ghost var clock: int

    /** Times are in milliseconds; 900000 are a quarter of an hour. */
    constructor (maxFailures: int, lockout: int)
      ensures Valid() && history == [] && clock == 0
      ensures rules.maxFailures == (if maxFailures <= 0 then 5 else maxFailures)
      ensures rules.lockout == (if lockout <= 0 then 900000 else lockout)
    {
      rules := Rules(if maxFailures <= 0 then 5 else maxFailures, if lockout <= 0 then 900000 else lockout);
      entries, history, clock := map[], [], 0;
    }

    /** The entry of a key, if there is one, is its streak; if there is none, the streak no longer matters. */
    ghost predicate Agrees(key: string)
      reads this
    {
      var s := StreakOf(history, key, rules);
      if key in entries then
        s.failures >= 1 && entries[key] == Entry(s.failures, if Full(s, rules) then Some(s.last) else None)
      else
        s.failures == 0 || (Full(s, rules) && clock - s.last >= rules.lockout)
    }

    ghost predicate Valid()
      reads this
    {
      rules.maxFailures >= 1 && rules.lockout >= 1 && forall key :: Agrees(key)
    }

    /** The answer is that of the history; forgetting an expired entry changes no later answer. */
    method Allow(rawKey: string, now: int) returns (ok: bool)
      requires Valid() && now >= clock
      modifies `entries, `clock
      ensures Valid() && clock == now
      ensures ok <==> Trim(rawKey) == "" || !Locked(history, Trim(rawKey), now, rules)
    {
      var key := Trim(rawKey);
      assert Agrees(key);
      ghost var before := clock;
      clock := now;
      assert forall k :: old(Agrees(k)) ==> Agrees(k);
      if key == "" { return true; }
      if key !in entries || entries[key].lockedAt.None? { return true; }
      if now - entries[key].lockedAt.value >= rules.lockout {
        entries := entries - {key};
        forall k ensures Agrees(k) { assert old(Agrees(k)); }
        return true;
      }
      return false;
    }

    method RecordFailure(rawKey: string, now: int)
      requires Valid() && now >= clock
      modifies `entries, `history, `clock
      ensures Valid() && clock == now
      ensures history == if Trim(rawKey) == "" then old(history) else old(history) + [Failure(Trim(rawKey), now)]
    {
      var key := Trim(rawKey);
      assert Agrees(key);
      if key != "" {
        var entry := if key in entries then entries[key] else Entry(0, None);
        if entry.lockedAt.Some? && now - entry.lockedAt.value >= rules.lockout { entry := Entry(0, None); }
        entry := entry.(failures := entry.failures + 1);
        if entry.failures >= rules.maxFailures { entry := entry.(lockedAt := Some(now)); }
        entries := entries[key := entry];
        history := history + [Failure(key, now)];
        assert history[..|history| - 1] == old(history);
      }
      clock := now;
      forall k ensures Agrees(k) { assert old(Agrees(k)); }
    }

    method RecordSuccess(rawKey: string)
      requires Valid()
      modifies `entries, `history
      ensures Valid()
      ensures history == if Trim(rawKey) == "" then old(history) else old(history) + [Success(Trim(rawKey))]
    {
      var key := Trim(rawKey);
      if key == "" { return; }
      entries := entries - {key};
      history := history + [Success(key)];
      assert history[..|history| - 1] == old(history);
      forall k ensures Agrees(k) { assert old(Agrees(k)); }
    }
  }
}
