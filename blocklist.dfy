/**
 * The revocation blocklist: a key-value cache in which logging out stores
 * the token's `jti` with a fixed time-to-live. A key is present until its
 * time-to-live lapses; only a present key counts as revoked.
 *
 * The cache is modelled as a map from `jti` to the instant its marker
 * lapses, read against an explicit clock.
 */
module Blocklist {
  import opened Tokens

  /** Seconds a revocation marker lives, whatever the token's own `exp`. */
  const JTI_EXPIRY: int := 3600

  /** jti -> the instant at which its marker lapses. */
  type Entries = map<Jti, Time>

  /** A non-null value is stored for `jti` at time `now`. */
  predicate Marked(entries: Entries, jti: Jti, now: Time)
  {
    jti in entries && now < entries[jti]
  }

  /** The cache after `SET jti "" EX JTI_EXPIRY` at time `now`: the entry is written afresh. */
  function Stored(entries: Entries, jti: Jti, now: Time): (r: Entries)
    ensures forall t :: now <= t < now + JTI_EXPIRY ==> Marked(r, jti, t)
    ensures forall t :: now + JTI_EXPIRY <= t ==> !Marked(r, jti, t)
    ensures forall k, t :: k != jti ==> (Marked(r, k, t) <==> Marked(entries, k, t))
  {
    entries[jti := now + JTI_EXPIRY]
  }

  /**
   * Adding is idempotent for membership: re-adding a `jti` keeps it
   * present and moves its lapse to JTI_EXPIRY after the latest write.
   */
  lemma ReAddRefreshes(entries: Entries, jti: Jti, first: Time, second: Time)
    requires first <= second
    ensures Marked(Stored(Stored(entries, jti, first), jti, second), jti, second)
    ensures Stored(Stored(entries, jti, first), jti, second)[jti] == second + JTI_EXPIRY
    ensures Stored(Stored(entries, jti, first), jti, second) == Stored(entries, jti, second)
  {
  }

  /** One revocation: the `jti` written and the clock reading when it was written. */
  datatype Revocation = Revocation(jti: Jti, at: Time)

  /** Revocations were written in clock order. */
  ghost predicate Chronological(log: seq<Revocation>)
  {
    forall i, j :: 0 <= i < j < |log| ==> log[i].at <= log[j].at
  }

  /** The cache contents after writing the log's revocations, in order, into an empty cache. */
  function Replay(log: seq<Revocation>): Entries
  {
    if log == [] then map[]
    else Stored(Replay(log[..|log| - 1]), log[|log| - 1].jti, log[|log| - 1].at)
  }

  /** Every revocation in the log was written at or before `now`. */
  ghost predicate WrittenBy(log: seq<Revocation>, now: Time)
  {
    forall i :: 0 <= i < |log| ==> log[i].at <= now
  }

  /** Some revocation of `jti` in the log, written at or before `now`, has not lapsed at `now`. */
  ghost predicate RevokedWithinTtl(log: seq<Revocation>, jti: Jti, now: Time)
  {
    exists i :: 0 <= i < |log| && log[i].jti == jti && log[i].at <= now < log[i].at + JTI_EXPIRY
  }

  /**
   * Revocation is visible until its time-to-live lapses: after any
   * chronological series of writes made up to `now`, a `jti` is present
   * exactly when one of its writes is younger than JTI_EXPIRY. In
   * particular nothing is present in a cache that was never written, and
   * re-adding a `jti` extends it.
   */
  lemma {:induction false} ReplayMarked(log: seq<Revocation>, jti: Jti, now: Time)
    requires Chronological(log) && WrittenBy(log, now)
    ensures Marked(Replay(log), jti, now) <==> RevokedWithinTtl(log, jti, now)
  {
    if log != [] {
      var n := |log| - 1;
      var prefix := log[..n];
      assert Chronological(prefix) && WrittenBy(prefix, now);
      ReplayMarked(prefix, jti, now);
      if jti == log[n].jti {
        if RevokedWithinTtl(log, jti, now) {
          var i :| 0 <= i < |log| && log[i].jti == jti && log[i].at <= now < log[i].at + JTI_EXPIRY;
          assert log[i].at <= log[n].at;
        } else {
          assert !(log[n].at <= now < log[n].at + JTI_EXPIRY);
        }
      } else {
        if RevokedWithinTtl(log, jti, now) {
          var i :| 0 <= i < |log| && log[i].jti == jti && log[i].at <= now < log[i].at + JTI_EXPIRY;
          assert i < n && prefix[i] == log[i];
        }
        if RevokedWithinTtl(prefix, jti, now) {
          var i :| 0 <= i < |prefix| && prefix[i].jti == jti && prefix[i].at <= now < prefix[i].at + JTI_EXPIRY;
          assert log[i] == prefix[i];
        }
      }
    }
  }

  /** The shared cache holding the revoked `jti`s. */
  class TokenBlocklist {
    var entries: Entries
    /** Every write so far, oldest first. */
    ghost var log: seq<Revocation>
    /** The latest clock reading the cache has seen; the clock never runs backwards. */
    ghost var clock: Time

    ghost predicate Valid()
      reads this
    {
      && entries == Replay(log)
      && Chronological(log)
      && WrittenBy(log, clock)
    }

    /** An empty cache, first used at `startTime`: nothing is revoked. */
    constructor (ghost startTime: Time)
      ensures Valid() && log == [] && clock == startTime
      ensures forall jti, now :: !Marked(entries, jti, now)
    {
      entries := map[];
      log := [];
      clock := startTime;
    }

    /** Logout's write: the marker for `jti` is set, or reset, to live JTI_EXPIRY seconds from `now`. */
    method AddJtiToBlocklist(jti: Jti, now: Time)
      requires Valid() && clock <= now
      modifies this
      ensures Valid() && clock == now
      ensures log == old(log) + [Revocation(jti, now)]
      ensures entries == Stored(old(entries), jti, now)
    {
      entries := entries[jti := now + JTI_EXPIRY];
      log := log + [Revocation(jti, now)];
      clock := now;
      assert log[..|log| - 1] == old(log);
    }

    /**
     * The guard's read: is a marker for `jti` present at `now`? Exactly
     * when some write of `jti` is younger than JTI_EXPIRY.
     */
    method IsTokenInBlocklist(jti: Jti, now: Time) returns (revoked: bool)
      requires Valid() && clock <= now
      ensures revoked == Marked(entries, jti, now)
      ensures revoked <==> RevokedWithinTtl(log, jti, now)
    {
      revoked := jti in entries && now < entries[jti];
      ReplayMarked(log, jti, now);
    }
  }
}
