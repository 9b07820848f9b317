/** The limiter as it runs: one statement that inserts or updates a row, and a batch job that deletes expired ones. */
module RateLimiters {
  import opened RateLimits
  import opened Wrappers

  lemma {:induction false} CollectTwice(rows: seq<Bucket>, a: set<int>, b: set<int>, now: int)
    ensures Collect(Collect(rows, a, now), b, now) == Collect(rows, a + b, now)
  {
    if |rows| > 0 {
      CollectTwice(rows[..|rows| - 1], a, b, now);
      var rest := Collect(rows[..|rows| - 1], a, now);
      assert (rest + [rows[|rows| - 1]])[..|rest|] == rest;
    }
  }

  lemma {:induction false} CollectNothing(rows: seq<Bucket>, victims: set<int>, now: int)
    requires forall b | b in rows :: b.start !in victims || b.expiresAt > now
    ensures Collect(rows, victims, now) == rows
  {
    if |rows| > 0 {
      assert forall b | b in rows[..|rows| - 1] :: b in rows;
      CollectNothing(rows[..|rows| - 1], victims, now);
      assert rows[|rows| - 1] in rows;
    }
  }

  lemma {:induction false} CollectSplits(a: seq<Bucket>, b: seq<Bucket>, victims: set<int>, now: int)
    ensures Collect(a + b, victims, now) == Collect(a, victims, now) + Collect(b, victims, now)
  {
    if |b| == 0 {
      assert a + b == a;
    } else {
      CollectSplits(a, b[..|b| - 1], victims, now);
      assert (a + b)[..|a + b| - 1] == a + b[..|b| - 1];
    }
  }

  /** Deleting one expired row is collecting its window. */
  lemma RemoveIsCollect(rows: seq<Bucket>, i: nat, now: int)
    requires UniqueStarts(rows) && i < |rows| && rows[i].expiresAt <= now
    ensures Collect(rows, {rows[i].start}, now) == rows[..i] + rows[i + 1..]
  {
    var x, victims := rows[i], {rows[i].start};
    assert rows == rows[..i] + [x] + rows[i + 1..];
    CollectSplits(rows[..i] + [x], rows[i + 1..], victims, now);
    CollectSplits(rows[..i], [x], victims, now);
    CollectNothing(rows[..i], victims, now);
    CollectNothing(rows[i + 1..], victims, now);
    assert [x][..0] == [] && Collect([x], victims, now) == [];
  }

  class RateLimiter {
    const policy: Policy
    var rows: seq<Bucket>

    ghost predicate Valid()
      reads this
    {
      ValidPolicy(policy) && TableOk(rows, policy)
    }

    constructor (policy: Policy)
      requires ValidPolicy(policy)
      ensures Valid() && rows == [] && this.policy == policy
    {
      this.policy, rows := policy, [];
    }

    method LatestBlock(now: int) returns (prior: Option<int>)
      ensures prior == PriorBlock(rows, now)
    {
      prior := None;
      for i := 0 to |rows|
        invariant prior == PriorBlock(rows[..i], now)
      {
        assert rows[..i + 1][..i] == rows[..i];
        var until := rows[i].blockedUntil;
        if until.Some? && until.value > now && (prior.None? || until.value >= prior.value) {
          prior := until;
        }
      }
      assert rows[..|rows|] == rows;
    }

    method Consume(now: int) returns (d: Decision)
      requires Valid()
      modifies this`rows
      ensures Valid() && (rows, d) == RateLimits.Consume(old(rows), policy, now)
    {
      ConsumeKeepsTable(rows, policy, now);
      var windowStart := WindowStart(now, policy.window);
      var baseExpiresAt := windowStart + policy.retention;
      var prior := LatestBlock(now);
      var found := Find(rows, windowStart);
      var count, blockedUntil := 1, prior;
      if found.Some? {
        count := rows[found.value].count + 1;
        blockedUntil := Later(rows[found.value].blockedUntil, prior);
      }
      if !(blockedUntil.Some? && blockedUntil.value > now) && policy.cooldown.Some? && count >= policy.limit {
        blockedUntil := Some(now + policy.cooldown.value);
      }
      var expiresAt := baseExpiresAt;
      if blockedUntil.Some? && blockedUntil.value > baseExpiresAt {
        expiresAt := blockedUntil.value;
      }
      var row := Bucket(windowStart, count, blockedUntil, expiresAt);
      rows := if found.Some? then rows[found.value := row] else rows + [row];
      d := Decide(policy, count, blockedUntil, prior.Some?, now);
    }

    method Inspect(now: int) returns (d: Decision)
      requires Valid()
      ensures d == RateLimits.Inspect(rows, policy, now)
    {
      var found := Find(rows, WindowStart(now, policy.window));
      var prior := LatestBlock(now);
      var count, blockedUntil := 0, prior;
      if found.Some? {
        count, blockedUntil := rows[found.value].count, Later(rows[found.value].blockedUntil, prior);
      }
      d := Decide(policy, count, blockedUntil, prior.Some?, now);
    }

    method Clear()
      requires Valid()
      modifies this`rows
      ensures Valid() && rows == []
    {
      rows := [];
    }

    /** Deletes at most `limit` expired rows, those that expired first before any other. */
    method DeleteExpired(now: int, limit: nat) returns (deleted: nat, ghost victims: set<int>)
      requires Valid()
      modifies this`rows
      ensures Valid() && rows == Collect(old(rows), victims, now)
      ensures deleted <= limit && |rows| + deleted == |old(rows)|
      ensures deleted == limit || forall b | b in rows :: b.expiresAt > now
      ensures forall gone, kept | gone in old(rows) && gone !in rows && kept in rows :: gone.expiresAt <= kept.expiresAt
    {
      deleted, victims := 0, {};
      CollectNothing(rows, {}, now);
      while deleted < limit
        invariant Valid() && rows == Collect(old(rows), victims, now)
        invariant deleted <= limit && |rows| + deleted == |old(rows)|
        invariant forall gone, kept | gone in old(rows) && gone !in rows && kept in rows ::
                  gone.expiresAt <= kept.expiresAt
        decreases |rows|
      {
        var first := FirstToExpire(now);
        if first.None? {
          return;
        }
        ghost var before, row := rows, rows[first.value];
        RemoveIsCollect(rows, first.value, now);
        CollectTwice(old(rows), victims, {row.start}, now);
        CollectKeepsTable(rows, policy, {row.start}, now);
        rows := rows[..first.value] + rows[first.value + 1..];
        deleted, victims := deleted + 1, victims + {row.start};
        assert forall x | x in before :: x == row || x in rows;
      }
    }

    method FirstToExpire(now: int) returns (first: Option<nat>)
      ensures first.None? ==> forall b | b in rows :: b.expiresAt > now
      ensures first.Some? ==> first.value < |rows| && rows[first.value].expiresAt <= now
      ensures first.Some? ==> forall b | b in rows :: rows[first.value].expiresAt <= b.expiresAt
    {
      first := None;
      for i := 0 to |rows|
        invariant first.None? ==> forall j | 0 <= j < i :: rows[j].expiresAt > now
        invariant first.Some? ==> first.value < i && rows[first.value].expiresAt <= now
        invariant first.Some? ==> forall j | 0 <= j < i :: rows[first.value].expiresAt <= rows[j].expiresAt
      {
        if rows[i].expiresAt <= now && (first.None? || rows[i].expiresAt < rows[first.value].expiresAt) {
          first := Some(i);
        }
      }
    }
  }
}
