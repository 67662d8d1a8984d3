/** Nested retries around one transaction: `retry_async` outside, the database's own
    retry policy inside, and a session that commits or rolls back at the bottom. */
module Retry {

  /** What becomes of one attempt. Only an operational error is retried by the database layer. */
  datatype Fate = Commits | OperationalError | OtherError

  const DB_ATTEMPTS: nat := 5
  const RETRIES: int := 3
  const DELAY: real := 0.1
  const BACKOFF: real := 2.0

  function AtLeastOne(n: int): nat {
    if n < 1 then 1 else n
  }

  function Pow(b: real, n: nat): real {
    if n == 0 then 1.0 else Pow(b, n - 1) * b
  }

  /** How many attempts one call of the database layer makes when its first one has index `k`. */
  function Tries(fate: nat -> Fate, k: nat, limit: nat): nat
    decreases limit
  {
    if limit <= 1 || !fate(k).OperationalError? then 1 else 1 + Tries(fate, k + 1, limit - 1)
  }

  /** The index at which the j-th outer call starts, when the first starts at `k`. */
  function CallStart(fate: nat -> Fate, k: nat, limit: nat, j: nat): nat {
    if j == 0 then k
    else
      var before := CallStart(fate, k, limit, j - 1);
      before + Tries(fate, before, limit)
  }

  /** Whether the j-th outer call ends in a commit. */
  predicate CallCommits(fate: nat -> Fate, k: nat, limit: nat, j: nat) {
    fate(CallStart(fate, k, limit, j) + Tries(fate, CallStart(fate, k, limit, j), limit) - 1).Commits?
  }

  lemma {:induction false} TriesBounds(fate: nat -> Fate, k: nat, limit: nat)
    ensures 1 <= Tries(fate, k, limit) <= AtLeastOne(limit)
    ensures forall i :: k <= i < k + Tries(fate, k, limit) - 1 ==> fate(i).OperationalError?
    decreases limit
  {
    if limit > 1 && fate(k).OperationalError? {
      TriesBounds(fate, k + 1, limit - 1);
    }
  }

  /** One more attempt after `n` operational errors in a row stays within the same call. */
  lemma {:induction false} TriesUnroll(fate: nat -> Fate, k: nat, limit: nat, n: nat)
    requires n < limit && forall i :: k <= i < k + n ==> fate(i).OperationalError?
    ensures Tries(fate, k, limit) == n + Tries(fate, k + n, limit - n)
    decreases n
  {
    if n > 0 {
      assert fate(k).OperationalError?;
      TriesUnroll(fate, k + 1, limit - 1, n - 1);
    }
  }

  /** An outer call costs at least one attempt and at most `limit`. */
  lemma {:induction false} CallStartBounds(fate: nat -> Fate, k: nat, limit: nat, j: nat)
    requires limit >= 1
    ensures k + j <= CallStart(fate, k, limit, j) <= k + limit * j
  {
    if j > 0 {
      CallStartBounds(fate, k, limit, j - 1);
      TriesBounds(fate, CallStart(fate, k, limit, j - 1), limit);
      assert limit * j == limit * (j - 1) + limit;
    }
  }

  // ---------- The sleeps in between ----------

  /** The delay before the sleep after the (n+1)-th failure. */
  function WaitAfter(delay: real, backoff: real, n: nat): real {
    if n == 0 then delay else WaitAfter(delay, backoff, n - 1) * backoff
  }

  /** The time slept over the first `n` sleeps. */
  function SleptAfter(delay: real, backoff: real, n: nat): real {
    if n == 0 then 0.0 else SleptAfter(delay, backoff, n - 1) + WaitAfter(delay, backoff, n - 1)
  }

  lemma OneMoreWait(delay: real, backoff: real, n: nat)
    ensures WaitAfter(delay, backoff, n + 1) == WaitAfter(delay, backoff, n) * backoff
    ensures SleptAfter(delay, backoff, n + 1) == SleptAfter(delay, backoff, n) + WaitAfter(delay, backoff, n)
  {
  }

  lemma Distribute(x: real, y: real, z: real)
    ensures x * (y - z) == x * y - x * z && (y - z) * x == x * y - x * z && (y + z) * x == y * x + z * x
  {
  }

  lemma Regroup(x: real, y: real, z: real)
    ensures x * y * z == x * (y * z)
  {
  }

  /** One term more: from d(p - 1) to d(pb - 1) by adding dp(b - 1). */
  lemma NextTerm(d: real, b: real, s: real, p: real, s': real, p': real)
    requires s * (b - 1.0) == d * (p - 1.0) && s' == s + d * p && p' == p * b
    ensures s' * (b - 1.0) == d * (p' - 1.0)
  {
    var dp := d * p;
    Distribute(b - 1.0, s, dp);
    Distribute(dp, b, 1.0);
    Distribute(d, p, 1.0);
    Distribute(d, p * b, 1.0);
    Regroup(d, p, b);
  }

  lemma {:induction false} WaitIsPower(delay: real, backoff: real, n: nat)
    ensures WaitAfter(delay, backoff, n) == delay * Pow(backoff, n)
  {
    if n > 0 {
      var p := Pow(backoff, n - 1);
      WaitIsPower(delay, backoff, n - 1);
      calc {
        WaitAfter(delay, backoff, n);
        delay * p * backoff;
        { Regroup(delay, p, backoff); }
        delay * (p * backoff);
      }
    }
  }

  /** Multiplying the delay each time makes the slept time a geometric sum. */
  lemma {:induction false} SleptIsGeometric(delay: real, backoff: real, n: nat)
    ensures SleptAfter(delay, backoff, n) * (backoff - 1.0) == delay * (Pow(backoff, n) - 1.0)
  {
    if n > 0 {
      SleptIsGeometric(delay, backoff, n - 1);
      WaitIsPower(delay, backoff, n - 1);
      NextTerm(delay, backoff, SleptAfter(delay, backoff, n - 1), Pow(backoff, n - 1),
               SleptAfter(delay, backoff, n), Pow(backoff, n));
    }
  }

  /** A table behind sessions whose attempts meet an arbitrary fate. */
  class Table<T> {
    var rows: T
    var attempts: nat
    const fate: nat -> Fate

    constructor (rows: T, fate: nat -> Fate)
      ensures this.rows == rows && attempts == 0 && this.fate == fate
    {
      this.rows, this.attempts, this.fate := rows, 0, fate;
    }

    /** One transaction: committed whole, or rolled back without a trace. */
    method SessionScope(op: T -> T) returns (outcome: Fate)
      modifies this
      ensures attempts == old(attempts) + 1 && outcome == fate(old(attempts))
      ensures rows == if outcome.Commits? then op(old(rows)) else old(rows)
    {
      var working := op(rows);
      outcome := fate(attempts);
      attempts := attempts + 1;
      if outcome.Commits? {
        rows := working;
      }
    }

    /** The database layer's policy: up to `limit` attempts, repeated only on operational errors. */
    method AsyncRetrying(op: T -> T, limit: nat) returns (outcome: Fate)
      requires limit >= 1
      modifies this
      ensures attempts == old(attempts) + Tries(fate, old(attempts), limit)
      ensures outcome == fate(attempts - 1)
      ensures rows == if outcome.Commits? then op(old(rows)) else old(rows)
    {
      var n: nat := 0;
      while true
        invariant n < limit && attempts == old(attempts) + n && rows == old(rows)
        invariant forall i :: old(attempts) <= i < attempts ==> fate(i).OperationalError?
        decreases limit - n
      {
        TriesUnroll(fate, old(attempts), limit, n);
        outcome := SessionScope(op);
        n := n + 1;
        if !outcome.OperationalError? || n == limit {
          return;
        }
      }
    }

    /** `retry_async` around that policy. It stops at the first committed call or after
        `max(retries, 1)` calls, sleeps a geometric series in between, and applies `op`
        exactly once if it returns and not at all if it raises. */
    method RetryAsync(op: T -> T, limit: nat, retries: int, delay: real, backoff: real)
        returns (ok: bool, calls: nat, slept: real)
      requires limit >= 1
      modifies this
      ensures 1 <= calls <= AtLeastOne(retries)
      ensures forall j :: 0 <= j < calls - 1 ==> !CallCommits(fate, old(attempts), limit, j)
      ensures ok <==> CallCommits(fate, old(attempts), limit, calls - 1)
      ensures !ok ==> calls == AtLeastOne(retries)
      ensures rows == if ok then op(old(rows)) else old(rows)
      ensures attempts == CallStart(fate, old(attempts), limit, calls)
      ensures slept == SleptAfter(delay, backoff, calls - 1)
    {
      var attempt: nat := 0;
      var wait := delay;
      slept := 0.0;
      while true
        invariant attempt < AtLeastOne(retries) && rows == old(rows)
        invariant attempts == CallStart(fate, old(attempts), limit, attempt)
        invariant forall j :: 0 <= j < attempt ==> !CallCommits(fate, old(attempts), limit, j)
        invariant wait == WaitAfter(delay, backoff, attempt) && slept == SleptAfter(delay, backoff, attempt)
        decreases AtLeastOne(retries) - attempt
      {
        var outcome := AsyncRetrying(op, limit);
        if outcome.Commits? {
          return true, attempt + 1, slept;
        }
        attempt := attempt + 1;
        if attempt >= retries {
          return false, attempt, slept;
        }
        OneMoreWait(delay, backoff, attempt - 1);
        slept := slept + wait;
        wait := wait * backoff;
      }
    }

    /** Every repository write a worker makes: at most 15 transactions, all or nothing. It
        goes on through any 2 failures, and through any 14 operational ones; a failure has
        made 3 attempts at least, and 15 if all of them were operational, and has slept 0.3 s. */
    method Persist(op: T -> T) returns (ok: bool, slept: real)
      modifies this
      ensures rows == if ok then op(old(rows)) else old(rows)
      ensures old(attempts) < attempts <= old(attempts) + 15
      ensures ok <==> exists k :: old(attempts) <= k < attempts && fate(k).Commits?
      ensures !ok ==> attempts >= old(attempts) + 3
      ensures forall k :: old(attempts) <= k < old(attempts) + 3 && fate(k).Commits? ==> ok
      ensures forall k ::
        old(attempts) <= k < old(attempts) + 15 && fate(k).Commits? && AllAre(fate, OperationalError, old(attempts), k)
        ==> ok && attempts == k + 1
      ensures AllAre(fate, OperationalError, old(attempts), old(attempts) + 15) ==>
        !ok && attempts == old(attempts) + 15
      ensures AllAre(fate, OtherError, old(attempts), old(attempts) + 3) ==> !ok && attempts == old(attempts) + 3
      ensures slept == 0.0 || slept == 0.1 || slept == 0.3
      ensures !ok ==> slept == 0.3
    {
      var calls;
      ok, calls, slept := RetryAsync(op, DB_ATTEMPTS, RETRIES, DELAY, BACKOFF);
      CallStartBounds(fate, old(attempts), DB_ATTEMPTS, calls);
      CommitsOnlyAtEnd(fate, old(attempts), DB_ATTEMPTS, calls);
      SleptThrice();
      forall k | old(attempts) <= k < old(attempts) + 15 && fate(k).Commits?
        && AllAre(fate, OperationalError, old(attempts), k)
        ensures ok && attempts == k + 1
      {
        var j := if k < old(attempts) + 5 then 0 else if k < old(attempts) + 10 then 1 else 2;
        CommitEndsCall(fate, old(attempts), DB_ATTEMPTS, j, k);
        FirstCommit(fate, old(attempts), DB_ATTEMPTS, RETRIES, calls, j);
      }
      if AllAre(fate, OperationalError, old(attempts), old(attempts) + 15) {
        FullCalls(fate, old(attempts), DB_ATTEMPTS, calls);
      }
      if AllAre(fate, OtherError, old(attempts), old(attempts) + 3) {
        ShortCalls(fate, old(attempts), DB_ATTEMPTS, calls);
      }
    }
  }

  predicate AllAre(fate: nat -> Fate, f: Fate, from: nat, to: nat) {
    forall i :: from <= i < to ==> fate(i) == f
  }

  /** While all fates are operational errors, every call uses up its attempts. */
  lemma {:induction false} FullCalls(fate: nat -> Fate, k: nat, limit: nat, j: nat)
    requires limit >= 1 && AllAre(fate, OperationalError, k, k + limit * j)
    ensures CallStart(fate, k, limit, j) == k + limit * j
    ensures forall i :: 0 <= i < j ==> !CallCommits(fate, k, limit, i)
  {
    if j > 0 {
      assert limit * j == limit * (j - 1) + limit;
      FullCalls(fate, k, limit, j - 1);
      TriesUnroll(fate, k + limit * (j - 1), limit, limit - 1);
    }
  }

  /** While all fates are other errors, every call makes one attempt. */
  lemma {:induction false} ShortCalls(fate: nat -> Fate, k: nat, limit: nat, j: nat)
    requires AllAre(fate, OtherError, k, k + j)
    ensures CallStart(fate, k, limit, j) == k + j
  {
    if j > 0 {
      ShortCalls(fate, k, limit, j - 1);
    }
  }

  /** If no call but the last can have committed, then no attempt but the last can have. */
  lemma {:induction false} CommitsOnlyAtEnd(fate: nat -> Fate, k: nat, limit: nat, calls: nat)
    requires calls >= 1 && forall j :: 0 <= j < calls - 1 ==> !CallCommits(fate, k, limit, j)
    ensures k < CallStart(fate, k, limit, calls)
    ensures forall i :: k <= i < CallStart(fate, k, limit, calls) && fate(i).Commits? ==>
      i == CallStart(fate, k, limit, calls) - 1 && CallCommits(fate, k, limit, calls - 1)
    ensures CallCommits(fate, k, limit, calls - 1) ==> fate(CallStart(fate, k, limit, calls) - 1).Commits?
  {
    TriesBounds(fate, CallStart(fate, k, limit, calls - 1), limit);
    if calls > 1 {
      CommitsOnlyAtEnd(fate, k, limit, calls - 1);
    }
  }

  /** Behind operational errors only, a commit at index m ends call j, the one m is in. */
  lemma CommitEndsCall(fate: nat -> Fate, k: nat, limit: nat, j: nat, m: nat)
    requires k + limit * j <= m < k + limit * j + limit
    requires fate(m).Commits? && AllAre(fate, OperationalError, k, m)
    ensures CallCommits(fate, k, limit, j) && CallStart(fate, k, limit, j + 1) == m + 1
    ensures forall i :: 0 <= i < j ==> !CallCommits(fate, k, limit, i)
  {
    FullCalls(fate, k, limit, j);
    TriesUnroll(fate, k + limit * j, limit, m - k - limit * j);
  }

  /** A caller that stops at its first committed call, or after `retries` calls, stops at
      the first call that commits if that is among them. */
  lemma FirstCommit(fate: nat -> Fate, k: nat, limit: nat, retries: nat, calls: nat, j: nat)
    requires j < retries && CallCommits(fate, k, limit, j)
    requires forall i :: 0 <= i < j ==> !CallCommits(fate, k, limit, i)
    requires 1 <= calls <= retries && forall i :: 0 <= i < calls - 1 ==> !CallCommits(fate, k, limit, i)
    requires CallCommits(fate, k, limit, calls - 1) || calls == retries
    ensures calls - 1 == j
  {
  }

  /** The sleeps before the second and the third call: a tenth and two tenths of a second. */
  lemma SleptThrice()
    ensures SleptAfter(DELAY, BACKOFF, 0) == 0.0
    ensures SleptAfter(DELAY, BACKOFF, 1) == 0.1
    ensures SleptAfter(DELAY, BACKOFF, 2) == 0.3
  {
    assert WaitAfter(DELAY, BACKOFF, 0) == 0.1;
    assert WaitAfter(DELAY, BACKOFF, 1) == 0.2;
    assert SleptAfter(DELAY, BACKOFF, 1) == SleptAfter(DELAY, BACKOFF, 0) + WaitAfter(DELAY, BACKOFF, 0);
    assert SleptAfter(DELAY, BACKOFF, 2) == SleptAfter(DELAY, BACKOFF, 1) + WaitAfter(DELAY, BACKOFF, 1);
  }
}
