/**
 * The Redis-backed credit ledger of `src/credit_system.py`.
 *
 * The key space is abstracted as two maps held by a `CreditSystem` object: `credits`
 * (the `user:<id>:credits` keys) and `claimExpiry` (the `user:<id>:last_claim` keys,
 * recorded as the absolute second at which the key expires). Store failures are
 * oracles passed in by the caller:
 *   - `faults: seq<bool>` for the retry wrapper: attempt `i` raises iff `i < |faults| && faults[i]`;
 *   - `conflicts: seq<int>` for the WATCH/MULTI/EXEC loops: the `i`-th transaction that
 *     reaches EXEC fails with `WatchError` iff `i < |conflicts|`, and the watched key then
 *     holds `conflicts[i]`, the value a concurrent writer stored;
 *   - `reachable: bool` for the pipelines' catch-all `except Exception` path.
 * Time (`now`) is a parameter in seconds.
 */
module CreditLedger {
  import opened Base
  import opened Strings

  /** `_execute_redis_operation`: three attempts, waiting `0.1 * 2**attempt` seconds between them. */
  const MaxAttempts: nat := 3
  const RetryDelayMs: nat := 100
  /** `set_last_claim` stores the marker with `ex=86400`. */
  const ClaimCooldownSeconds: int := 86400
  /** Redis answers `TTL` with -2 for a key that does not exist (or has expired). */
  const TtlMissing: int := -2
  const DefaultDeductAmount: int := 1
  const DefaultLeaderboardSize: int := 10

  // ---------------------------------------------------------------------------
  // Keys
  // ---------------------------------------------------------------------------

  /** `_key`: `"user:{user_id}:{key_type}"`. */
  function Key(userId: int, keyType: string): string {
    "user:" + IntToString(userId) + ":" + keyType
  }

  /** `int(key.split(":")[1])`; `None` stands for the IndexError or ValueError it would raise. */
  function UserIdOfKey(key: string): Option<int> {
    var parts := Split(key, ":");
    if |parts| < 2 then None else ParseInt(parts[1])
  }

  /** The parse in `get_all_users_with_credits` recovers the id from any key `_key` builds. */
  lemma KeyParsesBack(u: int, keyType: string)
    ensures UserIdOfKey(Key(u, keyType)) == Some(u)
  {
    var s := IntToString(u);
    IntToStringNoChar(u, ':');
    assert ':' !in "user";
    assert Key(u, keyType) == "user" + [':'] + (s + [':'] + keyType);
    SplitAt("user", s + [':'] + keyType, ':');
    SplitAt(s, keyType, ':');
    IntToStringRoundTrip(u);
  }

  /** Hence distinct users never share a key. */
  lemma KeyInjective(u: int, v: int, keyType: string)
    requires Key(u, keyType) == Key(v, keyType)
    ensures u == v
  {
    KeyParsesBack(u, keyType);
    KeyParsesBack(v, keyType);
  }

  // ---------------------------------------------------------------------------
  // The retry wrapper
  // ---------------------------------------------------------------------------

  predicate AttemptFails(faults: seq<bool>, i: nat) {
    i < |faults| && faults[i]
  }

  /** Some attempt among the first three goes through. */
  predicate RetrySucceeds(faults: seq<bool>) {
    exists j :: 0 <= j < MaxAttempts && !AttemptFails(faults, j)
  }

  /** `_execute_redis_operation`: the operation runs on the first attempt that does not raise;
      `None` is the `CreditSystemError` raised after the third failure. `delaysMs` are the
      sleeps taken, one after each failed attempt except the last. */
  method ExecuteWithRetry(faults: seq<bool>) returns (attempt: Option<nat>, delaysMs: seq<nat>)
    ensures attempt.Some? <==> RetrySucceeds(faults)
    ensures attempt.Some? ==> attempt.value < MaxAttempts && !AttemptFails(faults, attempt.value)
    ensures attempt.Some? ==> forall j :: 0 <= j < attempt.value ==> AttemptFails(faults, j)
    ensures |delaysMs| == if attempt.Some? then attempt.value else MaxAttempts - 1
    ensures forall j :: 0 <= j < |delaysMs| ==> delaysMs[j] == RetryDelayMs * Pow2(j)
  {
    delaysMs := [];
    var i := 0;
    while true
      invariant 0 <= i < MaxAttempts
      invariant forall j :: 0 <= j < i ==> AttemptFails(faults, j)
      invariant |delaysMs| == i
      invariant forall j :: 0 <= j < i ==> delaysMs[j] == RetryDelayMs * Pow2(j)
      decreases MaxAttempts - i
    {
      if !AttemptFails(faults, i) {
        return Some(i), delaysMs;
      }
      if i == MaxAttempts - 1 {
        return None, delaysMs;
      }
      delaysMs := delaysMs + [RetryDelayMs * Pow2(i)];
      i := i + 1;
    }
  }

  // ---------------------------------------------------------------------------
  // The ledger on values
  // ---------------------------------------------------------------------------

  /** `int(current) if current else 0`: an absent key reads as 0. */
  function Balance(m: map<int, int>, u: int): int {
    if u in m then m[u] else 0
  }

  /** `get_credits`: the balance, or 0 when the read fails after all retries. */
  function CreditsRead(m: map<int, int>, u: int, faults: seq<bool>): int {
    if RetrySucceeds(faults) then Balance(m, u) else 0
  }

  /** `INCRBY`: creates the key at 0 first if absent. */
  function Deposit(m: map<int, int>, u: int, amount: int): map<int, int> {
    m[u := Balance(m, u) + amount]
  }

  /** The ledger when the WATCH loop decides: each transaction that reached EXEC and collided
      leaves the watched key at the concurrent writer's value, then the loop re-reads. */
  function DecidingRound(m: map<int, int>, u: int, amount: int, conflicts: seq<int>): map<int, int>
    decreases |conflicts|
  {
    if Balance(m, u) < amount || conflicts == [] then m
    else DecidingRound(m[u := conflicts[0]], u, amount, conflicts[1..])
  }

  /** `deduct_credit` once the store is reachable. */
  function Withdraw(m: map<int, int>, u: int, amount: int, conflicts: seq<int>): (map<int, int>, bool) {
    var d := DecidingRound(m, u, amount, conflicts);
    if Balance(d, u) < amount then (d, false) else (d[u := Balance(d, u) - amount], true)
  }

  /** `transfer_credits` once the store is reachable: only the sender's key is watched. */
  function Move(m: map<int, int>, from: int, to: int, amount: int, conflicts: seq<int>): (map<int, int>, bool) {
    var d := DecidingRound(m, from, amount, conflicts);
    if Balance(d, from) < amount then (d, false)
    else (Deposit(d[from := Balance(d, from) - amount], to, amount), true)
  }

  /** `batch_update_credits`: one `INCRBY` per entry of `updates`, committed together. */
  function BatchApply(m: map<int, int>, updates: map<int, int>): map<int, int> {
    map u | u in m.Keys + updates.Keys :: Balance(m, u) + (if u in updates then updates[u] else 0)
  }

  /** The absolute expiry of the claim marker as Redis's `TTL` reports it at `now`. */
  function Ttl(expiry: map<int, int>, u: int, now: int): (t: int)
    ensures t == TtlMissing || t >= 1
  {
    if u in expiry && expiry[u] > now then expiry[u] - now else TtlMissing
  }

  /** `can_claim`'s answer for a TTL reply: `(ttl <= 0, max(0, ttl))`. */
  function ClaimAnswer(ttl: int): (bool, int) {
    (ttl <= 0, Max(0, ttl))
  }

  // --- properties of the value-level ledger ---------------------------------

  /** The WATCH loop only ever rewrites the watched key. */
  lemma {:induction false} DecidingRoundFrame(m: map<int, int>, u: int, amount: int, conflicts: seq<int>)
    ensures var d := DecidingRound(m, u, amount, conflicts);
            forall v :: v != u ==> (v in d <==> v in m) && (v in m ==> d[v] == m[v])
    decreases |conflicts|
  {
    if !(Balance(m, u) < amount || conflicts == []) {
      var m1 := m[u := conflicts[0]];
      assert DecidingRound(m, u, amount, conflicts) == DecidingRound(m1, u, amount, conflicts[1..]);
      DecidingRoundFrame(m1, u, amount, conflicts[1..]);
    }
  }

  /** It decides on a value the holder had, or one a concurrent writer stored. */
  lemma {:induction false} DecidingRoundValue(m: map<int, int>, u: int, amount: int, conflicts: seq<int>)
    ensures var d := DecidingRound(m, u, amount, conflicts);
            Balance(d, u) == Balance(m, u) || Balance(d, u) in conflicts
    decreases |conflicts|
  {
    if !(Balance(m, u) < amount || conflicts == []) {
      DecidingRoundValue(m[u := conflicts[0]], u, amount, conflicts[1..]);
    }
  }

  /** Without interference the deduction decides on the current balance: it fails and changes
      nothing iff the balance is below `amount`, otherwise it subtracts exactly `amount`. */
  lemma WithdrawUncontended(m: map<int, int>, u: int, amount: int)
    ensures Withdraw(m, u, amount, []).1 <==> Balance(m, u) >= amount
    ensures Withdraw(m, u, amount, []).1 ==> Withdraw(m, u, amount, []).0 == m[u := Balance(m, u) - amount]
    ensures !Withdraw(m, u, amount, []).1 ==> Withdraw(m, u, amount, []).0 == m
  {
  }

  /** A deduction never drives the deducted balance below zero, and it leaves every other
      balance alone; so a ledger of non-negative balances stays non-negative when the
      concurrent writers also store non-negative values. */
  lemma WithdrawKeepsNonNegative(m: map<int, int>, u: int, amount: int, conflicts: seq<int>)
    requires forall v :: v in m ==> m[v] >= 0
    requires forall i :: 0 <= i < |conflicts| ==> conflicts[i] >= 0
    ensures var (r, ok) := Withdraw(m, u, amount, conflicts);
            forall v :: v in r ==> r[v] >= 0
  {
    var d := DecidingRound(m, u, amount, conflicts);
    DecidingRoundFrame(m, u, amount, conflicts);
    DecidingRoundValue(m, u, amount, conflicts);
    assert Balance(d, u) >= 0;
  }

  /** Adding `a` and then deducting `a` restores the balance the user had (when it was
      non-negative, so that the check `current < amount` passes). */
  lemma DepositThenWithdraw(m: map<int, int>, u: int, a: int)
    requires Balance(m, u) >= 0
    ensures var (r, ok) := Withdraw(Deposit(m, u, a), u, a, []);
            ok && forall v :: Balance(r, v) == Balance(m, v)
  {
  }

  /** `k` deductions of `a` in a row, uncontended: the final ledger and how many succeeded. */
  function WithdrawMany(m: map<int, int>, u: int, a: int, k: nat): (map<int, int>, nat)
    decreases k
  {
    if k == 0 then (m, 0)
    else
      var (m1, ok) := Withdraw(m, u, a, []);
      var (m2, n) := WithdrawMany(m1, u, a, k - 1);
      (m2, n + if ok then 1 else 0)
  }

  /** With a balance `B >= 0` and a positive amount `a`, `k` deductions succeed `n` times
      where `a * n <= B` (a balance pays for no more than `B / a` requests), the balance ends
      at exactly `B - a * n`, and the requests stop succeeding only when less than `a` is left. */
  lemma {:induction false} WithdrawManyCount(m: map<int, int>, u: int, a: int, k: nat)
    requires a > 0 && Balance(m, u) >= 0
    ensures var (r, n) := WithdrawMany(m, u, a, k);
            n <= k && a * n <= Balance(m, u) && Balance(r, u) == Balance(m, u) - a * n &&
            (n < k ==> Balance(r, u) < a)
    decreases k
  {
    var b := Balance(m, u);
    if k > 0 {
      WithdrawUncontended(m, u, a);
      var (m1, ok) := Withdraw(m, u, a, []);
      if b >= a {
        assert ok && Balance(m1, u) == b - a;
        WithdrawManyCount(m1, u, a, k - 1);
        var (r, n) := WithdrawMany(m1, u, a, k - 1);
        assert WithdrawMany(m, u, a, k) == (r, n + 1);
        assert a * (n + 1) == a * n + a;
      } else {
        WithdrawManyNone(m, u, a, k - 1);
      }
    }
  }

  lemma {:induction false} WithdrawManyNone(m: map<int, int>, u: int, a: int, k: nat)
    requires 0 <= Balance(m, u) < a
    ensures WithdrawMany(m, u, a, k).1 == 0 && WithdrawMany(m, u, a, k).0 == m
    decreases k
  {
    if k > 0 {
      WithdrawUncontended(m, u, a);
      WithdrawManyNone(m, u, a, k - 1);
    }
  }

  /** A transfer moves `amount` between two distinct users and so keeps their combined
      balance; a refused one writes nothing, leaving the ledger as the concurrent writers left
      it. Every other balance is untouched. */
  lemma MoveConserves(m: map<int, int>, from: int, to: int, amount: int, conflicts: seq<int>)
    ensures var d := DecidingRound(m, from, amount, conflicts);
            var (r, ok) := Move(m, from, to, amount, conflicts);
            (ok <==> Balance(d, from) >= amount) &&
            (ok && from != to ==> Balance(r, from) == Balance(d, from) - amount
                                  && Balance(r, to) == Balance(d, to) + amount) &&
            (ok && from == to ==> Balance(r, from) == Balance(d, from)) &&
            (!ok ==> r == d) &&
            Balance(r, from) + Balance(r, to) == Balance(d, from) + Balance(d, to) &&
            (forall v :: v != from && v != to ==> Balance(r, v) == Balance(m, v))
  {
    DecidingRoundFrame(m, from, amount, conflicts);
  }

  /** Uncontended, that is the ledger the call started from. */
  lemma MoveUncontended(m: map<int, int>, from: int, to: int, amount: int)
    ensures var (r, ok) := Move(m, from, to, amount, []);
            (ok <==> Balance(m, from) >= amount) &&
            Balance(r, from) + Balance(r, to) == Balance(m, from) + Balance(m, to) &&
            (!ok ==> r == m)
  {
    MoveConserves(m, from, to, amount, []);
  }

  /** A batch adds each user's delta and changes no one else; neither the sign of a delta
      nor the resulting balance is checked, and applying the opposite deltas undoes it. */
  lemma BatchApplyEffect(m: map<int, int>, updates: map<int, int>)
    ensures forall u :: u in updates ==> Balance(BatchApply(m, updates), u) == Balance(m, u) + updates[u]
    ensures forall u :: u !in updates ==> Balance(BatchApply(m, updates), u) == Balance(m, u)
    ensures var undo := map u | u in updates :: -updates[u];
            forall u :: Balance(BatchApply(BatchApply(m, updates), undo), u) == Balance(m, u)
  {
  }

  /** The daily-claim timeline: after a marker set at time `t` (by the corrected
      `set_last_claim`; the one as written never sets it), a claim at `now` is refused
      with the whole remaining time until `t + 86400`, and allowed from then on. */
  lemma ClaimCooldown(expiry: map<int, int>, u: int, t: int, now: int)
    requires now >= t
    ensures var e := expiry[u := t + ClaimCooldownSeconds];
            var (can, remaining) := ClaimAnswer(Ttl(e, u, now));
            (can <==> now >= t + ClaimCooldownSeconds) &&
            (!can ==> remaining == t + ClaimCooldownSeconds - now && 0 < remaining <= ClaimCooldownSeconds) &&
            (can ==> remaining == 0)
  {
  }

  // ---------------------------------------------------------------------------
  // The leaderboard
  // ---------------------------------------------------------------------------

  /** Inserting `p` before the first entry whose credits are not greater: an entry never
      passes one with equal credits that came before it (Python's sort is stable, also with
      `reverse=True`). */
  function InsertDesc(p: (int, int), s: seq<(int, int)>): seq<(int, int)> {
    if s == [] || s[0].1 <= p.1 then [p] + s else [s[0]] + InsertDesc(p, s[1..])
  }

  /** `sorted(..., key=lambda x: x[1], reverse=True)`. */
  function SortDesc(ps: seq<(int, int)>): seq<(int, int)> {
    if ps == [] then [] else InsertDesc(ps[0], SortDesc(ps[1..]))
  }

  predicate SortedDesc(s: seq<(int, int)>) {
    forall i, j :: 0 <= i < j < |s| ==> s[i].1 >= s[j].1
  }

  /** The entries with `v` credits, in order. */
  function WithCredits(s: seq<(int, int)>, v: int): seq<(int, int)> {
    if s == [] then [] else (if s[0].1 == v then [s[0]] else []) + WithCredits(s[1..], v)
  }

  /** Python's `xs[:n]`: a negative `n` drops the last `-n` items. */
  function SliceTo<T>(xs: seq<T>, n: int): (r: seq<T>)
    ensures r <= xs
    ensures n >= 0 ==> |r| == Min(n, |xs|)
    ensures n < 0 ==> |r| == Max(0, |xs| + n)
  {
    if n >= 0 then (if n <= |xs| then xs[..n] else xs)
    else if |xs| + n >= 0 then xs[..|xs| + n] else []
  }

  lemma {:induction false} InsertDescPermutes(p: (int, int), s: seq<(int, int)>)
    ensures multiset(InsertDesc(p, s)) == multiset(s) + multiset{p}
    decreases |s|
  {
    if !(s == [] || s[0].1 <= p.1) {
      InsertDescPermutes(p, s[1..]);
      assert s == [s[0]] + s[1..];
    }
  }

  lemma WithCreditsCons(x: (int, int), s: seq<(int, int)>, v: int)
    ensures WithCredits([x] + s, v) == (if x.1 == v then [x] else []) + WithCredits(s, v)
  {
    assert ([x] + s)[1..] == s;
  }

  lemma {:induction false} InsertDescStable(p: (int, int), s: seq<(int, int)>, v: int)
    ensures WithCredits(InsertDesc(p, s), v) == (if p.1 == v then [p] else []) + WithCredits(s, v)
    decreases |s|
  {
    if s == [] || s[0].1 <= p.1 {
      WithCreditsCons(p, s, v);
    } else {
      var t := InsertDesc(p, s[1..]);
      assert InsertDesc(p, s) == [s[0]] + t;
      InsertDescStable(p, s[1..], v);
      WithCreditsCons(s[0], t, v);
      WithCreditsCons(s[0], s[1..], v);
      assert [s[0]] + s[1..] == s;
      var rest := WithCredits(s[1..], v);
      if p.1 == v {
        assert WithCredits(InsertDesc(p, s), v) == [p] + rest;
      } else if s[0].1 == v {
        assert WithCredits(InsertDesc(p, s), v) == [s[0]] + rest;
      } else {
        assert WithCredits(InsertDesc(p, s), v) == rest;
      }
    }
  }

  /** Every entry of the tail is bounded by a sorted list's head. */
  lemma SortedHeadBounds(s: seq<(int, int)>)
    requires SortedDesc(s) && s != []
    ensures SortedDesc(s[1..])
    ensures forall x :: x in multiset(s[1..]) ==> s[0].1 >= x.1
  {
    forall x | x in multiset(s[1..]) ensures s[0].1 >= x.1 {
      var j :| 0 <= j < |s[1..]| && s[1..][j] == x;
      assert s[j + 1] == x;
    }
    forall i, j | 0 <= i < j < |s[1..]| ensures s[1..][i].1 >= s[1..][j].1 {
      assert s[1..][i] == s[i + 1] && s[1..][j] == s[j + 1];
    }
  }

  /** An entry no smaller than everything in a sorted list can go in front of it. */
  lemma ConsSorted(x: (int, int), t: seq<(int, int)>)
    requires SortedDesc(t)
    requires forall k :: 0 <= k < |t| ==> t[k].1 <= x.1
    ensures SortedDesc([x] + t)
  {
    var r := [x] + t;
    forall i, j | 0 <= i < j < |r| ensures r[i].1 >= r[j].1 {
      assert r[j] == t[j - 1];
      if i > 0 {
        assert r[i] == t[i - 1];
      }
    }
  }

  /** Inserting keeps every balance under a common bound. */
  lemma {:induction false} InsertDescBounded(p: (int, int), s: seq<(int, int)>, b: int)
    requires p.1 <= b
    requires forall k :: 0 <= k < |s| ==> s[k].1 <= b
    ensures forall k :: 0 <= k < |InsertDesc(p, s)| ==> InsertDesc(p, s)[k].1 <= b
    decreases |s|
  {
    if s != [] && p.1 < s[0].1 {
      InsertDescBounded(p, s[1..], b);
      var t := InsertDesc(p, s[1..]);
      assert InsertDesc(p, s) == [s[0]] + t;
      forall k | 0 <= k < |[s[0]] + t| ensures ([s[0]] + t)[k].1 <= b {
        if k > 0 {
          assert ([s[0]] + t)[k] == t[k - 1];
        }
      }
    }
  }

  lemma {:induction false} InsertDescSorted(p: (int, int), s: seq<(int, int)>)
    requires SortedDesc(s)
    ensures SortedDesc(InsertDesc(p, s))
    decreases |s|
  {
    if s == [] || s[0].1 <= p.1 {
      ConsSorted(p, s);
    } else {
      SortedHeadBounds(s);
      InsertDescSorted(p, s[1..]);
      forall k | 0 <= k < |s[1..]| ensures s[1..][k].1 <= s[0].1 {
        assert s[1..][k] == s[k + 1];
      }
      InsertDescBounded(p, s[1..], s[0].1);
      ConsSorted(s[0], InsertDesc(p, s[1..]));
    }
  }

  /** The leaderboard order is descending by credits, a permutation of its input, and stable:
      the users with any given balance keep their original relative order. */
  lemma {:induction false} SortDescProps(ps: seq<(int, int)>)
    ensures SortedDesc(SortDesc(ps))
    ensures multiset(SortDesc(ps)) == multiset(ps)
    ensures forall v :: WithCredits(SortDesc(ps), v) == WithCredits(ps, v)
    decreases |ps|
  {
    if ps != [] {
      SortDescProps(ps[1..]);
      InsertDescSorted(ps[0], SortDesc(ps[1..]));
      InsertDescPermutes(ps[0], SortDesc(ps[1..]));
      assert ps == [ps[0]] + ps[1..];
      forall v ensures WithCredits(SortDesc(ps), v) == WithCredits(ps, v) {
        InsertDescStable(ps[0], SortDesc(ps[1..]), v);
      }
    }
  }

  /** An entry left off a top-`n` board has no more credits than anyone on it. */
  lemma LeaderboardDominates(ps: seq<(int, int)>, n: int, p: (int, int))
    requires p in ps
    ensures var board := SliceTo(SortDesc(ps), n);
            p in board || forall i :: 0 <= i < |board| ==> board[i].1 >= p.1
  {
    SortDescProps(ps);
    DominatesSorted(SortDesc(ps), n, p);
  }

  /** In a prefix of a sorted list, an entry that is left out is bounded by every kept one. */
  lemma DominatesSorted(s: seq<(int, int)>, n: int, p: (int, int))
    requires SortedDesc(s) && p in multiset(s)
    ensures var board := SliceTo(s, n);
            p in board || forall i :: 0 <= i < |board| ==> board[i].1 >= p.1
  {
    var board := SliceTo(s, n);
    var j :| 0 <= j < |s| && s[j] == p;
    if j < |board| {
      assert board[j] == p;
    } else {
      forall i | 0 <= i < |board| ensures board[i].1 >= p.1 {
        assert board[i] == s[i];
      }
    }
  }


  // ---------------------------------------------------------------------------
  // The object
  // ---------------------------------------------------------------------------

  class CreditSystem {
    var credits: map<int, int>
    var claimExpiry: map<int, int>

    constructor ()
      ensures credits == map[] && claimExpiry == map[]
    {
      credits, claimExpiry := map[], map[];
    }

    method AddCredit(u: int, amount: int, faults: seq<bool>) returns (ok: bool)
      modifies this
      ensures ok <==> RetrySucceeds(faults)
      ensures credits == if ok then Deposit(old(credits), u, amount) else old(credits)
      ensures claimExpiry == old(claimExpiry)
    {
      var attempt, _ := ExecuteWithRetry(faults);
      if attempt.None? {
        return false;
      }
      credits := Deposit(credits, u, amount);
      ok := true;
    }

    /** `deduct_credit`: the WATCH/GET/MULTI/DECRBY/EXEC loop. */
    method DeductCredit(u: int, amount: int, conflicts: seq<int>, reachable: bool) returns (ok: bool)
      modifies this
      ensures !reachable ==> !ok && credits == old(credits)
      ensures reachable ==> (credits, ok) == Withdraw(old(credits), u, amount, conflicts)
      ensures claimExpiry == old(claimExpiry)
    {
      if !reachable {
        return false;
      }
      var round := 0;
      while true
        invariant 0 <= round <= |conflicts|
        invariant Withdraw(credits, u, amount, conflicts[round..]) == Withdraw(old(credits), u, amount, conflicts)
        invariant claimExpiry == old(claimExpiry)
        decreases |conflicts| - round
      {
        var current := Balance(credits, u);
        if current < amount {
          return false;
        }
        if round < |conflicts| {
          // EXEC raised WatchError: a concurrent writer changed the key; watch and read again.
          assert conflicts[round..][1..] == conflicts[round + 1..];
          credits := credits[u := conflicts[round]];
          round := round + 1;
        } else {
          credits := credits[u := current - amount];
          return true;
        }
      }
    }

    method GetCredits(u: int, faults: seq<bool>) returns (n: int)
      ensures n == CreditsRead(credits, u, faults)
      ensures u !in credits ==> n == 0
      ensures !RetrySucceeds(faults) ==> n == 0
    {
      var attempt, _ := ExecuteWithRetry(faults);
      if attempt.None? {
        return 0;
      }
      n := if u in credits then credits[u] else 0;
    }

    method CanClaim(u: int, now: int, faults: seq<bool>) returns (can: bool, remaining: int)
      ensures RetrySucceeds(faults) ==> (can, remaining) == ClaimAnswer(Ttl(claimExpiry, u, now))
      ensures !RetrySucceeds(faults) ==> !can && remaining == 0
      ensures remaining >= 0 && (can ==> remaining == 0)
    {
      var attempt, _ := ExecuteWithRetry(faults);
      if attempt.None? {
        return false, 0;
      }
      var ttl := Ttl(claimExpiry, u, now);
      can := ttl <= 0;
      remaining := Max(0, ttl);
    }

    /** `set_last_claim` as written: it passes `ex=86400` to `_execute_redis_operation`, which
        takes positional arguments only, so the call raises `TypeError` before Redis is
        contacted; the handler returns `False` and no marker is ever written. */
    method SetLastClaim(u: int, now: int) returns (ok: bool)
      ensures !ok
      ensures claimExpiry == old(claimExpiry) && credits == old(credits)
    {
      ok := false;
    }

    /** `set_last_claim` with the expiry reaching `SET`: the marker `user:<id>:last_claim`
        expires 86400 seconds after `now`. */
    method SetLastClaimCorrected(u: int, now: int, faults: seq<bool>) returns (ok: bool)
      modifies this
      ensures ok <==> RetrySucceeds(faults)
      ensures claimExpiry == if ok then old(claimExpiry)[u := now + ClaimCooldownSeconds] else old(claimExpiry)
      ensures credits == old(credits)
    {
      var attempt, _ := ExecuteWithRetry(faults);
      if attempt.None? {
        return false;
      }
      claimExpiry := claimExpiry[u := now + ClaimCooldownSeconds];
      ok := true;
    }

    method ResetCredits(u: int, faults: seq<bool>) returns (ok: bool)
      modifies this
      ensures ok <==> RetrySucceeds(faults)
      ensures credits == if ok then old(credits)[u := 0] else old(credits)
      ensures claimExpiry == old(claimExpiry)
    {
      ok := SetCredits(u, 0, faults);
    }

    method SetCredits(u: int, amount: int, faults: seq<bool>) returns (ok: bool)
      modifies this
      ensures ok <==> RetrySucceeds(faults)
      ensures credits == if ok then old(credits)[u := amount] else old(credits)
      ensures claimExpiry == old(claimExpiry)
    {
      var attempt, _ := ExecuteWithRetry(faults);
      if attempt.None? {
        return false;
      }
      credits := credits[u := amount];
      ok := true;
    }

    /** `get_all_users_with_credits`: `KEYS user:*:credits`, each key parsed back to its id.
        The reply's order is the store's; the model picks the keys in an arbitrary order. */
    method GetAllUsersWithCredits(faults: seq<bool>) returns (ids: seq<int>)
      ensures RetrySucceeds(faults) ==> (forall u :: u in ids <==> u in credits) && |ids| == |credits|
      ensures !RetrySucceeds(faults) ==> ids == []
      ensures forall i, j :: 0 <= i < j < |ids| ==> ids[i] != ids[j]
    {
      var attempt, _ := ExecuteWithRetry(faults);
      if attempt.None? {
        return [];
      }
      ids := [];
      var rest := credits.Keys;
      while rest != {}
        invariant rest <= credits.Keys
        invariant forall u :: u in ids <==> u in credits.Keys && u !in rest
        invariant |ids| + |rest| == |credits.Keys|
        invariant forall i, j :: 0 <= i < j < |ids| ==> ids[i] != ids[j]
        decreases |rest|
      {
        NonEmptyHasMember(rest);
        var u :| u in rest;
        KeyParsesBack(u, "credits");
        var id := UserIdOfKey(Key(u, "credits"));
        ids := ids + [id.value];
        rest := rest - {u};
      }
    }

    /** `get_credit_leaderboard`: every listed user's balance (`get_credits`, with its own
        retries), sorted by credits descending and cut to `top_n` entries. */
    method GetCreditLeaderboard(topN: int, keysFaults: seq<bool>, readFaults: map<int, seq<bool>>)
      returns (board: seq<(int, int)>)
      ensures IsLeaderboard(board, credits, keysFaults, readFaults, topN)
    {
      var ids := GetAllUsersWithCredits(keysFaults);
      var pairs: seq<(int, int)> := [];
      var i := 0;
      while i < |ids|
        invariant 0 <= i <= |ids| && |pairs| == i
        invariant forall k :: 0 <= k < i ==> pairs[k] == (ids[k], CreditsRead(credits, ids[k], FaultsFor(readFaults, ids[k])))
      {
        var c := GetCredits(ids[i], FaultsFor(readFaults, ids[i]));
        pairs := pairs + [(ids[i], c)];
        i := i + 1;
      }
      SortDescProps(pairs);
      var sorted := SortDesc(pairs);
      board := SliceTo(sorted, topN);
      LeaderboardSpec(pairs, ids, sorted, board, credits, keysFaults, readFaults, topN);
    }

    /** `batch_update_credits`: the queued `INCRBY`s commit together or not at all. */
    method BatchUpdateCredits(updates: map<int, int>, reachable: bool) returns (ok: bool)
      modifies this
      ensures ok == reachable
      ensures credits == if ok then BatchApply(old(credits), updates) else old(credits)
      ensures claimExpiry == old(claimExpiry)
    {
      var staged := credits;
      var pending := updates.Keys;
      while pending != {}
        invariant pending <= updates.Keys
        invariant staged.Keys == credits.Keys + (updates.Keys - pending)
        invariant forall u :: Balance(staged, u) == Balance(credits, u) + Applied(updates, pending, u)
        invariant credits == old(credits) && claimExpiry == old(claimExpiry)
        decreases |pending|
      {
        NonEmptyHasMember(pending);
        var u :| u in pending;
        BatchStep(credits, updates, pending, staged, u);
        staged := Deposit(staged, u, updates[u]);
        pending := pending - {u};
      }
      StagedIsBatch(credits, updates, staged);
      if !reachable {
        return false;
      }
      credits := staged;
      ok := true;
    }

    /** `transfer_credits`: WATCH on the sender only, then DECRBY and INCRBY in one transaction. */
    method TransferCredits(from: int, to: int, amount: int, conflicts: seq<int>, reachable: bool)
      returns (ok: bool)
      modifies this
      ensures !reachable ==> !ok && credits == old(credits)
      ensures reachable ==> (credits, ok) == Move(old(credits), from, to, amount, conflicts)
      ensures claimExpiry == old(claimExpiry)
    {
      if !reachable {
        return false;
      }
      var round := 0;
      while true
        invariant 0 <= round <= |conflicts|
        invariant Move(credits, from, to, amount, conflicts[round..]) == Move(old(credits), from, to, amount, conflicts)
        invariant claimExpiry == old(claimExpiry)
        decreases |conflicts| - round
      {
        var current := Balance(credits, from);
        if current < amount {
          return false;
        }
        if round < |conflicts| {
          assert conflicts[round..][1..] == conflicts[round + 1..];
          credits := credits[from := conflicts[round]];
          round := round + 1;
        } else {
          credits := credits[from := current - amount];
          credits := credits[to := Balance(credits, to) + amount];
          return true;
        }
      }
    }
  }

  /** What `get_credit_leaderboard` promises: the board is in descending order of credits, has
      `top_n` entries (Python's slice `[:top_n]`) out of all users when the key listing succeeds
      and none otherwise, lists distinct known users with the balance `get_credits` reads for
      them, and everyone left out reads no more than anyone on it. */
  predicate IsLeaderboard(board: seq<(int, int)>, credits: map<int, int>, keysFaults: seq<bool>,
                          readFaults: map<int, seq<bool>>, topN: int)
  {
    SortedDesc(board) &&
    (var n := if RetrySucceeds(keysFaults) then |credits| else 0;
     |board| == if topN >= 0 then Min(topN, n) else Max(0, n + topN)) &&
    LeaderboardEntries(board, credits, readFaults) &&
    (RetrySucceeds(keysFaults) ==> LeaderboardTopOk(board, credits, readFaults))
  }

  /** Distinct known users, each with the balance read for them. */
  predicate LeaderboardEntries(board: seq<(int, int)>, credits: map<int, int>, readFaults: map<int, seq<bool>>) {
    (forall i :: 0 <= i < |board| ==>
       board[i].0 in credits && board[i].1 == CreditsRead(credits, board[i].0, FaultsFor(readFaults, board[i].0))) &&
    (forall i, j :: 0 <= i < j < |board| ==> board[i].0 != board[j].0)
  }

  /** No user left off the board reads more than one on it. */
  predicate LeaderboardTopOk(board: seq<(int, int)>, credits: map<int, int>, readFaults: map<int, seq<bool>>) {
    forall u :: u in credits && (forall i :: 0 <= i < |board| ==> board[i].0 != u) ==>
      forall i :: 0 <= i < |board| ==> board[i].1 >= CreditsRead(credits, u, FaultsFor(readFaults, u))
  }

  /** What `get_credit_leaderboard` promises, from the facts its two loops establish. */
  lemma LeaderboardSpec(pairs: seq<(int, int)>, ids: seq<int>, sorted: seq<(int, int)>, board: seq<(int, int)>,
                        credits: map<int, int>,
                        keysFaults: seq<bool>, readFaults: map<int, seq<bool>>, topN: int)
    requires RetrySucceeds(keysFaults) ==> (forall u :: u in ids <==> u in credits) && |ids| == |credits|
    requires !RetrySucceeds(keysFaults) ==> ids == []
    requires forall i, j :: 0 <= i < j < |ids| ==> ids[i] != ids[j]
    requires |pairs| == |ids|
    requires forall k :: 0 <= k < |ids| ==> pairs[k] == (ids[k], CreditsRead(credits, ids[k], FaultsFor(readFaults, ids[k])))
    requires SortedDesc(sorted) && multiset(sorted) == multiset(pairs)
    requires board == SliceTo(sorted, topN)
    ensures IsLeaderboard(board, credits, keysFaults, readFaults, topN)
  {
    assert |sorted| == |pairs| by {
      LeaderboardLength(pairs, sorted);
    }
    assert SortedDesc(board) by {
      SortedPrefix(sorted, board);
    }
    assert LeaderboardEntries(board, credits, readFaults) by {
      forall k | 0 <= k < |ids| ensures ids[k] in credits {
        assert ids[k] in ids;
      }
      LeaderboardFacts(pairs, ids, sorted, board, credits, readFaults, topN);
    }
    if RetrySucceeds(keysFaults) {
      assert LeaderboardTopOk(board, credits, readFaults) by {
        LeaderboardTop(pairs, ids, sorted, board, credits, readFaults, topN);
        LeaderboardTopOfAll(ids, board, credits, readFaults);
      }
    }
  }


  lemma LeaderboardLength(pairs: seq<(int, int)>, sorted: seq<(int, int)>)
    requires multiset(sorted) == multiset(pairs)
    ensures |sorted| == |pairs|
  {
    assert |multiset(sorted)| == |multiset(pairs)|;
  }

  lemma LeaderboardTopOfAll(ids: seq<int>, board: seq<(int, int)>, credits: map<int, int>, readFaults: map<int, seq<bool>>)
    requires forall u :: u in ids <==> u in credits
    requires forall u :: u in ids && (forall i :: 0 <= i < |board| ==> board[i].0 != u) ==>
               forall i :: 0 <= i < |board| ==> board[i].1 >= CreditsRead(credits, u, FaultsFor(readFaults, u))
    ensures forall u :: u in credits && (forall i :: 0 <= i < |board| ==> board[i].0 != u) ==>
              forall i :: 0 <= i < |board| ==> board[i].1 >= CreditsRead(credits, u, FaultsFor(readFaults, u))
  {
  }

  lemma SortedPrefix(s: seq<(int, int)>, t: seq<(int, int)>)
    requires SortedDesc(s) && t <= s
    ensures SortedDesc(t)
  {
    forall i, j | 0 <= i < j < |t| ensures t[i].1 >= t[j].1 {
      assert t[i] == s[i] && t[j] == s[j];
    }
  }

  /** A user in the listing but not on the board has no more credits than anyone on it. */
  lemma LeaderboardTop(pairs: seq<(int, int)>, ids: seq<int>, sorted: seq<(int, int)>, board: seq<(int, int)>,
                       credits: map<int, int>, readFaults: map<int, seq<bool>>, topN: int)
    requires |pairs| == |ids|
    requires forall k :: 0 <= k < |ids| ==> pairs[k] == (ids[k], CreditsRead(credits, ids[k], FaultsFor(readFaults, ids[k])))
    requires SortedDesc(sorted) && multiset(sorted) == multiset(pairs)
    requires board == SliceTo(sorted, topN)
    ensures forall u :: u in ids && (forall i :: 0 <= i < |board| ==> board[i].0 != u) ==>
              forall i :: 0 <= i < |board| ==> board[i].1 >= CreditsRead(credits, u, FaultsFor(readFaults, u))
  {
    forall u | u in ids && (forall i :: 0 <= i < |board| ==> board[i].0 != u)
      ensures forall i :: 0 <= i < |board| ==> board[i].1 >= CreditsRead(credits, u, FaultsFor(readFaults, u))
    {
      var j :| 0 <= j < |ids| && ids[j] == u;
      assert pairs[j] in multiset(sorted);
      DominatesSorted(sorted, topN, pairs[j]);
      assert pairs[j] !in board;
    }
  }

  /** The delta already staged for `u` while `pending` users remain. */
  function Applied(updates: map<int, int>, pending: set<int>, u: int): int {
    if u in updates && u !in pending then updates[u] else 0
  }

  /** Staging one more `INCRBY` keeps the loop's account of what is staged. */
  lemma BatchStep(m: map<int, int>, updates: map<int, int>, pending: set<int>, staged: map<int, int>, u: int)
    requires u in pending && pending <= updates.Keys
    requires staged.Keys == m.Keys + (updates.Keys - pending)
    requires forall v :: Balance(staged, v) == Balance(m, v) + Applied(updates, pending, v)
    ensures Deposit(staged, u, updates[u]).Keys == m.Keys + (updates.Keys - (pending - {u}))
    ensures forall v :: Balance(Deposit(staged, u, updates[u]), v) == Balance(m, v) + Applied(updates, pending - {u}, v)
  {
    forall v ensures Balance(Deposit(staged, u, updates[u]), v) == Balance(m, v) + Applied(updates, pending - {u}, v) {
      if v != u {
        assert Applied(updates, pending - {u}, v) == Applied(updates, pending, v);
      }
    }
  }

  lemma StagedIsBatch(m: map<int, int>, updates: map<int, int>, staged: map<int, int>)
    requires staged.Keys == m.Keys + updates.Keys
    requires forall u :: Balance(staged, u) == Balance(m, u) + Applied(updates, {}, u)
    ensures staged == BatchApply(m, updates)
  {
    var b := BatchApply(m, updates);
    assert b.Keys == staged.Keys;
    forall u | u in staged ensures staged[u] == b[u] {
      assert Balance(staged, u) == staged[u];
    }
  }

  /** The fault oracle for one user's read in the leaderboard's `gather`. */
  function FaultsFor(readFaults: map<int, seq<bool>>, u: int): seq<bool> {
    if u in readFaults then readFaults[u] else []
  }

  /** The board is a slice of the sorted pairs: its entries are pairs, with distinct users. */
  lemma LeaderboardFacts(pairs: seq<(int, int)>, ids: seq<int>, sorted: seq<(int, int)>, board: seq<(int, int)>,
                         credits: map<int, int>, readFaults: map<int, seq<bool>>, topN: int)
    requires |pairs| == |ids|
    requires forall k :: 0 <= k < |ids| ==> ids[k] in credits
    requires forall i, j :: 0 <= i < j < |ids| ==> ids[i] != ids[j]
    requires forall k :: 0 <= k < |ids| ==> pairs[k] == (ids[k], CreditsRead(credits, ids[k], FaultsFor(readFaults, ids[k])))
    requires multiset(sorted) == multiset(pairs) && board <= sorted
    ensures forall i :: 0 <= i < |board| ==>
              board[i].0 in credits && board[i].1 == CreditsRead(credits, board[i].0, FaultsFor(readFaults, board[i].0))
    ensures forall i, j :: 0 <= i < j < |board| ==> board[i].0 != board[j].0
  {
    forall i | 0 <= i < |board|
      ensures board[i].0 in credits && board[i].1 == CreditsRead(credits, board[i].0, FaultsFor(readFaults, board[i].0))
    {
      assert board[i] == sorted[i];
      assert sorted[i] in multiset(pairs);
    }
    PermutationOfDistinct(pairs, sorted);
    forall i, j | 0 <= i < j < |board| ensures board[i].0 != board[j].0 {
      assert board[i] == sorted[i] && board[j] == sorted[j];
      assert sorted[i] in multiset(pairs) && sorted[j] in multiset(pairs);
      var a :| 0 <= a < |pairs| && pairs[a] == sorted[i];
      var b :| 0 <= b < |pairs| && pairs[b] == sorted[j];
      assert a != b;
    }
  }

  /** A permutation of entries with distinct users has no entry twice. */
  lemma PermutationOfDistinct(pairs: seq<(int, int)>, sorted: seq<(int, int)>)
    requires forall x, y :: 0 <= x < y < |pairs| ==> pairs[x].0 != pairs[y].0
    requires multiset(sorted) == multiset(pairs)
    ensures forall i, j :: 0 <= i < j < |sorted| ==> sorted[i] != sorted[j]
  {
    forall i, j | 0 <= i < j < |sorted| ensures sorted[i] != sorted[j] {
      RepeatCounts(sorted, i, j);
      assert sorted[i] in multiset(pairs);
      var a :| 0 <= a < |pairs| && pairs[a] == sorted[i];
      DistinctCountsOnce(pairs, a);
    }
  }

  lemma RepeatCounts(s: seq<(int, int)>, i: int, j: int)
    requires 0 <= i < j < |s|
    ensures s[i] == s[j] ==> multiset(s)[s[i]] >= 2
  {
    assert s == s[..j] + s[j..];
    assert s[..j][i] == s[i];
    assert s[j..][0] == s[j];
    assert multiset(s) == multiset(s[..j]) + multiset(s[j..]);
  }

  lemma DistinctCountsOnce(pairs: seq<(int, int)>, a: int)
    requires 0 <= a < |pairs|
    requires forall x, y :: 0 <= x < y < |pairs| ==> pairs[x].0 != pairs[y].0
    ensures multiset(pairs)[pairs[a]] == 1
  {
    var e := pairs[a];
    assert pairs == pairs[..a] + [e] + pairs[a + 1..];
    assert e !in pairs[..a] by {
      forall x | 0 <= x < a ensures pairs[..a][x] != e { assert pairs[..a][x] == pairs[x]; }
    }
    var tl := pairs[a + 1..];
    assert e !in tl by {
      forall x | 0 <= x < |tl| ensures tl[x] != e { assert tl[x] == pairs[a + 1 + x]; }
    }
    assert multiset(pairs) == multiset(pairs[..a]) + multiset{e} + multiset(tl);
  }
}
