/**
 * The slash commands of `src/cogs/credit_commands.py`: `/balance`, `/addcredit` and
 * `/deductcredit` (administrator only), and `/claim` with its remaining-time message.
 * The commands drive a `CreditLedger.CreditSystem`; each reply is a `Reply` value standing
 * for the message the command sends.
 */
module CreditCommands {
  import opened Base
  import opened Strings
  import opened CreditLedger

  /** `/claim` grants 5 credits. */
  const DailyClaimAmount: int := 5

  datatype Reply =
    | PermissionDenied            // the `is_admin` check failed (`CheckFailure`)
    | NonPositiveAmount           // "Please enter a positive amount of credits ..."
    | Added(amount: int)
    | Deducted(amount: int)
    | NotEnoughCredits
    | ShowBalance(credits: int)
    | Claimed
    | AlreadyClaimed(timeRemaining: string)

  /** `is_admin`: the caller's id equals `ADMIN_USER_ID`. */
  predicate IsAdmin(userId: int, adminUserId: int) {
    userId == adminUserId
  }

  // ---------------------------------------------------------------------------
  // The remaining-time message
  // ---------------------------------------------------------------------------

  /** `divmod(remaining, 3600)` then `divmod(remainder, 60)`. */
  function Hours(remaining: nat): nat { remaining / 3600 }
  function Minutes(remaining: nat): nat { remaining % 3600 / 60 }
  function Seconds(remaining: nat): nat { remaining % 3600 % 60 }

  /** The pieces of the message, in order: `"<h>h"` if hours > 0, `"<m>m"` if minutes > 0,
      and always `"<s>s"`. */
  function TimeParts(remaining: nat): (ps: seq<string>)
    ensures 1 <= |ps| <= 3
    ensures |ps| == 1 + (if remaining >= 3600 then 1 else 0) + (if Minutes(remaining) > 0 then 1 else 0)
    ensures ps[|ps| - 1] == NatToString(Seconds(remaining)) + "s"
    ensures remaining >= 3600 ==> ps[0] == NatToString(Hours(remaining)) + "h"
  {
    UnitParts(Hours(remaining), Minutes(remaining), Seconds(remaining))
  }

  /** `time_remaining`, accumulated with `+=` as the command does. */
  function TimeRemaining(remaining: nat): string {
    var hours, minutes, seconds := Hours(remaining), Minutes(remaining), Seconds(remaining);
    var t := if hours > 0 then NatToString(hours) + "h " else "";
    var t := if minutes > 0 then t + NatToString(minutes) + "m " else t;
    t + NatToString(seconds) + "s"
  }

  /** The three components rebuild the remaining time, with minutes and seconds below 60. */
  lemma TimeComponents(remaining: nat)
    ensures Hours(remaining) * 3600 + Minutes(remaining) * 60 + Seconds(remaining) == remaining
    ensures Minutes(remaining) < 60 && Seconds(remaining) < 60
  {
  }

  /** The message is its pieces joined by single spaces. */
  lemma TimeRemainingIsJoin(remaining: nat)
    ensures TimeRemaining(remaining) == Join(TimeParts(remaining), " ")
  {
    AccumulatedIsJoin(Hours(remaining), Minutes(remaining), Seconds(remaining));
  }

  /** The `+=` accumulation for `hs` hours, `ms` minutes and `ss` seconds is the pieces joined. */
  lemma AccumulatedIsJoin(hs: nat, ms: nat, ss: nat)
    ensures var t := if hs > 0 then NatToString(hs) + "h " else "";
            var t := if ms > 0 then t + NatToString(ms) + "m " else t;
            t + NatToString(ss) + "s" == Join(UnitParts(hs, ms, ss), " ")
  {
    var h, m, s := NatToString(hs) + "h", NatToString(ms) + "m", NatToString(ss) + "s";
    assert NatToString(hs) + "h " == h + " " && NatToString(ms) + "m " == m + " ";
    if hs > 0 && ms > 0 {
      assert UnitParts(hs, ms, ss) == [h, m, s];
      assert Join([h, m, s], " ") == h + " " + Join([m, s], " ");
      assert Join([m, s], " ") == m + " " + Join([s], " ");
    } else if hs > 0 {
      assert UnitParts(hs, ms, ss) == [h, s];
      assert Join([h, s], " ") == h + " " + Join([s], " ");
    } else if ms > 0 {
      assert UnitParts(hs, ms, ss) == [m, s];
      assert Join([m, s], " ") == m + " " + Join([s], " ");
    } else {
      assert UnitParts(hs, ms, ss) == [s];
    }
  }


  /** The value of one piece: digits followed by the unit letter. */
  function PartSeconds(p: string): Option<nat> {
    if |p| >= 2 && AllDigits(p[..|p| - 1]) then
      var n := DigitsValue(p[..|p| - 1]);
      var unit := p[|p| - 1];
      if unit == 'h' then Some(n * 3600)
      else if unit == 'm' then Some(n * 60)
      else if unit == 's' then Some(n)
      else None
    else None
  }

  function SumParts(ps: seq<string>): Option<nat> {
    if ps == [] then Some(0)
    else match (PartSeconds(ps[0]), SumParts(ps[1..]))
         case (Some(a), Some(b)) => Some(a + b)
         case _ => None
  }

  /** Reading a remaining-time message back: its pieces, each valued by its unit, summed. */
  function ParseTimeRemaining(msg: string): Option<nat> {
    SumParts(Split(msg, " "))
  }

  lemma PartOf(n: nat, unit: char)
    ensures PartSeconds(NatToString(n) + [unit]) ==
            if unit == 'h' then Some(n * 3600) else if unit == 'm' then Some(n * 60)
            else if unit == 's' then Some(n) else None
    ensures ' ' !in NatToString(n) + [unit] || unit == ' '
  {
    var p := NatToString(n) + [unit];
    assert p[..|p| - 1] == NatToString(n);
    NatToStringValue(n);
  }

  /** The message states the whole remaining time: reading it back yields `remaining`. */
  lemma TimeRemainingRoundTrip(remaining: nat)
    ensures ParseTimeRemaining(TimeRemaining(remaining)) == Some(remaining)
  {
    var ps := TimeParts(remaining);
    var hs, ms, ss := Hours(remaining), Minutes(remaining), Seconds(remaining);
    TimeRemainingIsJoin(remaining);
    UnitPartsHaveNoSpace(hs, ms, ss);
    SplitJoin(ps, ' ');
    UnitPartsSum(hs, ms, ss);
    TimeComponents(remaining);
  }

  /** The pieces for `hs` hours, `ms` minutes and `ss` seconds, as `TimeParts` lays them out. */
  function UnitParts(hs: nat, ms: nat, ss: nat): seq<string> {
    (if hs > 0 then [NatToString(hs) + "h"] else []) +
    (if ms > 0 then [NatToString(ms) + "m"] else []) +
    [NatToString(ss) + "s"]
  }

  lemma UnitPartsHaveNoSpace(hs: nat, ms: nat, ss: nat)
    ensures forall k :: 0 <= k < |UnitParts(hs, ms, ss)| ==> ' ' !in UnitParts(hs, ms, ss)[k]
  {
    PartOf(hs, 'h');
    PartOf(ms, 'm');
    PartOf(ss, 's');
    assert NatToString(hs) + "h" == NatToString(hs) + ['h'];
    assert NatToString(ms) + "m" == NatToString(ms) + ['m'];
    assert NatToString(ss) + "s" == NatToString(ss) + ['s'];
  }

  lemma UnitPartsSum(hs: nat, ms: nat, ss: nat)
    ensures SumParts(UnitParts(hs, ms, ss)) == Some(hs * 3600 + ms * 60 + ss)
  {
    PartOf(hs, 'h');
    PartOf(ms, 'm');
    PartOf(ss, 's');
    var h, m, s := NatToString(hs) + "h", NatToString(ms) + "m", NatToString(ss) + "s";
    assert h == NatToString(hs) + ['h'] && m == NatToString(ms) + ['m'] && s == NatToString(ss) + ['s'];
    assert SumParts([s]) == Some(ss) by { assert [s][1..] == []; }
    var ps := UnitParts(hs, ms, ss);
    if hs > 0 && ms > 0 {
      assert ps == [h, m, s] && [h, m, s][1..] == [m, s] && [m, s][1..] == [s];
      assert SumParts([m, s]) == Some(ms * 60 + ss);
    } else if hs > 0 {
      assert ps == [h, s] && [h, s][1..] == [s];
    } else if ms > 0 {
      assert ps == [m, s] && [m, s][1..] == [s];
    } else {
      assert ps == [s];
    }
  }


  /** Hours are shown iff at least an hour remains, minutes iff the part below the hour
      holds a whole minute; seconds are always shown. */
  lemma TimeRemainingShows(remaining: nat)
    ensures 'h' in TimeRemaining(remaining) <==> remaining >= 3600
    ensures 'm' in TimeRemaining(remaining) <==> remaining % 3600 >= 60
    ensures EndsWith(TimeRemaining(remaining), NatToString(Seconds(remaining)) + "s")
  {
    var hs, ms, ss := Hours(remaining), Minutes(remaining), Seconds(remaining);
    var h := if hs > 0 then NatToString(hs) + "h " else "";
    var m := if ms > 0 then NatToString(ms) + "m " else "";
    var s := NatToString(ss) + "s";
    assert TimeRemaining(remaining) == h + m + s;
    DigitsHaveNo(NatToString(hs), 'h');
    DigitsHaveNo(NatToString(hs), 'm');
    DigitsHaveNo(NatToString(ms), 'h');
    DigitsHaveNo(NatToString(ms), 'm');
    DigitsHaveNo(NatToString(ss), 'h');
    DigitsHaveNo(NatToString(ss), 'm');
    assert 'h' !in m && 'h' !in s && 'm' !in h && 'm' !in s;
    if hs > 0 {
      assert h[|h| - 2] == 'h';
    }
    if ms > 0 {
      assert m[|m| - 2] == 'm';
      assert (h + m + s)[|h| + |m| - 2] == 'm';
    }
    assert (h + m + s)[|h| + |m|..] == s;
  }

  lemma DigitsHaveNo(d: string, c: char)
    requires forall i :: 0 <= i < |d| ==> IsDigit(d[i])
    requires !IsDigit(c)
    ensures c !in d
  {
  }

  // ---------------------------------------------------------------------------
  // The claim flow on values (every store call succeeding)
  // ---------------------------------------------------------------------------

  /** One `/claim` at `now` as written: credits and claim markers after it, and the reply.
      `set_last_claim` never writes its marker, so the markers stay as they were. */
  function ClaimStep(credits: map<int, int>, expiry: map<int, int>, u: int, now: int)
    : (map<int, int>, map<int, int>, Reply)
  {
    var (can, remaining) := ClaimAnswer(Ttl(expiry, u, now));
    if can then (Deposit(credits, u, DailyClaimAmount), expiry, Claimed)
    else (credits, expiry, AlreadyClaimed(TimeRemaining(remaining)))
  }

  /** Claims at the given times, one after another, as written: the final credits and markers,
      and the replies in order. */
  function ClaimRun(credits: map<int, int>, expiry: map<int, int>, u: int, times: seq<int>)
    : (map<int, int>, map<int, int>, seq<Reply>)
    decreases |times|
  {
    if times == [] then (credits, expiry, [])
    else
      var (c1, e1, r1) := ClaimStep(credits, expiry, u, times[0]);
      var (c2, e2, rs) := ClaimRun(c1, e1, u, times[1..]);
      (c2, e2, [r1] + rs)
  }

  /** As written there is no daily limit: once a user may claim, every later `/claim` grants
      5 credits again, however soon it follows, and no marker is ever left behind. */
  lemma {:induction false} ClaimEveryTime(credits: map<int, int>, expiry: map<int, int>, u: int,
                                          start: int, times: seq<int>)
    requires Ttl(expiry, u, start) <= 0
    requires forall k :: 0 <= k < |times| ==> start <= times[k]
    ensures var (c, e, replies) := ClaimRun(credits, expiry, u, times);
            e == expiry && |replies| == |times| &&
            (forall k :: 0 <= k < |replies| ==> replies[k] == Claimed) &&
            Balance(c, u) == Balance(credits, u) + DailyClaimAmount * |times|
    decreases |times|
  {
    if times != [] {
      assert start <= times[0];
      var (c1, e1, r1) := ClaimStep(credits, expiry, u, times[0]);
      assert r1 == Claimed && e1 == expiry && Balance(c1, u) == Balance(credits, u) + DailyClaimAmount;
      forall k | 0 <= k < |times[1..]| ensures start <= times[1..][k] {
        assert times[1..][k] == times[k + 1];
      }
      ClaimEveryTime(c1, e1, u, start, times[1..]);
      var (c2, e2, rs) := ClaimRun(c1, e1, u, times[1..]);
      assert DailyClaimAmount * |times| == DailyClaimAmount + DailyClaimAmount * |times[1..]|;
      forall k | 0 <= k < |[r1] + rs| ensures ([r1] + rs)[k] == Claimed {
        if k > 0 { assert ([r1] + rs)[k] == rs[k - 1]; }
      }
    }
  }

  /** One `/claim` with the corrected `set_last_claim`: a granted claim leaves a marker that
      expires 24 hours later. */
  function ClaimStepCorrected(credits: map<int, int>, expiry: map<int, int>, u: int, now: int)
    : (map<int, int>, map<int, int>, Reply)
  {
    var (can, remaining) := ClaimAnswer(Ttl(expiry, u, now));
    if can then (Deposit(credits, u, DailyClaimAmount), expiry[u := now + ClaimCooldownSeconds], Claimed)
    else (credits, expiry, AlreadyClaimed(TimeRemaining(remaining)))
  }

  /** With the corrected marker, two claims at `t` and `t2 >= t`, the first one allowed: the
      second one grants credits again only once the 24-hour cooldown has passed, and otherwise
      reports the time left. */
  lemma DailyClaimOnceCorrected(credits: map<int, int>, expiry: map<int, int>, u: int, t: int, t2: int)
    requires t <= t2
    requires Ttl(expiry, u, t) <= 0
    ensures var (c1, e1, r1) := ClaimStepCorrected(credits, expiry, u, t);
            var (c2, e2, r2) := ClaimStepCorrected(c1, e1, u, t2);
            r1 == Claimed &&
            (t2 < t + ClaimCooldownSeconds ==>
               Balance(c2, u) == Balance(credits, u) + DailyClaimAmount &&
               r2 == AlreadyClaimed(TimeRemaining(t + ClaimCooldownSeconds - t2))) &&
            (t2 >= t + ClaimCooldownSeconds ==>
               Balance(c2, u) == Balance(credits, u) + 2 * DailyClaimAmount && r2 == Claimed)
  {
    ClaimCooldown(expiry, u, t, t2);
  }

  // ---------------------------------------------------------------------------
  // The cog
  // ---------------------------------------------------------------------------

  class CreditCommandsCog {
    const ledger: CreditSystem
    const adminUserId: int

    constructor (ledger: CreditSystem, adminUserId: int)
      ensures this.ledger == ledger && this.adminUserId == adminUserId
    {
      this.ledger := ledger;
      this.adminUserId := adminUserId;
    }

    /** `/balance`: the caller's credits (0 when the read fails). */
    method Balance(caller: int, faults: seq<bool>) returns (reply: Reply)
      ensures reply == ShowBalance(CreditsRead(ledger.credits, caller, faults))
    {
      var credits := ledger.GetCredits(caller, faults);
      reply := ShowBalance(credits);
    }

    /** `/addcredit`: the result of `add_credit` is ignored, so the reply names the amount
        even when the store failed. */
    method AddCredit(caller: int, member: int, amount: int, faults: seq<bool>) returns (reply: Reply)
      modifies ledger
      ensures !IsAdmin(caller, adminUserId) ==> reply == PermissionDenied
      ensures IsAdmin(caller, adminUserId) && amount <= 0 ==> reply == NonPositiveAmount
      ensures IsAdmin(caller, adminUserId) && amount > 0 ==> reply == Added(amount)
      ensures ledger.credits == if IsAdmin(caller, adminUserId) && amount > 0 && RetrySucceeds(faults)
                                then Deposit(old(ledger.credits), member, amount) else old(ledger.credits)
      ensures ledger.claimExpiry == old(ledger.claimExpiry)
    {
      if !IsAdmin(caller, adminUserId) {
        return PermissionDenied;
      }
      if amount <= 0 {
        return NonPositiveAmount;
      }
      var _ := ledger.AddCredit(member, amount, faults);
      reply := Added(amount);
    }

    /** `/deductcredit`: the reply follows the success flag, so a store error reads as
        "does not have enough credits". */
    method DeductCredit(caller: int, member: int, amount: int, conflicts: seq<int>, reachable: bool)
      returns (reply: Reply)
      modifies ledger
      ensures !IsAdmin(caller, adminUserId) ==> reply == PermissionDenied && ledger.credits == old(ledger.credits)
      ensures IsAdmin(caller, adminUserId) && amount <= 0 ==> reply == NonPositiveAmount && ledger.credits == old(ledger.credits)
      ensures IsAdmin(caller, adminUserId) && amount > 0 ==>
                var (c, ok) := if reachable then Withdraw(old(ledger.credits), member, amount, conflicts)
                               else (old(ledger.credits), false);
                ledger.credits == c && reply == (if ok then Deducted(amount) else NotEnoughCredits)
      ensures ledger.claimExpiry == old(ledger.claimExpiry)
    {
      if !IsAdmin(caller, adminUserId) {
        return PermissionDenied;
      }
      if amount <= 0 {
        return NonPositiveAmount;
      }
      var success := ledger.DeductCredit(member, amount, conflicts, reachable);
      reply := if success then Deducted(amount) else NotEnoughCredits;
    }

    /** `/claim` as written: when `can_claim` allows it, add 5 credits and call
        `set_last_claim`, which never stores its marker; otherwise report the time left. A
        failed `can_claim` answers `(False, 0)`, which reads as "try again in 0s". */
    method Claim(caller: int, now: int, canFaults: seq<bool>, addFaults: seq<bool>) returns (reply: Reply)
      modifies ledger
      ensures ledger.claimExpiry == old(ledger.claimExpiry)
      ensures var (can, remaining) := if RetrySucceeds(canFaults)
                                      then ClaimAnswer(Ttl(old(ledger.claimExpiry), caller, now)) else (false, 0);
              (can ==> reply == Claimed &&
                       ledger.credits == (if RetrySucceeds(addFaults)
                                          then Deposit(old(ledger.credits), caller, DailyClaimAmount)
                                          else old(ledger.credits))) &&
              (!can ==> reply == AlreadyClaimed(TimeRemaining(remaining)) && ledger.credits == old(ledger.credits))
      ensures RetrySucceeds(canFaults) && RetrySucceeds(addFaults) ==>
                (ledger.credits, ledger.claimExpiry, reply) == ClaimStep(old(ledger.credits), old(ledger.claimExpiry), caller, now)
    {
      var can, remaining := ledger.CanClaim(caller, now, canFaults);
      if can {
        var _ := ledger.AddCredit(caller, DailyClaimAmount, addFaults);
        var _ := ledger.SetLastClaim(caller, now);
        reply := Claimed;
      } else {
        reply := AlreadyClaimed(TimeRemaining(remaining));
      }
    }

    /** `/claim` with the corrected `set_last_claim`, which stores the 24-hour marker unless the
        store fails. */
    method ClaimCorrected(caller: int, now: int, canFaults: seq<bool>, addFaults: seq<bool>, setFaults: seq<bool>)
      returns (reply: Reply)
      modifies ledger
      ensures var (can, remaining) := if RetrySucceeds(canFaults)
                                      then ClaimAnswer(Ttl(old(ledger.claimExpiry), caller, now)) else (false, 0);
              (can ==> reply == Claimed &&
                       ledger.credits == (if RetrySucceeds(addFaults)
                                          then Deposit(old(ledger.credits), caller, DailyClaimAmount)
                                          else old(ledger.credits)) &&
                       ledger.claimExpiry == (if RetrySucceeds(setFaults)
                                              then old(ledger.claimExpiry)[caller := now + ClaimCooldownSeconds]
                                              else old(ledger.claimExpiry))) &&
              (!can ==> reply == AlreadyClaimed(TimeRemaining(remaining)) &&
                        ledger.credits == old(ledger.credits) && ledger.claimExpiry == old(ledger.claimExpiry))
      ensures RetrySucceeds(canFaults) && RetrySucceeds(addFaults) && RetrySucceeds(setFaults) ==>
                (ledger.credits, ledger.claimExpiry, reply) ==
                  ClaimStepCorrected(old(ledger.credits), old(ledger.claimExpiry), caller, now)
    {
      var can, remaining := ledger.CanClaim(caller, now, canFaults);
      if can {
        var _ := ledger.AddCredit(caller, DailyClaimAmount, addFaults);
        var _ := ledger.SetLastClaimCorrected(caller, now, setFaults);
        reply := Claimed;
      } else {
        reply := AlreadyClaimed(TimeRemaining(remaining));
      }
    }
  }
}
