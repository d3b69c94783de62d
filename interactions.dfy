/**
 * What the two `image_product_command` cogs share: the interaction cache (a dict from
 * interaction id to the cached interaction, guarded by a lock) with its 15-minute sweep,
 * and the three-tier follow-up chain of `_send_followup` (original interaction, then the
 * channel, then a direct message). Discord's answers are one enumerated outcome per tier.
 */
module Interactions {
  import opened Base

  /** `asyncio.sleep(900)` between sweeps and `timedelta(minutes=15)` as the age limit. */
  const SweepIntervalSeconds: int := 900
  const MaxAgeSeconds: int := 900
  /** Discord's "Unknown Interaction" error code. */
  const UnknownInteraction: int := 10062

  /** `CachedInteraction`: who asked where, when, and with what prompt. */
  datatype Cached = Cached(channelId: int, userId: int, username: string, guildId: Option<int>,
                           timestamp: int, prompt: Option<string>, messageId: Option<int>)

  /** The entries the sweep keeps: those whose timestamp is not before `now - 15 min`. */
  function Swept(entries: map<int, Cached>, now: int): map<int, Cached> {
    map id | id in entries && entries[id].timestamp >= now - MaxAgeSeconds :: entries[id]
  }

  /** `to_remove`: the ids of the entries older than the cutoff. */
  function Expired(entries: map<int, Cached>, now: int): set<int> {
    set id | id in entries && entries[id].timestamp < now - MaxAgeSeconds
  }

  /** The sweep removes exactly the expired entries, leaves the others untouched, and a second
      sweep at the same time removes nothing. */
  lemma SweepExact(entries: map<int, Cached>, now: int)
    ensures forall id :: id in Swept(entries, now) <==>
              id in entries && entries[id].timestamp >= now - MaxAgeSeconds
    ensures forall id :: id in Swept(entries, now) ==> Swept(entries, now)[id] == entries[id]
    ensures Swept(entries, now).Keys == entries.Keys - Expired(entries, now)
    ensures Expired(Swept(entries, now), now) == {}
    ensures Swept(Swept(entries, now), now) == Swept(entries, now)
  {
  }

  /** An interaction cached at `t` is still there after a sweep at `now` iff `now <= t + 15 min`. */
  lemma SurvivesSweep(entries: map<int, Cached>, id: int, c: Cached, now: int)
    ensures id in Swept(entries[id := c], now) <==> now <= c.timestamp + MaxAgeSeconds
  {
  }

  /** The interaction cache; each operation runs under `interaction_cache_lock`, so each is
      one atomic step here. */
  class InteractionCache {
    var entries: map<int, Cached>

    constructor ()
      ensures entries == map[]
    {
      entries := map[];
    }

    /** `self.interaction_cache[id] = cached`. */
    method Insert(id: int, c: Cached)
      modifies this
      ensures entries == old(entries)[id := c]
    {
      entries := entries[id := c];
    }

    /** `self.interaction_cache.get(id)`. */
    function Get(id: int): (r: Option<Cached>)
      reads this
      ensures r.Some? <==> id in entries
      ensures r.Some? ==> r.value == entries[id]
    {
      if id in entries then Some(entries[id]) else None
    }

    /** `if id in cache: del cache[id]`. */
    method Remove(id: int)
      modifies this
      ensures entries == old(entries) - {id}
    {
      if id in entries {
        entries := entries - {id};
      }
    }

    /** `cached.message_id = sent.id` on an entry still in the cache. */
    method SetMessageId(id: int, messageId: int)
      modifies this
      ensures id in old(entries) ==> entries == old(entries)[id := old(entries)[id].(messageId := Some(messageId))]
      ensures id !in old(entries) ==> entries == old(entries)
    {
      if id in entries {
        entries := entries[id := entries[id].(messageId := Some(messageId))];
      }
    }

    /** One pass of `_cleanup_interaction_cache` at time `now`: collect the expired ids, then
      delete them one by one. Returns how many were removed. */
    method Sweep(now: int) returns (removed: nat)
      modifies this
      ensures entries == Swept(old(entries), now)
      ensures removed == |Expired(old(entries), now)|
      ensures |entries| + removed == |old(entries)|
    {
      var toRemove := Expired(entries, now);
      removed := |toRemove|;
      var pending := toRemove;
      while pending != {}
        invariant pending <= toRemove
        invariant entries == old(entries) - (toRemove - pending)
        decreases |pending|
      {
        NonEmptyHasMember(pending);
        var id :| id in pending;
        RemoveOneMore(old(entries), toRemove, pending, id);
        entries := entries - {id};
        pending := pending - {id};
      }
      SweptFrom(old(entries), entries, now);
      SweptSize(old(entries), now);
    }
  }

  /** One more removal step of the sweep. */
  lemma RemoveOneMore(m: map<int, Cached>, all: set<int>, pending: set<int>, id: int)
    requires pending <= all && id in pending
    ensures (m - (all - pending)) - {id} == m - (all - (pending - {id}))
  {
    var a := (m - (all - pending)) - {id};
    var b := m - (all - (pending - {id}));
    assert a.Keys == b.Keys;
    forall k | k in a ensures a[k] == b[k] {
    }
  }

  /** Deleting exactly the expired ids leaves the swept map. */
  lemma SweptFrom(before: map<int, Cached>, after: map<int, Cached>, now: int)
    requires after == before - Expired(before, now)
    ensures after == Swept(before, now)
  {
    var swept := Swept(before, now);
    assert after.Keys == swept.Keys;
    forall id | id in after ensures after[id] == swept[id] {
      assert id in swept;
    }
  }

  /** The sweep keeps every entry it does not count as removed. */
  lemma SweptSize(before: map<int, Cached>, now: int)
    ensures |Swept(before, now)| + |Expired(before, now)| == |before|
  {
    var kept := Swept(before, now).Keys;
    var gone := Expired(before, now);
    assert before.Keys == kept + gone;
    assert kept * gone == {};
    assert |kept| == |Swept(before, now)|;
  }

  // ---------------------------------------------------------------------------
  // _send_followup
  // ---------------------------------------------------------------------------

  datatype Tier = ViaInteraction | ViaChannel | ViaDirectMessage

  /** What sending through one tier did. `HttpError` is a `discord.HTTPException` (`Forbidden`
      and `NotFound` included) with Discord's error code; `DiscordError` is any other
      `discord.DiscordException`; `Crash` is any other exception. */
  datatype SendOutcome = Sent | HttpError(code: int) | DiscordError | Crash

  /** What Discord gives for the channel: nothing usable (missing or not a text channel); a
      text channel where resolving the bot's member raised (`fetch_member` in the live variant,
      `permissions_for(None)` in the legacy one), which happens outside the tier's `try`; or a
      text channel, whether the bot may send there, and what sending did. */
  datatype ChannelAnswer = NoTextChannel | MemberUnresolved | TextChannel(canSend: bool, send: SendOutcome)

  /** What fetching the user gave (`NotFound` and other HTTP errors are caught), and what the
      direct message did. */
  datatype UserAnswer = UserNotFound | UserFetchHttpError | UserFetched(send: SendOutcome)

  /** Discord's answers at each tier. */
  datatype Discord = Discord(interaction: SendOutcome, channel: ChannelAnswer, user: UserAnswer)

  /** How the follow-up ended: delivered through one tier, stopped by an HTTP error on the
      original interaction, given up after every tier (step 4, the log line), or ended by an
      exception that only the outer `except Exception` catches. */
  datatype Delivery = Delivered(tier: Tier) | Stopped | Undelivered | Failed

  /** Tiers two and three, common to both variants: the channel when it is set, a text channel
      and the bot may send there; then the user when set and fetched. At these tiers only HTTP
      errors are caught and lead on; anything else ends the follow-up, a raise while resolving
      the bot's member included, before anything is sent on the channel. The second component
      lists the tiers tried. */
  function ChannelThenDm(c: Cached, d: Discord): (r: (Delivery, seq<Tier>))
    ensures r.0.Delivered? ==> r.0.tier != ViaInteraction && r.1 != [] && r.1[|r.1| - 1] == r.0.tier
    ensures r.0 != Stopped
    ensures forall k :: 0 <= k < |r.1| ==> r.1[k] != ViaInteraction
    ensures |r.1| <= 2 && (|r.1| == 2 ==> r.1 == [ViaChannel, ViaDirectMessage])
    ensures ViaChannel in r.1 <==> c.channelId != 0 && d.channel.TextChannel? && d.channel.canSend
    ensures r.0 == Delivered(ViaChannel) <==> ViaChannel in r.1 && d.channel.send == Sent
    ensures c.channelId != 0 && d.channel.MemberUnresolved? ==> r == (Failed, [])
  {
    if c.channelId != 0 && d.channel.MemberUnresolved? then (Failed, [])
    else
      var channelTried := c.channelId != 0 && d.channel.TextChannel? && d.channel.canSend;
      if channelTried && d.channel.send == Sent then (Delivered(ViaChannel), [ViaChannel])
      else if channelTried && !d.channel.send.HttpError? then (Failed, [ViaChannel])
      else
        var tried := if channelTried then [ViaChannel] else [];
        if c.userId == 0 || !d.user.UserFetched? then (Undelivered, tried)
        else if d.user.send == Sent then (Delivered(ViaDirectMessage), tried + [ViaDirectMessage])
        else if !d.user.send.HttpError? then (Failed, tried + [ViaDirectMessage])
        else (Undelivered, tried + [ViaDirectMessage])
  }

  /** `_send_followup` of `cogs/image_product_command.py`: without a cached interaction nothing
      is tried; an HTTP error other than 10062 on the original interaction stops the chain. */
  function FollowupCogs(cached: Option<Cached>, d: Discord): (r: (Delivery, seq<Tier>))
    ensures cached.None? ==> r == (Undelivered, [])
    ensures cached.Some? ==> r.1 != [] && r.1[0] == ViaInteraction
    ensures r.0 == Delivered(ViaInteraction) <==> cached.Some? && d.interaction == Sent
    ensures r.0 == Stopped <==>
            cached.Some? && d.interaction.HttpError? && d.interaction.code != UnknownInteraction
    ensures r.0 == Stopped || r.0 == Delivered(ViaInteraction) ==> r.1 == [ViaInteraction]
  {
    if cached.None? then (Undelivered, [])
    else
      match d.interaction
      case Sent => (Delivered(ViaInteraction), [ViaInteraction])
      case Crash => (Failed, [ViaInteraction])
      case HttpError(code) =>
        if code != UnknownInteraction then (Stopped, [ViaInteraction])
        else var rest := ChannelThenDm(cached.value, d); (rest.0, [ViaInteraction] + rest.1)
      case DiscordError => var rest := ChannelThenDm(cached.value, d); (rest.0, [ViaInteraction] + rest.1)
  }

  /** `_send_followup` of `commands/image_product_command.py`: any Discord error on the original
      interaction, HTTP errors included, falls through to the channel. */
  function FollowupLegacy(cached: Option<Cached>, d: Discord): (r: (Delivery, seq<Tier>))
    ensures cached.None? ==> r == (Undelivered, [])
    ensures r.0 != Stopped
    ensures r.0 == Delivered(ViaInteraction) <==> cached.Some? && d.interaction == Sent
  {
    if cached.None? then (Undelivered, [])
    else if d.interaction == Sent then (Delivered(ViaInteraction), [ViaInteraction])
    else if d.interaction == Crash then (Failed, [ViaInteraction])
    else var rest := ChannelThenDm(cached.value, d); (rest.0, [ViaInteraction] + rest.1)
  }

  /** Tiers are tried in order, each at most once, and a delivery is always by the last tier
      tried: nothing is sent twice. */
  lemma FollowupOrder(cached: Option<Cached>, d: Discord)
    ensures var (delivery, tried) := FollowupCogs(cached, d);
            |tried| <= 3 && (forall i, j :: 0 <= i < j < |tried| ==> TierRank(tried[i]) < TierRank(tried[j])) &&
            (delivery.Delivered? ==> tried[|tried| - 1] == delivery.tier)
    ensures var (delivery, tried) := FollowupLegacy(cached, d);
            |tried| <= 3 && (forall i, j :: 0 <= i < j < |tried| ==> TierRank(tried[i]) < TierRank(tried[j])) &&
            (delivery.Delivered? ==> tried[|tried| - 1] == delivery.tier)
  {
  }

  function TierRank(t: Tier): nat {
    match t
    case ViaInteraction => 0
    case ViaChannel => 1
    case ViaDirectMessage => 2
  }

  /** The channel is only tried when the bot may send there. */
  lemma ChannelNeedsPermission(c: Cached, d: Discord)
    requires !(d.channel.TextChannel? && d.channel.canSend)
    ensures ViaChannel !in FollowupCogs(Some(c), d).1
    ensures ViaChannel !in FollowupLegacy(Some(c), d).1
  {
  }

  /** When the first tier falls through and resolving the bot's member for the channel raises,
      both variants end the follow-up there: nothing is sent on the channel and no direct
      message is tried. */
  lemma UnresolvedMemberEndsFollowup(c: Cached, d: Discord)
    requires c.channelId != 0 && d.channel.MemberUnresolved?
    requires d.interaction == DiscordError || d.interaction == HttpError(UnknownInteraction)
    ensures FollowupCogs(Some(c), d) == (Failed, [ViaInteraction])
    ensures FollowupLegacy(Some(c), d) == (Failed, [ViaInteraction])
  {
    assert ChannelThenDm(c, d) == (Failed, []);
    assert [ViaInteraction] + [] == [ViaInteraction];
  }

  /** The two variants differ only on an HTTP error other than 10062 at the first tier. */
  lemma VariantsAgreeElsewhere(cached: Option<Cached>, d: Discord)
    requires !(d.interaction.HttpError? && d.interaction.code != UnknownInteraction)
    ensures FollowupCogs(cached, d) == FollowupLegacy(cached, d)
  {
  }
}
