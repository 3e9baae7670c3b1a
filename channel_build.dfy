/** Restoring categories and channels, `loadCategory` and `loadChannel`
    (util.ts:329-364, 369-670): the creation request in the API of the
    library in use (type mapping, a bitrate brought down to the guild's tier,
    fields copied or dropped), the permission overwrites, and for text
    channels the replay of messages and threads. */
module ChannelBuild {
  import opened Wrappers
  import opened Library
  import opened Permissions
  import opened MessageCapture
  import opened ChannelCapture
  import opened Platform
  import opened Replay
  import Decimal

  // ---- bitrate against the guild's premium tier ----

  /** `MaxBitratePerTier`, in tier order. */
  const MaxBitrates: seq<int> := [64000, 128000, 256000, 384000]

  /** The keys of `MaxBitratePerTier`, in tier order: the `GuildPremiumTier`
      values as object keys, `0` to `3` under discord.js v14 and `NONE` to
      `TIER_3` under the selfbot table. */
  function TierKeys(v14Constants: bool): (keys: seq<string>)
    ensures |keys| == 4
  {
    if v14Constants then ["0", "1", "2", "3"] else ["NONE", "TIER_1", "TIER_2", "TIER_3"]
  }

  /** The value stored under `key` in a four-entry table keyed by `keys`. */
  function TierLookup(keys: seq<string>, key: string): (r: Option<int>)
    requires |keys| == 4
    ensures r.Some? <==> key in keys
    ensures forall i :: 0 <= i < 4 && keys[i] == key && (forall j :: 0 <= j < i ==> keys[j] != key) ==> r == Some(MaxBitrates[i])
  {
    if key == keys[0] then Some(MaxBitrates[0])
    else if key == keys[1] then Some(MaxBitrates[1])
    else if key == keys[2] then Some(MaxBitrates[2])
    else if key == keys[3] then Some(MaxBitrates[3])
    else None
  }

  /** `MaxBitratePerTier[guild.premiumTier]`; None is `undefined`. */
  function MaxBitrateFor(v14Constants: bool, tier: Tag): Option<int> {
    TierLookup(TierKeys(v14Constants), TagString(tier))
  }

  /** `Object.values(MaxBitratePerTier)[guild.premiumTier]`: an array is
      indexed by the decimal key, whichever table is in force. */
  function BitrateAt(tier: Tag): Option<int> {
    TierLookup(TierKeys(true), TagString(tier))
  }

  /** Where both lookups find a value, it is the same value. */
  lemma TierTablesAgree(v14Constants: bool, tier: Tag)
    ensures MaxBitrateFor(v14Constants, tier).Some? && BitrateAt(tier).Some? ==>
      MaxBitrateFor(v14Constants, tier) == BitrateAt(tier)
  {
  }

  /** The bitrate after the downgrade loop: a bitrate above the tier's maximum
      is replaced by the array entry for the tier; a comparison with
      `undefined` is false, so a missing bitrate or maximum leaves it as is. */
  function Clamped(bitrate: Option<int>, v14Constants: bool, tier: Tag): (b: Option<int>)
    ensures b.Some? ==> bitrate.Some? && b.value <= bitrate.value
    ensures b.Some? && MaxBitrateFor(v14Constants, tier).Some? ==> b.value <= MaxBitrateFor(v14Constants, tier).value
    ensures MaxBitrateFor(v14Constants, tier).None? ==> b == bitrate
    ensures bitrate.Some? && MaxBitrateFor(v14Constants, tier).Some? && bitrate.value <= MaxBitrateFor(v14Constants, tier).value ==>
      b == bitrate
  {
    TierTablesAgree(v14Constants, tier);
    var max := MaxBitrateFor(v14Constants, tier);
    if bitrate.Some? && max.Some? && bitrate.value > max.value then BitrateAt(tier) else bitrate
  }

  /** The downgrade loop of util.ts:539-546 and util.ts:584-590. */
  method ClampBitrate(bitrate: Option<int>, v14Constants: bool, tier: Tag) returns (b: Option<int>)
    ensures b == Clamped(bitrate, v14Constants, tier)
  {
    TierTablesAgree(v14Constants, tier);
    b := bitrate;
    var max := MaxBitrateFor(v14Constants, tier);
    while b.Some? && max.Some? && b.value > max.value
      invariant b == bitrate || (b == BitrateAt(tier) && bitrate.Some? && max.Some? && bitrate.value > max.value)
      decreases if b == BitrateAt(tier) then 0 else 1
    {
      b := BitrateAt(tier);
    }
  }

  /** Under discord.js v14 with a numeric tier, the result is the smaller of
      the bitrate and the tier's maximum. */
  lemma {:induction false} V14BitrateIsCapped(bitrate: int, tier: nat)
    requires tier < 4
    ensures Clamped(Some(bitrate), true, Num(tier)) ==
      Some(if bitrate <= MaxBitrates[tier] then bitrate else MaxBitrates[tier])
  {
    assert TagString(Num(tier)) == [Decimal.DigitChar(tier)];
    assert TagString(Num(tier)) == TierKeys(true)[tier];
  }

  /** Under the selfbot table with its string tiers, a bitrate over the
      maximum is not capped but dropped: the array has no entry under a
      string key. */
  lemma SelfbotBitrateOverMaxIsDropped(bitrate: int, tier: nat)
    requires tier < 4 && bitrate > MaxBitrates[tier]
    ensures Clamped(Some(bitrate), false, Str(TierKeys(false)[tier])) == None
  {
  }

  /** A string tier under the v14 table has no maximum: the bitrate is kept. */
  lemma StringTierUnderV14Kept(bitrate: Option<int>, tier: nat)
    requires tier < 4
    ensures Clamped(bitrate, true, Str(TierKeys(false)[tier])) == bitrate
  {
  }

  // ---- the creation request ----

  /** The type string of the selfbot branch (util.ts:505-514). */
  function SelfbotCreationType(t: Tag, v14Constants: bool): (r: string)
    ensures r == SelfbotName(GuildVoice) <==> IsKindByName(t, v14Constants, GuildVoice)
    ensures r == SelfbotName(GuildAnnouncement) <==> IsKindByName(t, v14Constants, GuildAnnouncement)
    ensures r == SelfbotName(GuildStageVoice) <==> IsKindByName(t, v14Constants, GuildStageVoice)
    ensures r == SelfbotName(GuildText) <==>
      !IsKindByName(t, v14Constants, GuildVoice) && !IsKindByName(t, v14Constants, GuildAnnouncement) &&
      !IsKindByName(t, v14Constants, GuildStageVoice)
  {
    if IsKindByName(t, v14Constants, GuildVoice) then
      KindExcludes(t, v14Constants, GuildVoice);
      "GUILD_VOICE"
    else if IsKindByName(t, v14Constants, GuildAnnouncement) then
      KindExcludes(t, v14Constants, GuildAnnouncement);
      "GUILD_NEWS"
    else if IsKindByName(t, v14Constants, GuildStageVoice) then
      "GUILD_STAGE_VOICE"
    else "GUILD_TEXT"
  }

  /** A tag matched by name as kind k matches no other kind. */
  lemma KindExcludes(t: Tag, v14Constants: bool, k: ChannelKind)
    requires IsKindByName(t, v14Constants, k)
    ensures forall k2 :: IsKindByName(t, v14Constants, k2) ==> k2 == k
  {
    forall k2 | IsKindByName(t, v14Constants, k2) ensures k2 == k {
      KindsExclusive(t, v14Constants, k, k2);
    }
  }

  /** The kinds the v14 branch names a type for (util.ts:561-571). */
  predicate V14Typed(k: ChannelKind) {
    k == GuildText || k == GuildVoice || k == GuildAnnouncement || k == GuildStageVoice
  }

  /** The type of the v14 branch; None leaves it unset. */
  function V14CreationType(t: Tag, v14Constants: bool): (r: Option<Tag>)
    ensures forall k :: V14Typed(k) ==> (r == Some(ChannelTypeValue(v14Constants, k)) <==> IsKindByName(t, v14Constants, k))
    ensures r.None? <==> forall k :: V14Typed(k) ==> !IsKindByName(t, v14Constants, k)
  {
    var k :=
      if IsKindByName(t, v14Constants, GuildText) then Some(GuildText)
      else if IsKindByName(t, v14Constants, GuildVoice) then Some(GuildVoice)
      else if IsKindByName(t, v14Constants, GuildAnnouncement) then Some(GuildAnnouncement)
      else if IsKindByName(t, v14Constants, GuildStageVoice) then Some(GuildStageVoice)
      else None;
    if k.Some? then
      KindExcludes(t, v14Constants, k.value);
      ChannelTypeValueInjective(v14Constants, k.value);
      Some(ChannelTypeValue(v14Constants, k.value))
    else None
  }

  lemma ChannelTypeValueInjective(v14Constants: bool, k: ChannelKind)
    ensures forall k2 :: ChannelTypeValue(v14Constants, k2) == ChannelTypeValue(v14Constants, k) ==> k2 == k
  {
  }

  /** The kinds given topic, nsfw and rate limit by the v14 branch. */
  predicate V14Textual(t: Tag, v14Constants: bool) {
    IsKindByName(t, v14Constants, GuildText) || IsKindByName(t, v14Constants, GuildAnnouncement) ||
    IsKindByName(t, v14Constants, GuildForum) || IsKindByName(t, v14Constants, GuildMedia) ||
    IsKindByName(t, v14Constants, GuildStageVoice)
  }

  /** The stored form of a channel as `loadChannel` reads it; a field absent
      from the stored object is None. */
  datatype StoredChannel = StoredChannel(
    kind: Tag,
    name: string,
    topic: Option<string>,
    nsfw: Option<bool>,
    rateLimitPerUser: Option<int>,
    bitrate: Option<int>,
    userLimit: Option<int>,
    permissions: seq<PermissionRecord>,
    messages: seq<MessageRecord>,
    threads: seq<ThreadData>)

  function FromText(d: TextChannelData): StoredChannel {
    StoredChannel(d.kind, d.name, d.topic, Some(d.nsfw), d.rateLimitPerUser, None, None, d.permissions, d.messages, d.threads)
  }

  function FromVoice(d: VoiceChannelData): StoredChannel {
    StoredChannel(d.kind, d.name, None, None, None, Some(d.bitrate), Some(d.userLimit), d.permissions, [], [])
  }

  /** JavaScript truthiness of an optional number or string. */
  predicate TruthyNumber(x: Option<int>) { x.Some? && x.value != 0 }
  predicate TruthyText(x: Option<string>) { x.Some? && |x.value| > 0 }

  /** The request of the selfbot branch (util.ts:501-552): string type, parent
      id, and each field only when truthy (nsfw: when a boolean); the rate
      limit goes under the snake-case key. */
  function SelfbotRequest(data: StoredChannel, category: Option<string>, v14Constants: bool, tier: Tag): CreateRequest {
    var t := SelfbotCreationType(data.kind, v14Constants);
    var textual := t == "GUILD_TEXT" || t == "GUILD_NEWS";
    var voice := t == "GUILD_VOICE";
    CreateRequest(
      SelfbotApi, data.name, Some(Str(t)), category,
      if textual && TruthyText(data.topic) then data.topic else None,
      if textual then data.nsfw else None,
      None,
      if textual && TruthyNumber(data.rateLimitPerUser) then data.rateLimitPerUser else None,
      if voice && TruthyNumber(data.bitrate) then Clamped(data.bitrate, v14Constants, tier) else None,
      if voice && TruthyNumber(data.userLimit) then data.userLimit else None)
  }

  /** The request of the v14 branch (util.ts:553-594): fields copied as they
      are for the textual kinds, bitrate and user limit for voice. */
  function V14Request(data: StoredChannel, category: Option<string>, v14Constants: bool, tier: Tag): CreateRequest {
    var textual := V14Textual(data.kind, v14Constants);
    var voice := !textual && IsKindByName(data.kind, v14Constants, GuildVoice);
    CreateRequest(
      V14Api, data.name, V14CreationType(data.kind, v14Constants), category,
      if textual then data.topic else None,
      if textual then data.nsfw else None,
      if textual then data.rateLimitPerUser else None,
      None,
      if voice then Clamped(data.bitrate, v14Constants, tier) else None,
      if voice then data.userLimit else None)
  }

  function RequestFor(data: StoredChannel, category: Option<string>, mode: Mode, tier: Tag): CreateRequest {
    if mode.selfbotBranch then SelfbotRequest(data, category, mode.v14Constants, tier)
    else V14Request(data, category, mode.v14Constants, tier)
  }

  /** Builds the options object of `guild.channels.create` field by field. */
  method BuildCreateRequest(data: StoredChannel, category: Option<string>, mode: Mode, tier: Tag)
    returns (req: CreateRequest)
    ensures req == RequestFor(data, category, mode, tier)
  {
    var v14 := mode.v14Constants;
    if mode.selfbotBranch {
      var t := SelfbotCreationType(data.kind, v14);
      req := CreateRequest(SelfbotApi, data.name, Some(Str(t)), category, None, None, None, None, None, None);
      if t == "GUILD_TEXT" || t == "GUILD_NEWS" {
        if TruthyText(data.topic) {
          req := req.(topic := data.topic);
        }
        if data.nsfw.Some? {
          req := req.(nsfw := data.nsfw);
        }
        if TruthyNumber(data.rateLimitPerUser) {
          req := req.(rateLimitSnakeKey := data.rateLimitPerUser);
        }
      } else if t == "GUILD_VOICE" {
        if TruthyNumber(data.bitrate) {
          var b := ClampBitrate(data.bitrate, v14, tier);
          req := req.(bitrate := b);
        }
        if TruthyNumber(data.userLimit) {
          req := req.(userLimit := data.userLimit);
        }
      }
    } else {
      req := CreateRequest(V14Api, data.name, V14CreationType(data.kind, v14), category, None, None, None, None, None, None);
      if V14Textual(data.kind, v14) {
        req := req.(topic := data.topic, nsfw := data.nsfw, rateLimitPerUser := data.rateLimitPerUser);
      } else if IsKindByName(data.kind, v14, GuildVoice) {
        var b := ClampBitrate(data.bitrate, v14, tier);
        req := req.(bitrate := b, userLimit := data.userLimit);
      }
    }
  }

  // ---- categories ----

  datatype CategoryData = CategoryData(name: string, permissions: seq<PermissionRecord>)

  /** What a restore step did: whether its promise settled, and the requests. */
  datatype Outcome = Outcome(settled: bool, log: seq<Action>)

  function CategoryRequest(name: string, mode: Mode): CreateRequest {
    if mode.selfbotBranch
    then CreateRequest(SelfbotApi, name, Some(Str("GUILD_CATEGORY")), None, None, None, None, None, None, None)
    else CreateRequest(V14Api, name, Some(ChannelTypeValue(mode.v14Constants, GuildCategory)), None, None, None, None, None, None, None)
  }

  /** `loadCategory`: create the category, then set the overwrites restored
      from the stored permissions; the promise settles only when both
      succeed and every stored mask parses. */
  function LoadCategory(data: CategoryData, roles: seq<Role>, mode: Mode, created: bool, permissionsSet: bool): (r: Outcome)
    ensures r.settled <==> created && RestorePermissions(data.permissions, roles, mode.v14Constants).Some? && permissionsSet
    ensures |r.log| >= 1 && r.log[0] == CreateChannel(CategoryRequest(data.name, mode))
    ensures created && RestorePermissions(data.permissions, roles, mode.v14Constants).Some? ==>
      r.log == [r.log[0], SetPermissions(RestorePermissions(data.permissions, roles, mode.v14Constants).value)]
    ensures !created ==> |r.log| == 1
  {
    var create := [CreateChannel(CategoryRequest(data.name, mode))];
    if !created then Outcome(false, create)
    else
      match RestorePermissions(data.permissions, roles, mode.v14Constants)
      case None => Outcome(false, create)
      case Some(overwrites) => Outcome(permissionsSet, create + [SetPermissions(overwrites)])
  }

  /** Both branches ask for a category type of the table in force or its
      selfbot spelling. */
  lemma CategoryRequestIsCategory(name: string, mode: Mode)
    ensures CategoryRequest(name, mode).kind.Some?
    ensures IsKind(CategoryRequest(name, mode).kind.value, mode.v14Constants, GuildCategory)
  {
  }

  // ---- channels ----

  /** The guild as `loadChannel` reads it. */
  datatype Guild = Guild(roles: seq<Role>, premiumTier: Tag)

  /** The platform's answers during one `loadChannel`: whether the channel is
      created and its overwrites set, what the new channel offers for
      webhooks and how the channel replay goes, whether it has a thread
      manager, the names in its thread cache (None: no cache), whether it can
      create threads, the positions of the stored threads whose creation
      fails, and how each thread's replay goes. */
  datatype World = World(
    channelCreated: bool,
    permissionsSet: bool,
    channelTarget: Target,
    channelReplay: Responses,
    threadManager: bool,
    threadCache: Option<seq<string>>,
    canCreateThreads: bool,
    failedThreads: set<nat>,
    threadReplays: seq<Responses>)

  /** A thread as a replay target. */
  const ThreadTarget: Target := Target(true, false, false)

  /** The answers for the replay of the i-th thread. */
  function ThreadReplay(world: World, i: nat): Responses {
    if i < |world.threadReplays| then world.threadReplays[i] else Responses(None, None, {}, {})
  }

  /** The requests for the i-th stored thread: when a thread of that name is
      cached, its messages are replayed; otherwise the thread is created with
      its stored archive duration and then its messages are replayed. The
      replay goes through the parent's webhook and no request names the
      thread. */
  function ThreadStep(t: ThreadData, i: nat, webhook: Option<Hook>, options: LoadOptions, world: World, api: Api): seq<Action> {
    if world.threadCache.Some? && t.name in world.threadCache.value then
      ReplayLog(ThreadTarget, t.messages, webhook, options, ThreadReplay(world, i), api)
    else if world.canCreateThreads then
      [CreateThread(t.name, t.autoArchiveDuration)] +
      (if i in world.failedThreads then [] else ReplayLog(ThreadTarget, t.messages, webhook, options, ThreadReplay(world, i), api))
    else []
  }

  function ThreadsLog(threads: seq<ThreadData>, webhook: Option<Hook>, options: LoadOptions, world: World, api: Api): seq<Action> {
    if threads == [] then []
    else ThreadsLog(threads[..|threads| - 1], webhook, options, world, api) +
         ThreadStep(threads[|threads| - 1], |threads| - 1, webhook, options, world, api)
  }

  /** One stored thread of `loadThreadMessages`. */
  method LoadThread(t: ThreadData, i: nat, webhook: Option<Hook>, options: LoadOptions, world: World, api: Api)
    returns (log: seq<Action>)
    ensures log == ThreadStep(t, i, webhook, options, world, api)
  {
    log := [];
    if world.threadCache.Some? && t.name in world.threadCache.value {
      var _, sent := LoadMessages(ThreadTarget, t.messages, webhook, options, ThreadReplay(world, i), api);
      log := sent;
    } else if world.canCreateThreads {
      log := [CreateThread(t.name, t.autoArchiveDuration)];
      if i !in world.failedThreads {
        var _, sent := LoadMessages(ThreadTarget, t.messages, webhook, options, ThreadReplay(world, i), api);
        log := log + sent;
      }
    }
  }

  /** `loadThreadMessages`: the stored threads one after the other. */
  method LoadThreads(threads: seq<ThreadData>, webhook: Option<Hook>, options: LoadOptions, world: World, api: Api)
    returns (log: seq<Action>)
    ensures log == ThreadsLog(threads, webhook, options, world, api)
  {
    log := [];
    for i := 0 to |threads|
      invariant log == ThreadsLog(threads[..i], webhook, options, world, api)
    {
      assert threads[..i + 1][..i] == threads[..i];
      var step := LoadThread(threads[i], i, webhook, options, world, api);
      log := log + step;
    }
    assert threads[..|threads|] == threads;
  }

  function ApiOf(mode: Mode): Api {
    if mode.selfbotBranch then SelfbotApi else V14Api
  }

  /** The webhook the threads get: the channel replay's result, or none when
      the channel has no messages. */
  function ChannelWebhook(data: StoredChannel, options: LoadOptions, world: World, mode: Mode): Option<Hook> {
    if |data.messages| > 0
    then ReplayResult(world.channelTarget, data.messages, None, options, world.channelReplay, ApiOf(mode))
    else None
  }

  /** The requests of the text part of `loadChannel`: the channel's replay,
      then its threads. */
  function TextLog(data: StoredChannel, options: LoadOptions, world: World, mode: Mode): seq<Action> {
    ChannelReplayLog(data, options, world, mode) +
    (if |data.threads| > 0 && world.threadManager
     then ThreadsLog(data.threads, ChannelWebhook(data, options, world, mode), options, world, ApiOf(mode))
     else [])
  }

  /** The requests of the channel's own replay: none without stored
      messages. */
  function ChannelReplayLog(data: StoredChannel, options: LoadOptions, world: World, mode: Mode): seq<Action> {
    if |data.messages| > 0
    then ReplayLog(world.channelTarget, data.messages, None, options, world.channelReplay, ApiOf(mode))
    else []
  }

  /** The channel's own replay, skipped when it has no stored messages. */
  method ReplayChannel(data: StoredChannel, options: LoadOptions, world: World, mode: Mode)
    returns (webhook: Option<Hook>, log: seq<Action>)
    ensures webhook == ChannelWebhook(data, options, world, mode)
    ensures log == ChannelReplayLog(data, options, world, mode)
  {
    webhook, log := None, [];
    if |data.messages| > 0 {
      webhook, log := LoadMessages(world.channelTarget, data.messages, None, options, world.channelReplay, ApiOf(mode));
    }
  }

  /** The text part of `loadChannel`, run once the overwrites are set. */
  method LoadTextContent(data: StoredChannel, options: LoadOptions, world: World, mode: Mode)
    returns (log: seq<Action>)
    ensures log == TextLog(data, options, world, mode)
  {
    var webhook;
    webhook, log := ReplayChannel(data, options, world, mode);
    if |data.threads| > 0 && world.threadManager {
      var threadLog := LoadThreads(data.threads, webhook, options, world, ApiOf(mode));
      log := log + threadLog;
    }
  }

  /** `loadChannel`: create the channel, set its overwrites, and for a text
      channel replay messages and threads. The promise settles only for
      channels that are not text channels: a text channel's callback returns
      the channel instead of resolving. A failed creation, a mask that does
      not parse or a failed overwrite update leaves it unsettled too. */
  method LoadChannel(data: StoredChannel, guild: Guild, category: Option<string>, options: LoadOptions,
                     mode: Mode, world: World)
    returns (settled: bool, log: seq<Action>)
    ensures |log| >= 1 && log[0] == CreateChannel(RequestFor(data, category, mode, guild.premiumTier))
    ensures settled <==>
      world.channelCreated && RestorePermissions(data.permissions, guild.roles, mode.v14Constants).Some? &&
      world.permissionsSet && !IsKind(data.kind, mode.v14Constants, GuildText)
    ensures !world.channelCreated || RestorePermissions(data.permissions, guild.roles, mode.v14Constants).None? ==>
      |log| == 1
    ensures world.channelCreated && RestorePermissions(data.permissions, guild.roles, mode.v14Constants).Some? ==>
      |log| >= 2 && log[..2] == [log[0], SetPermissions(RestorePermissions(data.permissions, guild.roles, mode.v14Constants).value)] &&
      log[2..] == if world.permissionsSet && IsKind(data.kind, mode.v14Constants, GuildText)
                  then TextLog(data, options, world, mode) else []
  {
    var req := BuildCreateRequest(data, category, mode, guild.premiumTier);
    log := [CreateChannel(req)];
    settled := false;
    if !world.channelCreated {
      return;
    }
    var restored := RestorePermissions(data.permissions, guild.roles, mode.v14Constants);
    if restored.None? {
      return;
    }
    log := log + [SetPermissions(restored.value)];
    if !world.permissionsSet {
      return;
    }
    var v14 := mode.v14Constants;
    if data.kind == ChannelTypeValue(v14, GuildText) || TagString(data.kind) == "GUILD_TEXT" {
      TextByNameIsStrict(data.kind, v14);
      var textLog := LoadTextContent(data, options, world, mode);
      log := log + textLog;
    } else {
      TextByNameIsStrict(data.kind, v14);
      settled := true;
    }
  }

  /** `t === ChannelType.GuildText || String(t) === 'GUILD_TEXT'` is the strict
      test: no number prints as `GUILD_TEXT`. */
  lemma TextByNameIsStrict(t: Tag, v14Constants: bool)
    ensures (t == ChannelTypeValue(v14Constants, GuildText) || TagString(t) == "GUILD_TEXT") <==>
      IsKind(t, v14Constants, GuildText)
  {
    if t.Num? {
      Decimal.DecimalIsNotWord(t.code, "GUILD_TEXT");
    }
  }

  // ---- properties across capture and restore ----

  /** Threads only get messages through their parent's webhook: when the
      parent had none (no messages stored, no webhook found or created, or a
      failed send), no thread message is sent. */
  lemma {:induction false} NoParentWebhookNoThreadMessages(threads: seq<ThreadData>, options: LoadOptions, world: World, api: Api)
    ensures forall a :: a in ThreadsLog(threads, None, options, world, api) ==> !a.Send?
  {
    if threads != [] {
      var n := |threads| - 1;
      NoParentWebhookNoThreadMessages(threads[..n], options, world, api);
      ThreadWithoutWebhookSendsNothing(threads[n].messages, ThreadTarget, options, ThreadReplay(world, n), api);
    }
  }

  /** A thread handed its parent's webhook sends every message through it. */
  lemma {:induction false} ThreadsUseParentWebhook(threads: seq<ThreadData>, h: Hook, options: LoadOptions, world: World, api: Api)
    ensures forall a :: a in ThreadsLog(threads, Some(h), options, world, api) && a.Send? ==> a.hook == h
  {
    if threads != [] {
      var n := |threads| - 1;
      ThreadsUseParentWebhook(threads[..n], h, options, world, api);
      ReplayRequestsOnly(ThreadTarget, threads[n].messages, Some(h), options, ThreadReplay(world, n), api);
    }
  }

  /** A stored thread whose name is in the thread cache is not created again:
      only its messages are replayed, through the parent's webhook. */
  lemma CachedThreadReused(t: ThreadData, i: nat, webhook: Option<Hook>, options: LoadOptions, world: World, api: Api)
    requires world.threadCache.Some? && t.name in world.threadCache.value
    ensures ThreadStep(t, i, webhook, options, world, api) ==
      ReplayLog(ThreadTarget, t.messages, webhook, options, ThreadReplay(world, i), api)
    ensures forall a :: a in ThreadStep(t, i, webhook, options, world, api) ==> !a.CreateThread?
  {
    ReplayRequestsOnly(ThreadTarget, t.messages, webhook, options, ThreadReplay(world, i), api);
  }

  /** Given the parent's webhook, a cached thread's requests are exactly those
      of replaying its messages into the parent channel: nothing in them
      singles out the thread. */
  lemma CachedThreadReplayIsParentReplay(t: ThreadData, i: nat, h: Hook, options: LoadOptions, world: World, api: Api)
    requires world.threadCache.Some? && t.name in world.threadCache.value
    ensures ThreadStep(t, i, Some(h), options, world, api) ==
      ReplayLog(world.channelTarget, t.messages, Some(h), options, ThreadReplay(world, i), api)
  {
    SuppliedWebhookIgnoresTarget(ThreadTarget, world.channelTarget, t.messages, h, options, ThreadReplay(world, i), api);
  }

  /** A stored thread missing from the cache is created, with its name and
      archive duration, exactly when threads can be created; the creation is
      its only one and comes first, and its messages are replayed only when
      the creation succeeded. */
  lemma UncachedThreadCreated(t: ThreadData, i: nat, webhook: Option<Hook>, options: LoadOptions, world: World, api: Api)
    requires world.threadCache.None? || t.name !in world.threadCache.value
    ensures CreateThread(t.name, t.autoArchiveDuration) in ThreadStep(t, i, webhook, options, world, api) <==>
      world.canCreateThreads
    ensures !world.canCreateThreads ==> ThreadStep(t, i, webhook, options, world, api) == []
    ensures world.canCreateThreads ==>
      var step := ThreadStep(t, i, webhook, options, world, api);
      step[0] == CreateThread(t.name, t.autoArchiveDuration) &&
      (forall a :: a in step[1..] ==> !a.CreateThread?) &&
      step[1..] == if i in world.failedThreads then []
                   else ReplayLog(ThreadTarget, t.messages, webhook, options, ThreadReplay(world, i), api)
  {
    ReplayRequestsOnly(ThreadTarget, t.messages, webhook, options, ThreadReplay(world, i), api);
  }

  /** When the channel's replay settled with a webhook, every message of the
      channel and of its threads is sent through that webhook. */
  lemma TextSendsUseOneWebhook(data: StoredChannel, options: LoadOptions, world: World, mode: Mode, h: Hook)
    requires ChannelWebhook(data, options, world, mode) == Some(h)
    ensures forall a :: a in TextLog(data, options, world, mode) && a.Send? ==> a.hook == h
  {
    ReplayRequestsOnly(world.channelTarget, data.messages, None, options, world.channelReplay, ApiOf(mode));
    ThreadsUseParentWebhook(data.threads, h, options, world, ApiOf(mode));
  }

  /** A channel with no stored messages, or one of whose sends failed, hands
      no webhook to its threads, and no thread message is sent: the requests
      after the channel's own replay contain no send. */
  lemma NoChannelWebhookNoThreadMessages(data: StoredChannel, options: LoadOptions, world: World, mode: Mode, i: nat)
    requires |data.messages| == 0 ||
      (i < |SelectForReplay(data.messages, options)| && i in world.channelReplay.failedSends)
    ensures ChannelWebhook(data, options, world, mode) == None
    ensures TextLog(data, options, world, mode)[..|ChannelReplayLog(data, options, world, mode)|] ==
      ChannelReplayLog(data, options, world, mode)
    ensures forall a :: a in TextLog(data, options, world, mode)[|ChannelReplayLog(data, options, world, mode)|..] ==> !a.Send?
  {
    if |data.messages| > 0 {
      FailedSendClearsResult(world.channelTarget, data.messages, None, options, world.channelReplay, ApiOf(mode), i);
    }
    NoParentWebhookNoThreadMessages(data.threads, options, world, ApiOf(mode));
    var c := ChannelReplayLog(data, options, world, mode);
    var rest := if |data.threads| > 0 && world.threadManager
                then ThreadsLog(data.threads, None, options, world, ApiOf(mode)) else [];
    assert TextLog(data, options, world, mode) == c + rest;
    assert (c + rest)[|c|..] == rest;
  }

  /** A captured voice channel is recreated as a voice channel, in either
      branch, with its bitrate brought within the tier and its user limit
      (the selfbot branch drops a zero bitrate or user limit). */
  lemma CapturedVoiceRestoresAsVoice(d: VoiceChannelData, category: Option<string>, mode: Mode, tier: Tag)
    requires d.kind == ChannelTypeValue(mode.v14Constants, GuildVoice)
    ensures var r := RequestFor(FromVoice(d), category, mode, tier);
      r.kind == Some(if mode.selfbotBranch then Str(SelfbotName(GuildVoice)) else ChannelTypeValue(mode.v14Constants, GuildVoice)) &&
      r.name == d.name && r.parent == category &&
      r.topic.None? && r.nsfw.None? && r.rateLimitPerUser.None? && r.rateLimitSnakeKey.None? &&
      (if mode.selfbotBranch
       then r.bitrate == (if d.bitrate != 0 then Clamped(Some(d.bitrate), mode.v14Constants, tier) else None) &&
            r.userLimit == (if d.userLimit != 0 then Some(d.userLimit) else None)
       else r.bitrate == Clamped(Some(d.bitrate), mode.v14Constants, tier) && r.userLimit == Some(d.userLimit))
  {
    var v14 := mode.v14Constants;
    StrictImpliesByName(d.kind, v14, GuildVoice);
    KindExcludes(d.kind, v14, GuildVoice);
  }

  /** A captured text channel is recreated as a text channel with its topic,
      nsfw flag and rate limit. The selfbot branch drops the falsy ones and
      puts the rate limit under the snake-case key, never under
      `rateLimitPerUser`; the v14 branch does the reverse. */
  lemma CapturedTextRestoresAsText(d: TextChannelData, category: Option<string>, mode: Mode, tier: Tag)
    requires IsKind(d.kind, mode.v14Constants, GuildText)
    ensures var r := RequestFor(FromText(d), category, mode, tier);
      r.kind == Some(if mode.selfbotBranch then Str(SelfbotName(GuildText)) else ChannelTypeValue(mode.v14Constants, GuildText)) &&
      r.name == d.name && r.parent == category && r.nsfw == Some(d.nsfw) && r.bitrate.None? &&
      (if mode.selfbotBranch
       then r.topic == (if TruthyText(d.topic) then d.topic else None) &&
            r.rateLimitPerUser.None? &&
            r.rateLimitSnakeKey == (if TruthyNumber(d.rateLimitPerUser) then d.rateLimitPerUser else None)
       else r.topic == d.topic && r.rateLimitPerUser == d.rateLimitPerUser && r.rateLimitSnakeKey.None?)
  {
    var v14 := mode.v14Constants;
    StrictImpliesByName(d.kind, v14, GuildText);
    KindExcludes(d.kind, v14, GuildText);
  }
}
