/** The per-channel capture records: `fetchVoiceChannelData`,
    `fetchStageChannelData` and `fetchTextChannelData` (util.ts:194-324). */
module ChannelCapture {
  import opened Wrappers
  import opened Library
  import opened Permissions
  import opened MessageCapture

  /** A live thread of a text channel; `history` answers its message fetches. */
  datatype ThreadSource = ThreadSource(
    kind: Tag,
    name: string,
    archived: bool,
    autoArchiveDuration: int,
    locked: bool,
    rateLimitPerUser: int,
    history: seq<Page>)

  /** A live guild channel. `parentName` is the name of its category, when it
      has one; `threads` is its thread cache, None when it has no thread
      manager or no cache. */
  datatype ChannelSource = ChannelSource(
    kind: Tag,
    name: string,
    nsfw: bool,
    rateLimitPerUser: int,
    parentName: Option<string>,
    topic: Option<string>,
    bitrate: int,
    userLimit: int,
    perms: PermissionSource,
    threads: Option<seq<ThreadSource>>,
    history: seq<Page>)

  /** ThreadChannelData. */
  datatype ThreadData = ThreadData(
    kind: Tag,
    name: string,
    archived: bool,
    autoArchiveDuration: int,
    locked: bool,
    rateLimitPerUser: int,
    messages: seq<MessageRecord>)

  /** TextChannelData; `rateLimitPerUser` is None where the source leaves it
      undefined. */
  datatype TextChannelData = TextChannelData(
    kind: Tag,
    name: string,
    nsfw: bool,
    rateLimitPerUser: Option<int>,
    parent: Option<string>,
    topic: Option<string>,
    permissions: seq<PermissionRecord>,
    messages: seq<MessageRecord>,
    isNews: bool,
    threads: seq<ThreadData>)

  /** VoiceChannelData, shared by voice and stage channels. */
  datatype VoiceChannelData = VoiceChannelData(
    kind: Tag,
    name: string,
    bitrate: int,
    userLimit: int,
    parent: Option<string>,
    permissions: seq<PermissionRecord>)

  /** The messages kept for a history: a rejected fetch is caught and leaves
      the empty list the record started with. */
  function CapturedMessages(history: seq<Page>, options: CaptureOptions): seq<MessageRecord> {
    Capture(history, MessageLimit(options), SavesImages(options)).records.GetOr([])
  }

  /** The record of one thread. */
  function ThreadRecord(t: ThreadSource, options: CaptureOptions): ThreadData {
    ThreadData(t.kind, t.name, t.archived, t.autoArchiveDuration, t.locked, t.rateLimitPerUser,
               CapturedMessages(t.history, options))
  }

  /** The threads that are visited: the cache when present and non-empty. */
  function CachedThreads(c: ChannelSource): seq<ThreadSource> {
    if c.threads.Some? then c.threads.value else []
  }

  /** `fetchVoiceChannelData`: the type is always written as the voice type of
      the constant table in force, whatever the channel's own type. */
  method FetchVoiceChannelData(c: ChannelSource, v14Constants: bool) returns (d: VoiceChannelData)
    ensures d.kind == ChannelTypeValue(v14Constants, GuildVoice)
    ensures IsKind(d.kind, v14Constants, GuildVoice)
    ensures d.name == c.name && d.bitrate == c.bitrate && d.userLimit == c.userLimit && d.parent == c.parentName
    ensures d.permissions == CapturedPermissions(c.perms, v14Constants)
  {
    var permissions := FetchChannelPermissions(c.perms, v14Constants);
    d := VoiceChannelData(ChannelTypeValue(v14Constants, GuildVoice), c.name, c.bitrate, c.userLimit, c.parentName, permissions);
  }

  /** `fetchStageChannelData`: like the voice record, but the channel's own
      type is kept. */
  method FetchStageChannelData(c: ChannelSource, v14Constants: bool) returns (d: VoiceChannelData)
    ensures d.kind == c.kind
    ensures d.name == c.name && d.bitrate == c.bitrate && d.userLimit == c.userLimit && d.parent == c.parentName
    ensures d.permissions == CapturedPermissions(c.perms, v14Constants)
  {
    var permissions := FetchChannelPermissions(c.perms, v14Constants);
    d := VoiceChannelData(c.kind, c.name, c.bitrate, c.userLimit, c.parentName, permissions);
  }

  /** The capture of one history with a rejection caught. */
  method FetchMessagesOrNone(history: seq<Page>, options: CaptureOptions) returns (messages: seq<MessageRecord>)
    ensures messages == CapturedMessages(history, options)
  {
    var fetched, _ := FetchChannelMessages(history, options);
    messages := if fetched.Some? then fetched.value else [];
  }

  /** The thread part of `fetchTextChannelData`: one record per cached thread,
      in cache order. */
  method FetchThreads(cache: seq<ThreadSource>, options: CaptureOptions) returns (threads: seq<ThreadData>)
    ensures |threads| == |cache|
    ensures forall i :: 0 <= i < |cache| ==> threads[i] == ThreadRecord(cache[i], options)
  {
    threads := [];
    for i := 0 to |cache|
      invariant |threads| == i
      invariant forall j :: 0 <= j < i ==> threads[j] == ThreadRecord(cache[j], options)
    {
      var t := cache[i];
      var threadMessages := FetchMessagesOrNone(t.history, options);
      threads := threads + [ThreadData(t.kind, t.name, t.archived, t.autoArchiveDuration, t.locked,
                                       t.rateLimitPerUser, threadMessages)];
    }
  }

  /** `fetchTextChannelData`: the channel's fields, a rate limit only for a
      plain text channel, the news flag, one record per cached thread (with
      no messages when its capture rejects) and the channel's own messages
      (none when their capture rejects). */
  method FetchTextChannelData(c: ChannelSource, v14Constants: bool, options: CaptureOptions)
    returns (d: TextChannelData)
    ensures d.kind == c.kind && d.name == c.name && d.nsfw == c.nsfw
    ensures d.parent == c.parentName && d.topic == c.topic
    ensures d.rateLimitPerUser == if IsKind(c.kind, v14Constants, GuildText) then Some(c.rateLimitPerUser) else None
    ensures d.isNews <==> IsKind(c.kind, v14Constants, GuildAnnouncement)
    ensures d.permissions == CapturedPermissions(c.perms, v14Constants)
    ensures |d.threads| == |CachedThreads(c)|
    ensures forall i :: 0 <= i < |d.threads| ==> d.threads[i] == ThreadRecord(CachedThreads(c)[i], options)
    ensures d.messages == CapturedMessages(c.history, options)
  {
    var permissions := FetchChannelPermissions(c.perms, v14Constants);
    var isText := c.kind == ChannelTypeValue(v14Constants, GuildText) || c.kind == Str("GUILD_TEXT");
    var isNews := c.kind == ChannelTypeValue(v14Constants, GuildAnnouncement) || c.kind == Str("GUILD_NEWS");
    var threads: seq<ThreadData> := [];
    if c.threads.Some? && |c.threads.value| > 0 {
      threads := FetchThreads(c.threads.value, options);
    }
    var channelMessages := FetchMessagesOrNone(c.history, options);
    d := TextChannelData(c.kind, c.name, c.nsfw, if isText then Some(c.rateLimitPerUser) else None,
                         c.parentName, c.topic, permissions, channelMessages, isNews, threads);
  }

  // ---- properties ----

  /** No record is both a plain text channel with a rate limit and a news
      channel. */
  lemma NewsHasNoRateLimit(kind: Tag, v14Constants: bool)
    requires IsKind(kind, v14Constants, GuildAnnouncement)
    ensures !IsKind(kind, v14Constants, GuildText)
  {
    if IsKind(kind, v14Constants, GuildText) {
      StrictImpliesByName(kind, v14Constants, GuildText);
      StrictImpliesByName(kind, v14Constants, GuildAnnouncement);
      KindsExclusive(kind, v14Constants, GuildText, GuildAnnouncement);
    }
  }

  /** A captured message list never holds more than the limit plus one page
      short of a full page, and nothing for a limit of zero or below. */
  lemma CapturedMessagesBounded(history: seq<Page>, options: CaptureOptions)
    requires forall q :: 0 <= q < |history| && history[q].Page? ==> |history[q].messages| <= PageSize
    ensures |CapturedMessages(history, options)| <=
      if MessageLimit(options) <= 0 then 0 else MessageLimit(options) + 99
  {
    CaptureLimit(history, MessageLimit(options), SavesImages(options));
  }

  /** An image that cannot be fetched loses all of a channel's messages: when
      the first page starts below the limit and one of its inlined
      attachments rejects, the record keeps no messages. */
  lemma FailedInlineFetchLosesMessages(history: seq<Page>, options: CaptureOptions)
    requires |history| > 0 && history[0].Page? && |history[0].messages| > 0
    requires MessageLimit(options) > 0 && PageFetchFails(history[0].messages, SavesImages(options))
    ensures CapturedMessages(history, options) == []
  {
    FailedInlineRejectsCapture(history, 0, MessageLimit(options), SavesImages(options));
  }

  /** A channel whose first fetch rejects still yields its record, with no
      messages. */
  lemma RejectedHistoryKeepsRecord(history: seq<Page>, options: CaptureOptions)
    requires |history| > 0 && history[0].Failed?
    ensures CapturedMessages(history, options) == []
  {
  }
}
