# discord-rebackup channel backup and restore, in Dafny

This project models the core of `src/util.ts` in ihrz/discord-rebackup. That
file turns a Discord guild's channels into portable backup records and turns
the records back into channels. The model covers these pieces:

- **Permission translation.** Role overwrites are captured as
  `{roleName, allow, deny}` records whose masks are decimal strings. On
  restore, each record is resolved by role name in the destination guild and
  its masks are parsed back with `BigInt`.
- **Paginated message capture** (`fetchChannelMessages`). A cursor loop
  fetches pages of at most 100 messages, newest first. It has a default
  limit of 10 and checks the limit once per page. It has an
  attachment-inlining filter.
- **Capture records** (`fetchTextChannelData`, `fetchVoiceChannelData`,
  `fetchStageChannelData`).
- **Message replay** (`loadMessages`, inside `loadChannel`). It covers:
  - the "MessagesBackup" webhook policy: supplied, then looked up, then
    created;
  - the filter, reverse and JavaScript `slice` selection;
  - the send-then-pin loop;
  - a result promise that settles only once.
- **Channel building** (`loadCategory`, `loadChannel`). It covers:
  - the type-tag mapping of the selfbot branch and the discord.js v14 branch;
  - the fields each branch sets;
  - the bitrate downgrade against `MaxBitratePerTier`;
  - message and thread replay, which happens for text channels only.
- **Library state.** This is the module-level choice between discord.js v14
  and discord.js-selfbot-v13, with `enableSelfbotMode` and
  `disableSelfbotMode`.

Discord itself is abstracted away. A channel's message history is a sequence
of pages, where the k-th fetch is answered by the k-th page. Every other
platform answer (webhook list, created webhook, failed sends, fetchable
attachments, creation success) is an input. Every request the restore side
makes is appended to an action log (`Platform.Action`). Ordering and "never
requested" properties are stated over that log.

Files, in dependency order:

| file | content |
|---|---|
| `wrappers.dfy` | `Option` |
| `decimal.dfy` | `bigint.toString()` and `BigInt(text)` on decimal strings |
| `library.dfy` | type tags, the two constant tables, the library flags |
| `permissions.dfy` | permission capture and restore |
| `messages.dfy` | `fetchChannelMessages` |
| `platform.dfy` | payloads, creation requests, the action log |
| `replay.dfy` | `loadMessages` |
| `channel_capture.dfy` | the text, voice and stage capture records |
| `channel_build.dfy` | `loadCategory`, `loadChannel`, the bitrate downgrade |

### Behaviour of the code as written

These quirks of `src/util.ts` are modelled exactly and stated as lemmas:

- **The limit is checked per page.** Every message check of a page compares
  the count taken before the page's first record was pushed. A page that
  starts below the limit is therefore recorded whole. With a limit of 1, one
  full page yields 100 records. With a limit of -1, nothing is ever recorded.
- **The image filter compares whole URLs.** An attachment is inlined only
  when its URL is literally `png`, `jpg`, `jpeg`, `jpe`, `jif`, `jfif` or
  `jfi`.
- **`slice(length - n)` on replay.** When n is larger than the number of
  replayable messages but less than twice that number, only n minus that
  number of messages are replayed. A negative n other than -1 replays
  nothing.
- **One failed send clears the result.** After a failed send, the replay
  settles with no webhook, because the earlier `resolve(undefined)` wins.
  Threads then get no webhook and send nothing. The same happens when the
  parent channel has no stored messages.
- **Text channels never settle.** The `loadChannel` promise for a text
  channel never settles, because its callback `return`s the channel instead
  of resolving.
- **`disableSelfbotMode` always succeeds.** `discordjs` is set in both
  start-up branches.
- **Voice capture normalises the type.** `fetchVoiceChannelData` always
  stores the voice type of the constant table in force.
  `fetchStageChannelData` keeps the channel's own type.
- **Thread messages are not addressed to the thread.** Each thread's
  messages go through the parent channel's webhook, and the send carries no
  thread id. `loadMessages` uses the thread only for its `isThread` test.
  No request names the thread, so the sends target the webhook's own
  channel, the parent.
- **The selfbot branch writes the rate limit under `rate_limit_per_user`.**
  Every other option of that branch is camelCase, and the v14 branch uses
  `rateLimitPerUser`.
- **One unreachable image loses the channel's messages.** The inlining
  fetch of an attachment has no `catch`. Its rejection rejects the page,
  then the whole capture, which the caller catches. The record is kept with
  no messages, including those of pages already captured.
- **Selfbot tiers lose the bitrate.** With the selfbot constant table and
  its string tiers, a bitrate over the maximum is dropped, not capped: an
  array has no entry under `TIER_1`. A string tier under the v14 table
  leaves the bitrate unchanged.

## Model

| member | source | states |
|---|---|---|
| Decimal.ToDecimal | src/util.ts:172-173 | `bitfield.toString()` is a non-empty digit string with no leading zero |
| Decimal.ParseBigInt | src/util.ts:353-354 | `BigInt(text)` of an all-digit text is its decimal value (0 for the empty text); any other text gives None, standing for the throw (other BigInt syntaxes are left out) |
| Decimal.ValueOfDecimal | src/util.ts:172-173 | reading back a decimal spelling gives the same number |
| Decimal.ParseOfDecimal | src/util.ts:353-354 | `BigInt(n.toString()) == n` |
| Decimal.DecimalInjective | src/util.ts:172-173 | different masks have different decimal spellings |
| Decimal.DecimalIsNotWord | src/util.ts:506-513 | no number prints as a type name such as `GUILD_TEXT` |
| Library.StrictImpliesByName | src/util.ts:611 | a strict `===` type match is also a match by `String()` |
| Library.KindsExclusive | src/util.ts:505-514 | no stored type tag matches two channel kinds by name, under either constant table |
| Library.ClientLibrary.constructor | src/util.ts:25-66 | start-up with at least one library sets the flags: selfbot mode exactly when v14 is missing |
| Library.ClientLibrary.CurrentMode | src/util.ts:334 | in every reachable library state (the selfbot flag is only ever set with the selfbot library loaded) the selfbot creation API is used exactly when selfbot mode is on, and the enum tables are those of the loaded library |
| Library.ClientLibrary.EnableSelfbotMode | src/util.ts:68-75 | succeeds exactly when the selfbot library is loaded, and then selfbot mode is on |
| Library.ClientLibrary.DisableSelfbotMode | src/util.ts:78-85 | always succeeds and turns selfbot mode off, because `discordjs` is set after start-up |
| Permissions.RoleById | src/util.ts:168 | finds a cached role with that id, or there is none |
| Permissions.RoleByName | src/util.ts:350 | finds a role with that name, or there is none |
| Permissions.RoleByNameIsFirst | src/util.ts:350 | `find` returns the first role in cache order with that name: no earlier role has it |
| Permissions.MaskText | src/util.ts:172-173 | a mask is written as decimal digits, `"0"` when absent |
| Permissions.FetchChannelPermissions | src/util.ts:149-189 | the loop returns one record per resolvable role overwrite, in order; `[]` without an overwrite cache; never more records than overwrites |
| Permissions.CaptureAppend | src/util.ts:159-161 | capture keeps overwrite order |
| Permissions.CaptureSingle | src/util.ts:159-180 | an overwrite yields a record iff it is a role overwrite with a cached role, named after that role, with decimal masks |
| Permissions.CaptureSound | src/util.ts:168-178 | every record names a guild role and holds digit-only masks |
| Permissions.MembersDropped | src/util.ts:159-160 | member overwrites never yield a record |
| Permissions.RestorePermissions | src/util.ts:349-359 | restored overwrites are role overwrites for destination roles, never more than the records |
| Permissions.RestoreAppend | src/util.ts:599-609 | restore keeps record order, and a dropped record does not disturb the others |
| Permissions.MissingRoleDropped | src/util.ts:357 | a record whose role name is missing is dropped without error |
| Permissions.CaptureRestoreRoundTrip | src/util.ts:349-359 | capture then restore gives each resolvable role overwrite, in order, for the same-named destination role, with the original masks; it never throws |
| Permissions.RestoreOneOfCaptured | src/util.ts:353-354 | a captured record's masks parse back to the overwrite's bitfields |
| Permissions.RoundTripKeepsAll | src/util.ts:599-609 | when the destination knows every role name, nothing is dropped |
| MessageCapture.StoredAttachment | src/util.ts:247-257 | an attachment is inlined iff images are saved and its URL is one of the extension tokens, naming the URL it is fetched from; otherwise its URL is stored |
| MessageCapture.StoreFiles | src/util.ts:247-258 | the attachment loop succeeds iff no inlined image fetch rejects, and then yields one file per attachment, in order, with its name and stored value |
| MessageCapture.MessageLimit | src/util.ts:229 | an unset limit counts as 10; a set one is used as given |
| MessageCapture.Authored | src/util.ts:243-246 | author-less messages are skipped, so never more records than messages, and as many when every message has an author |
| MessageCapture.AuthoredAppend | src/util.ts:242-268 | recording is a filter-map: the records of two consecutive runs of messages are those of the first followed by those of the second, so order and multiplicity are kept |
| MessageCapture.RecordPage | src/util.ts:242-268 | the per-page loop fails exactly when the page starts below the limit and an inlined image fetch rejects; otherwise it records the authored messages of a page that starts below the limit, and signals completion exactly on the stop conditions |
| MessageCapture.CapturePage | src/util.ts:237-268 | one page of the loop agrees with the capture specification: a failed page rejects the capture, a stopping page ends it with the page's records, any other page continues from the next fetch |
| MessageCapture.AppendRequest | src/util.ts:230-237 | each fetch adds one request for 100 messages before the current cursor |
| MessageCapture.CursorStep | src/util.ts:241 | after a non-empty page, the cursor is the id of its oldest message |
| MessageCapture.FetchChannelMessages | src/util.ts:226-272 | the cursor loop returns the records of the capture specification (None when a fetch or an inlined image fetch rejects), and makes the specified requests |
| MessageCapture.RequestsShape | src/util.ts:230-236 | every request asks for 100 messages; the first has no cursor, each later one is before the oldest message of the previous page |
| MessageCapture.CaptureStopsAtFirstEmpty | src/util.ts:237-240 | every fetch but the last is answered with a non-empty page |
| MessageCapture.CaptureExtends | src/util.ts:262 | records are only appended: what was held stays a prefix |
| MessageCapture.AtLimitRecordsNothing | src/util.ts:243-246 | once the count reaches the limit, nothing more is recorded and the next non-empty page is the last |
| MessageCapture.NonPositiveLimitRecordsNothing | src/util.ts:229 | a limit of 0 or below (including -1) records nothing after one fetch |
| MessageCapture.PageStartingBelowLimitKeptWhole | src/util.ts:242-268 | a fully authored page that starts below the limit is recorded whole and the loop goes on |
| MessageCapture.LimitIsPerPage | src/util.ts:242-268 | with limit 1, one full page of 100 authored messages gives 100 records after two fetches |
| MessageCapture.CaptureComplete | src/util.ts:226-272 | nothing is lost below the limit: after n non-empty, fully authored, cleanly fetched pages whose last starts below the limit, and an empty page, the capture returns every record of those pages, page after page, after n + 1 fetches |
| MessageCapture.CaptureReaches | src/util.ts:233-268 | below the limit, clean pages are taken whole and the loop moves on to the next fetch with their records |
| MessageCapture.FailedInlineRejectsCapture | src/util.ts:247-252 | an image fetch that rejects on a page reached below the limit rejects the whole capture, so the records of earlier pages are lost too |
| MessageCapture.AuthorlessPageIsLast | src/util.ts:243-245 | a page holding an author-less message is the last page fetched |
| MessageCapture.CaptureBound | src/util.ts:233-268 | starting from count c, the result holds at most c records if c reached the limit, otherwise at most limit + 99 |
| MessageCapture.CaptureLimit | src/util.ts:226-272 | a capture holds at most limit + 99 records, and none for a limit of 0 or below |
| ChannelCapture.FetchVoiceChannelData | src/util.ts:194-207 | the voice record always carries the voice type of the table in force, with the channel's name, bitrate, user limit, parent name and captured permissions |
| ChannelCapture.FetchStageChannelData | src/util.ts:210-223 | the stage record keeps the channel's own type and the same fields |
| ChannelCapture.FetchMessagesOrNone | src/util.ts:313-321 | a rejected message capture leaves the empty list |
| ChannelCapture.FetchThreads | src/util.ts:293-312 | one entry per cached thread, each with its fields and captured messages, or `[]` when its capture rejects |
| ChannelCapture.FetchTextChannelData | src/util.ts:277-324 | the rate limit is kept only for text channels; `isNews` holds iff announcement; one entry per cached thread; messages `[]` on failure; permissions as captured |
| ChannelCapture.NewsHasNoRateLimit | src/util.ts:287-291 | an announcement channel is never a text channel, so it has no rate limit and is not replayed |
| ChannelCapture.CapturedMessagesBounded | src/util.ts:226-272 | a stored message list holds at most limit + 99 entries |
| ChannelCapture.RejectedHistoryKeepsRecord | src/util.ts:313-321 | a rejected first fetch still yields the record, with no messages |
| ChannelCapture.FailedInlineFetchLosesMessages | src/util.ts:247-252 | a rejected image fetch on the first page leaves the channel record with no messages |
| Replay.FindBackupHook | src/util.ts:388 | the result is the first webhook named `MessagesBackup`; there is none iff no webhook has that name |
| Replay.KeepReplayable | src/util.ts:429-430 | only messages of the input with content, embeds or files are kept, never more than the input, and all of them, unchanged, when each is replayable |
| Replay.AllReplayableMeans | src/util.ts:430 | the recursive "all replayable" test holds iff every message has content, embeds or files |
| Replay.KeepReplayableAppend | src/util.ts:429-430 | the filter distributes over concatenation, so the kept messages keep their order and multiplicity |
| Replay.ReplayLimit | src/util.ts:434 | a count cuts the list iff it is set and neither 0 nor -1, and then it is the given count |
| Replay.SliceFrom | src/util.ts:436 | `slice(start)` is a suffix; its length is the list minus a non-negative start (none past the end) and -start for a negative start (everything when -start is at least the length) |
| Replay.SelectForReplay | src/util.ts:429-436 | the replayed messages are a suffix of the reversed replayable messages |
| Replay.ReplaysAllInChronologicalOrder | src/util.ts:429-439 | with no count, a list of replayable messages is replayed whole, reversed into oldest-first order |
| Replay.Reverse | src/util.ts:431 | reversal puts the i-th from the end at position i |
| Replay.PayloadOf | src/util.ts:442-475 | the content is sent as stored and empty content as undefined; username, avatar and embeds pass through; a file is attached iff the message has one and the first one's bytes were fetched |
| Replay.AcquireWebhook | src/util.ts:374-426 | the webhook step gives the specified webhook and requests |
| Replay.SendMessages | src/util.ts:440-491 | the send loop sends each message and pins on success; the result is no webhook iff some send failed |
| Replay.LoadMessages | src/util.ts:372-494 | `loadMessages` makes the replay requests and settles with the replay result |
| Replay.SuppliedWebhookIsUsed | src/util.ts:374 | a supplied webhook is used with no lookup and no creation |
| Replay.SuppliedWebhookIgnoresTarget | src/util.ts:374-381 | with a webhook handed down, the requests and the result are the same whatever the target channel or thread, since no send names a destination |
| Replay.ThreadWithoutWebhookSendsNothing | src/util.ts:380-426 | a thread with no supplied webhook makes no request and settles with no webhook |
| Replay.ExistingWebhookPreferred | src/util.ts:383-393 | an existing backup webhook is used and none is created |
| Replay.CreatesWhenNoneFound | src/util.ts:395-421 | without a backup webhook, one is created after the lookup, and its outcome is used |
| Replay.SendsInOrder | src/util.ts:440-485 | one send per selected message, in order, with its payload |
| Replay.SendsUseWebhook | src/util.ts:479-488 | the send loop only sends and pins, and every send goes through the acquired webhook |
| Replay.ReplayRequestsOnly | src/util.ts:372-494 | a replay only looks up or creates a webhook, sends and pins, and each send goes through the webhook the lookup settled on |
| Replay.PinnedExactly | src/util.ts:488 | message i is pinned iff it was pinned and its send succeeded |
| Replay.SomeSendFailsExactly | src/util.ts:484-487 | the settle-once flag is set after n sends exactly when one of them was rejected |
| Replay.FailedSendClearsResult | src/util.ts:481-487 | one failed send makes the replay settle with no webhook |
| Replay.SelectKeepsAll | src/util.ts:434-439 | with no count (unset, 0 or -1), all replayable messages are replayed, oldest first |
| Replay.SelectKeepsNewest | src/util.ts:436 | a count n with 0 < n <= len keeps the newest n, oldest first |
| Replay.SelectOverCount | src/util.ts:436 | for len < n < 2·len only n − len are kept; for n >= 2·len all are kept |
| Replay.SelectNegativeCount | src/util.ts:436 | a count below -1 replays nothing |
| Replay.ReverseMembers | src/util.ts:431 | reversal keeps the same messages |
| ChannelBuild.TierLookup | src/util.ts:139-144 | the table gives a maximum iff the key is one of the tier keys, namely the first match's entry |
| ChannelBuild.TierTablesAgree | src/util.ts:541-543 | where both the keyed lookup and the array index find a maximum, they agree |
| ChannelBuild.Clamped | src/util.ts:542-544 | the downgrade never raises the bitrate, stays within the tier's maximum, and changes nothing without a maximum or at or below it |
| ChannelBuild.ClampBitrate | src/util.ts:584-590 | the while loop ends with the downgraded bitrate |
| ChannelBuild.V14BitrateIsCapped | src/util.ts:587-589 | under v14 with numeric tier 0–3 the bitrate becomes min(bitrate, max) |
| ChannelBuild.SelfbotBitrateOverMaxIsDropped | src/util.ts:542-543 | under the selfbot table, a bitrate over its string tier's maximum becomes undefined |
| ChannelBuild.StringTierUnderV14Kept | src/util.ts:587 | a string tier under the v14 table leaves the bitrate as is |
| ChannelBuild.SelfbotCreationType | src/util.ts:505-514 | voice, news and stage map to their own selfbot types; any other tag maps to `GUILD_TEXT` |
| ChannelBuild.KindExcludes | src/util.ts:506-513 | a tag matched as one kind matches no other kind |
| ChannelBuild.V14CreationType | src/util.ts:561-571 | text, voice, announcement and stage map to the table's type iff the tag matches; other tags leave the type unset |
| ChannelBuild.ChannelTypeValueInjective | src/util.ts:43-51 | distinct kinds have distinct constants |
| ChannelBuild.BuildCreateRequest | src/util.ts:499-595 | the creation options of the branch in use, field by field; the selfbot branch writes the rate limit under the snake-case key, the v14 branch under `rateLimitPerUser` |
| ChannelBuild.LoadCategory | src/util.ts:329-364 | creates the category, sets the restored overwrites, settles iff creation, parsing and update all succeed |
| ChannelBuild.CategoryRequestIsCategory | src/util.ts:334-345 | both branches ask for a category type |
| ChannelBuild.LoadThread | src/util.ts:640-662 | one stored thread makes the requests of the thread step, whose properties are stated by CachedThreadReused, UncachedThreadCreated and CachedThreadReplayIsParentReplay |
| ChannelBuild.LoadThreads | src/util.ts:632-664 | stored threads are handled in order, each by the thread step; with a parent webhook every thread message goes through it (ThreadsUseParentWebhook) |
| ChannelBuild.ReplayChannel | src/util.ts:617-631 | the channel replay runs only with stored messages, and hands its result to the threads; NoChannelWebhookNoThreadMessages states what a missing result means |
| ChannelBuild.LoadTextContent | src/util.ts:611-665 | the channel's replay then its threads; TextSendsUseOneWebhook and NoChannelWebhookNoThreadMessages state what the threads send |
| ChannelBuild.LoadChannel | src/util.ts:369-670 | the creation request comes first, then the overwrites; the promise settles iff the channel is not a text channel and creation, parsing and update succeed |
| ChannelBuild.TextByNameIsStrict | src/util.ts:611 | the text test `=== GuildText \|\| String(t) === 'GUILD_TEXT'` is the strict text test |
| ChannelBuild.NoParentWebhookNoThreadMessages | src/util.ts:645-659 | without a parent webhook, no thread message is sent |
| ChannelBuild.ThreadsUseParentWebhook | src/util.ts:645-659 | with the parent's webhook handed down, every thread message is sent through it |
| ChannelBuild.CachedThreadReused | src/util.ts:647-651 | a stored thread whose name is cached is not created again: only its messages are replayed, through the parent's webhook, and no thread is created |
| ChannelBuild.CachedThreadReplayIsParentReplay | src/util.ts:647-651 | with the parent's webhook, a cached thread's requests are exactly those of replaying its messages into the parent channel |
| ChannelBuild.UncachedThreadCreated | src/util.ts:647-659 | otherwise the thread is created with its name and stored archive duration iff threads can be created; the creation is the first and only one, followed by the replay through the parent's webhook unless it failed |
| ChannelBuild.TextSendsUseOneWebhook | src/util.ts:617-662 | when the channel replay settled with a webhook, every message of the channel and its threads goes through it |
| ChannelBuild.NoChannelWebhookNoThreadMessages | src/util.ts:617-662 | with no stored messages or a failed channel send, no webhook is handed down and nothing after the channel's own replay is a send |
| ChannelBuild.CapturedVoiceRestoresAsVoice | src/util.ts:537-549 | a captured voice record is recreated as a voice channel with a downgraded bitrate and its user limit; the selfbot branch drops a zero bitrate or user limit |
| ChannelBuild.CapturedTextRestoresAsText | src/util.ts:527-536 | a captured text record is recreated as a text channel with nsfw, topic and rate limit; the selfbot branch drops falsy ones and puts the rate limit only under `rate_limit_per_user`, the v14 branch only under `rateLimitPerUser` |
| Platform.SentPayloadsAppend | src/util.ts:440 | sends of consecutive logs are the sends of each, in order |

## Left out

- `clearGuild`: it is fire-and-forget deletions with no result to model.
- Concurrency:
  - Promise concurrency is not modelled. The `Promise.all` over a page's
    messages, over cached threads on capture and over stored threads on
    restore is run sequentially in list order.
  - MessageCapture.RecordPage: records a page's messages in page order. In
    the source, their push order depends on when each attachment fetch
    completes.
  - LoadTextContent and TextLog order all of the channel's requests before
    the threads'. In the source, a failed channel send settles the replay
    early (`resolve(undefined)`), so thread creation and thread replay can
    interleave with the channel's remaining sends and pins. The model keeps
    the same requests, but not that interleaving.
  - ChannelCapture.FetchThreads: in the source, thread entries are pushed
    in completion order; the model keeps cache order.
- Attachment bytes:
  - The bytes of an inlined image, base64 encoding and `Buffer` are not
    modelled. An inlined value is an opaque token naming its URL. Whether
    its fetch succeeds is the attachment's `reachable` flag. A replay
    attachment's bytes are given by the set of fetchable values.
  - The library-specific attachment object (`{attachment, name}` versus
    `AttachmentBuilder`) is one `FilePart`.
- ChannelBuild.SelfbotRequest: the snake-case `rate_limit_per_user` key is
  recorded as its own field. Whether the selfbot library honours that key
  is library behaviour outside this model.
- `BigInt` syntaxes other than plain decimal digits are not modelled. These
  are signs, hexadecimal and surrounding whitespace. Masks are unbounded
  naturals, as BigInt values are.
- Logging, `debug` output and `allowedMentions` have no effect on the
  modelled state.
- Module start-up:
  - `require` failures are the two booleans of the constructor.
  - The constant tables are `ChannelTypeValue`, `RoleOverwriteType` and
    `TierKeys`.
- Never-settled promises are a `settled` flag, not a promise. A rejection
  that is not handled appears as an unsettled result. This covers a failed
  channel creation, a mask that `BigInt` rejects, and a failed overwrite
  update.
- `loadChannel` receives the category as its id. The v14 branch passes the
  category object, the selfbot branch its id.
- `options` is assumed present in `loadChannel`. If it is absent, reading
  `maxMessagesPerChannel` throws inside `loadMessages`.
- A NaN `maxMessagesPerChannel` on replay is not modelled. Capture treats
  NaN like unset.
- Platform errors caught and ignored inside the loops have no effect on the
  log beyond the request itself. This covers a failed pin and a failed
  thread creation after the request.
