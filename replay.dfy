/** Message replay, `loadMessages` inside `loadChannel` (util.ts:372-494):
    find or create the "MessagesBackup" webhook, keep the stored messages that
    have something to show, put them oldest first, cut them to the configured
    count with JavaScript's `slice`, and send them one by one, pinning those
    that were pinned. The returned promise settles once: the first send that
    fails settles it with no webhook, otherwise it settles with the webhook. */
module Replay {
  import opened Wrappers
  import opened MessageCapture
  import opened Platform

  const BackupHookName: string := "MessagesBackup"

  /** The channel `loadMessages` is called with: whether it is a thread, and
      whether it offers `fetchWebhooks` and `createWebhook`. No send names
      it: messages go wherever the webhook posts. */
  datatype Target = Target(isThread: bool, canFetchWebhooks: bool, canCreateWebhook: bool)

  /** The platform's answers during one replay: the webhook list (None: the
      fetch rejects), the created webhook (None: creation fails), the positions
      of the sends that reject, and the attachment values whose fetch yields
      bytes. */
  datatype Responses = Responses(
    webhooks: Option<seq<Hook>>,
    created: Option<Hook>,
    failedSends: set<nat>,
    fetchable: set<AttachmentValue>)

  /** The load option read here; None when unset. */
  datatype LoadOptions = LoadOptions(maxMessagesPerChannel: Option<int>)

  /** `webhooks.find(w => w.name === 'MessagesBackup')`. */
  function FindBackupHook(hooks: seq<Hook>): (r: Option<Hook>)
    ensures r.Some? ==> r.value in hooks && r.value.name == BackupHookName
    ensures r.None? <==> forall h :: h in hooks ==> h.name != BackupHookName
    ensures r.Some? ==>
      exists k :: 0 <= k < |hooks| && hooks[k] == r.value && (forall j :: 0 <= j < k ==> hooks[j].name != BackupHookName)
  {
    if hooks == [] then None
    else if hooks[0].name == BackupHookName then Some(hooks[0])
    else FindBackupHook(hooks[1..])
  }

  /** Result of the webhook step: the webhook to send with, and the requests
      made to find it. */
  datatype Acquisition = Acquisition(hook: Option<Hook>, log: seq<Action>)

  /** The webhook step: a supplied webhook is used as is; otherwise a channel
      that is not a thread is searched for an existing backup webhook, and one
      is created when none was found. */
  function Acquire(target: Target, previous: Option<Hook>, resp: Responses, api: Api): Acquisition {
    if previous.Some? || target.isThread then Acquisition(previous, [])
    else
      var found := if target.canFetchWebhooks && resp.webhooks.Some? then FindBackupHook(resp.webhooks.value) else None;
      var lookup := if target.canFetchWebhooks then [FetchWebhooks] else [];
      if found.Some? then Acquisition(found, lookup)
      else if target.canCreateWebhook then Acquisition(resp.created, lookup + [CreateWebhook(api)])
      else Acquisition(None, lookup)
  }

  /** A stored message that has text, embeds or files. */
  predicate Replayable(m: MessageRecord) {
    |m.content| > 0 || |m.embeds| > 0 || |m.files| > 0
  }

  /** Every message of the list is replayable. */
  predicate AllReplayable(ms: seq<MessageRecord>) {
    ms == [] || (Replayable(ms[0]) && AllReplayable(ms[1..]))
  }

  lemma {:induction false} AllReplayableMeans(ms: seq<MessageRecord>)
    ensures AllReplayable(ms) <==> forall m :: m in ms ==> Replayable(m)
  {
    if ms != [] {
      AllReplayableMeans(ms[1..]);
      assert forall m :: m in ms ==> m == ms[0] || m in ms[1..];
    }
  }

  /** `messages.filter(m => m.content.length > 0 || ...)`. */
  function KeepReplayable(ms: seq<MessageRecord>): (r: seq<MessageRecord>)
    ensures |r| <= |ms|
    ensures forall m :: m in r ==> m in ms && Replayable(m)
    ensures forall m :: m in ms && Replayable(m) ==> m in r
    ensures AllReplayable(ms) ==> r == ms
  {
    if ms == [] then []
    else (if Replayable(ms[0]) then [ms[0]] else []) + KeepReplayable(ms[1..])
  }

  /** `Array.prototype.reverse`. */
  function Reverse<T>(s: seq<T>): (r: seq<T>)
    ensures |r| == |s|
    ensures forall i :: 0 <= i < |s| ==> r[i] == s[|s| - 1 - i]
  {
    if s == [] then [] else [s[|s| - 1]] + Reverse(s[..|s| - 1])
  }

  /** `Array.prototype.slice(start)`: a negative start counts from the end,
      and the start is clamped to the array. */
  function SliceFrom<T>(s: seq<T>, start: int): (r: seq<T>)
    ensures |r| <= |s| && r == s[|s| - |r|..]
    ensures 0 <= start ==> |r| == if start <= |s| then |s| - start else 0
    ensures start < 0 ==> |r| == if -start <= |s| then -start else |s|
  {
    var from := if start < 0 then (if |s| + start < 0 then 0 else |s| + start)
                else (if start > |s| then |s| else start);
    s[from..]
  }

  /** `options.maxMessagesPerChannel && options.maxMessagesPerChannel !== -1`:
      the count to cut to, when there is one. */
  function ReplayLimit(options: LoadOptions): (r: Option<int>)
    ensures r.None? <==> options.maxMessagesPerChannel.None? || options.maxMessagesPerChannel.value in {0, -1}
    ensures r.Some? ==> options.maxMessagesPerChannel == r
  {
    match options.maxMessagesPerChannel
    case None => None
    case Some(n) => if n == 0 || n == -1 then None else Some(n)
  }

  /** The messages replayed, oldest first: the newest of the replayable
      ones, as many as the count lets through. */
  function SelectForReplay(ms: seq<MessageRecord>, options: LoadOptions): (r: seq<MessageRecord>)
    ensures |r| <= |KeepReplayable(ms)|
    ensures r == Reverse(KeepReplayable(ms))[|KeepReplayable(ms)| - |r|..]
  {
    var ordered := Reverse(KeepReplayable(ms));
    match ReplayLimit(options)
    case None => ordered
    case Some(n) => SliceFrom(ordered, |ordered| - n)
  }

  /** What is sent for one stored message: its text when non-empty, its author
      and embeds, and its first file when that file's bytes could be fetched. */
  function PayloadOf(m: MessageRecord, fetchable: set<AttachmentValue>): (p: Payload)
    ensures p.content.Some? <==> |m.content| > 0
    ensures p.content.Some? ==> p.content.value == m.content
    ensures p.username == m.username && p.avatarUrl == m.avatar && p.embeds == m.embeds
    ensures p.file.Some? <==> |m.files| > 0 && m.files[0].attachment in fetchable
    ensures p.file.Some? ==> p.file.value == FilePart(m.files[0].name, m.files[0].attachment)
  {
    Payload(
      if |m.content| > 0 then Some(m.content) else None,
      m.username, m.avatar, m.embeds,
      if |m.files| > 0 && m.files[0].attachment in fetchable
      then Some(FilePart(m.files[0].name, m.files[0].attachment)) else None)
  }

  /** The requests made for the i-th message: its send, and its pin when it
      was pinned and the send went through. */
  function SendStep(hook: Hook, m: MessageRecord, i: nat, resp: Responses): seq<Action> {
    [Send(hook, PayloadOf(m, resp.fetchable))] + (if m.pinned && i !in resp.failedSends then [Pin(i)] else [])
  }

  /** The requests made by the send loop over `ms`. */
  function SendLog(hook: Hook, ms: seq<MessageRecord>, resp: Responses): (log: seq<Action>)
    ensures |ms| <= |log| <= 2 * |ms|
  {
    if ms == [] then []
    else SendLog(hook, ms[..|ms| - 1], resp) + SendStep(hook, ms[|ms| - 1], |ms| - 1, resp)
  }

  /** Some send among the first n rejects, checked from the last one back. */
  predicate SomeSendFails(n: nat, failedSends: set<nat>) {
    n > 0 && (n - 1 in failedSends || SomeSendFails(n - 1, failedSends))
  }

  /** `SomeSendFails` holds exactly when one of the first n sends is among
      the rejected ones. */
  lemma {:induction false} SomeSendFailsExactly(n: nat, failedSends: set<nat>)
    ensures SomeSendFails(n, failedSends) <==> exists i :: 0 <= i < n && i in failedSends
  {
    if n > 0 {
      SomeSendFailsExactly(n - 1, failedSends);
      if n - 1 in failedSends {
        assert exists i :: 0 <= i < n && i in failedSends by { assert n - 1 in failedSends; }
      }
    }
  }

  /** Every request of a replay, in order. */
  function ReplayLog(target: Target, ms: seq<MessageRecord>, previous: Option<Hook>, options: LoadOptions,
                     resp: Responses, api: Api): seq<Action>
  {
    var a := Acquire(target, previous, resp, api);
    if a.hook.None? then a.log else a.log + SendLog(a.hook.value, SelectForReplay(ms, options), resp)
  }

  /** What the replay's promise settles with. */
  function ReplayResult(target: Target, ms: seq<MessageRecord>, previous: Option<Hook>, options: LoadOptions,
                        resp: Responses, api: Api): Option<Hook>
  {
    var a := Acquire(target, previous, resp, api);
    if a.hook.None? || SomeSendFails(|SelectForReplay(ms, options)|, resp.failedSends) then None else a.hook
  }

  /** The webhook step of `loadMessages`. */
  method AcquireWebhook(target: Target, previous: Option<Hook>, resp: Responses, api: Api)
    returns (webhook: Option<Hook>, log: seq<Action>)
    ensures Acquisition(webhook, log) == Acquire(target, previous, resp, api)
  {
    webhook := previous;
    log := [];
    if webhook.None? && !target.isThread && target.canFetchWebhooks {
      log := log + [FetchWebhooks];
      if resp.webhooks.Some? {
        webhook := FindBackupHook(resp.webhooks.value);
      }
    }
    if webhook.None? && !target.isThread && target.canCreateWebhook {
      log := log + [CreateWebhook(api)];
      webhook := resp.created;
    }
  }

  /** The send loop of `loadMessages`: one send per message, a pin after each
      successful send of a pinned message; the first failed send settles the
      result with no webhook, and settling again later has no effect. */
  method SendMessages(hook: Hook, selected: seq<MessageRecord>, resp: Responses)
    returns (result: Option<Hook>, log: seq<Action>)
    ensures log == SendLog(hook, selected, resp)
    ensures result == if SomeSendFails(|selected|, resp.failedSends) then None else Some(hook)
  {
    log := [];
    var resolved := false;
    result := None;
    for i := 0 to |selected|
      invariant log == SendLog(hook, selected[..i], resp)
      invariant resolved <==> SomeSendFails(i, resp.failedSends)
      invariant result == None
    {
      SendLogAppend(hook, selected[..i], selected[i], resp);
      assert selected[..i] + [selected[i]] == selected[..i + 1];
      log := log + [Send(hook, PayloadOf(selected[i], resp.fetchable))];
      if i in resp.failedSends {
        if !resolved {
          resolved := true;
          result := None;
        }
      } else if selected[i].pinned {
        log := log + [Pin(i)];
      }
    }
    assert selected[..|selected|] == selected;
    if !resolved {
      result := Some(hook);
    }
  }

  /** `loadMessages(channel, messages, previousWebhook)`. */
  method LoadMessages(target: Target, messages: seq<MessageRecord>, previous: Option<Hook>, options: LoadOptions,
                      resp: Responses, api: Api)
    returns (result: Option<Hook>, log: seq<Action>)
    ensures log == ReplayLog(target, messages, previous, options, resp, api)
    ensures result == ReplayResult(target, messages, previous, options, resp, api)
  {
    var webhook;
    webhook, log := AcquireWebhook(target, previous, resp, api);
    if webhook.None? {
      return None, log;
    }
    var selected := SelectForReplay(messages, options);
    var sent;
    result, sent := SendMessages(webhook.value, selected, resp);
    log := log + sent;
  }

  // ---- properties ----

  /** A webhook handed down by the caller is used without any lookup or
      creation. */
  lemma SuppliedWebhookIsUsed(target: Target, previous: Option<Hook>, resp: Responses, api: Api)
    requires previous.Some?
    ensures Acquire(target, previous, resp, api) == Acquisition(previous, [])
  {
  }

  /** A thread cannot look up or create a webhook: without one from its
      parent, nothing is requested and the replay settles with no webhook. */
  lemma ThreadWithoutWebhookSendsNothing(ms: seq<MessageRecord>, target: Target, options: LoadOptions, resp: Responses, api: Api)
    requires target.isThread
    ensures ReplayLog(target, ms, None, options, resp, api) == []
    ensures ReplayResult(target, ms, None, options, resp, api) == None
  {
  }

  /** An existing backup webhook is preferred: when the lookup finds one,
      no webhook is created. */
  lemma ExistingWebhookPreferred(target: Target, resp: Responses, api: Api)
    requires !target.isThread && target.canFetchWebhooks && resp.webhooks.Some?
    requires exists h :: h in resp.webhooks.value && h.name == BackupHookName
    ensures Acquire(target, None, resp, api).log == [FetchWebhooks]
    ensures Acquire(target, None, resp, api).hook.Some?
    ensures Acquire(target, None, resp, api).hook.value in resp.webhooks.value
  {
  }

  /** When no backup webhook is found, one is created after the lookup, and
      its outcome is the webhook used. */
  lemma CreatesWhenNoneFound(target: Target, resp: Responses, api: Api)
    requires !target.isThread && target.canCreateWebhook
    requires !target.canFetchWebhooks || resp.webhooks.None? || forall h :: h in resp.webhooks.value ==> h.name != BackupHookName
    ensures Acquire(target, None, resp, api).log == (if target.canFetchWebhooks then [FetchWebhooks] else []) + [CreateWebhook(api)]
    ensures Acquire(target, None, resp, api).hook == resp.created
  {
  }

  lemma {:induction false} SendLogAppend(hook: Hook, a: seq<MessageRecord>, m: MessageRecord, resp: Responses)
    ensures SendLog(hook, a + [m], resp) == SendLog(hook, a, resp) + SendStep(hook, m, |a|, resp)
  {
    assert (a + [m])[..|a + [m]| - 1] == a;
  }

  lemma StepSendsOne(hook: Hook, m: MessageRecord, i: nat, resp: Responses)
    ensures SentPayloads(SendStep(hook, m, i, resp)) == [PayloadOf(m, resp.fetchable)]
  {
    var step := SendStep(hook, m, i, resp);
    if |step| == 2 {
      assert step[..1] == [Send(hook, PayloadOf(m, resp.fetchable))];
    }
  }

  /** The sends go out in message order, one per message. */
  lemma {:induction false} SendsInOrder(hook: Hook, ms: seq<MessageRecord>, resp: Responses)
    ensures |SentPayloads(SendLog(hook, ms, resp))| == |ms|
    ensures forall i :: 0 <= i < |ms| ==> SentPayloads(SendLog(hook, ms, resp))[i] == PayloadOf(ms[i], resp.fetchable)
  {
    if ms != [] {
      var n := |ms| - 1;
      SendsInOrder(hook, ms[..n], resp);
      SentPayloadsAppend(SendLog(hook, ms[..n], resp), SendStep(hook, ms[n], n, resp));
      StepSendsOne(hook, ms[n], n, resp);
    }
  }

  /** The send loop only sends and pins, and every send goes through the one
      webhook. */
  lemma {:induction false} SendsUseWebhook(hook: Hook, ms: seq<MessageRecord>, resp: Responses)
    ensures forall a :: a in SendLog(hook, ms, resp) ==> (a.Send? && a.hook == hook) || a.Pin?
  {
    if ms != [] {
      SendsUseWebhook(hook, ms[..|ms| - 1], resp);
    }
  }

  /** The requests a replay may make. */
  predicate ReplayRequest(a: Action) {
    a.FetchWebhooks? || a.CreateWebhook? || a.Send? || a.Pin?
  }

  /** A replay only looks up or creates a webhook, sends and pins, and each
      send goes through the webhook the lookup settled on. */
  lemma ReplayRequestsOnly(target: Target, ms: seq<MessageRecord>, previous: Option<Hook>, options: LoadOptions,
                           resp: Responses, api: Api)
    ensures forall a :: a in ReplayLog(target, ms, previous, options, resp, api) ==> ReplayRequest(a)
    ensures forall a :: a in ReplayLog(target, ms, previous, options, resp, api) && a.Send? ==>
      Acquire(target, previous, resp, api).hook == Some(a.hook)
  {
    var acq := Acquire(target, previous, resp, api);
    assert forall a :: a in acq.log ==> a.FetchWebhooks? || a.CreateWebhook?;
    if acq.hook.Some? {
      var sends := SendLog(acq.hook.value, SelectForReplay(ms, options), resp);
      SendsUseWebhook(acq.hook.value, SelectForReplay(ms, options), resp);
      assert ReplayLog(target, ms, previous, options, resp, api) == acq.log + sends;
    }
  }

  /** With a webhook handed down, the target plays no part: the requests and
      the result are the same for any channel or thread, because the sends
      name no destination. */
  lemma SuppliedWebhookIgnoresTarget(t1: Target, t2: Target, ms: seq<MessageRecord>, h: Hook, options: LoadOptions,
                                     resp: Responses, api: Api)
    ensures ReplayLog(t1, ms, Some(h), options, resp, api) == ReplayLog(t2, ms, Some(h), options, resp, api)
    ensures ReplayResult(t1, ms, Some(h), options, resp, api) == ReplayResult(t2, ms, Some(h), options, resp, api)
  {
    SuppliedWebhookIsUsed(t1, Some(h), resp, api);
    SuppliedWebhookIsUsed(t2, Some(h), resp, api);
  }

  /** The i-th message is pinned exactly when it was pinned and its send went
      through. */
  lemma {:induction false} PinnedExactly(hook: Hook, ms: seq<MessageRecord>, resp: Responses, i: nat)
    ensures Pin(i) in SendLog(hook, ms, resp) <==> i < |ms| && ms[i].pinned && i !in resp.failedSends
  {
    if ms != [] {
      var n := |ms| - 1;
      PinnedExactly(hook, ms[..n], resp, i);
    }
  }

  /** One rejected send is enough for the replay to settle with no webhook,
      though the remaining messages are still sent. */
  lemma FailedSendClearsResult(target: Target, ms: seq<MessageRecord>, previous: Option<Hook>, options: LoadOptions,
                               resp: Responses, api: Api, i: nat)
    requires i < |SelectForReplay(ms, options)| && i in resp.failedSends
    ensures ReplayResult(target, ms, previous, options, resp, api) == None
  {
    SomeSendFailsExactly(|SelectForReplay(ms, options)|, resp.failedSends);
  }

  /** Every replayed message has something to show, and with no count to cut
      to (unset, 0 or -1) all of them are replayed, oldest first. */
  lemma SelectKeepsAll(ms: seq<MessageRecord>, options: LoadOptions)
    requires ReplayLimit(options).None?
    ensures SelectForReplay(ms, options) == Reverse(KeepReplayable(ms))
    ensures forall m :: m in SelectForReplay(ms, options) <==> m in ms && Replayable(m)
  {
    ReverseMembers(KeepReplayable(ms));
  }

  /** The filter keeps order: the replayable messages of consecutive lists
      are consecutive. */
  lemma {:induction false} KeepReplayableAppend(a: seq<MessageRecord>, b: seq<MessageRecord>)
    ensures KeepReplayable(a + b) == KeepReplayable(a) + KeepReplayable(b)
    decreases |a|
  {
    if a != [] {
      var head := if Replayable(a[0]) then [a[0]] else [];
      assert (a + b)[0] == a[0];
      assert (a + b)[1..] == a[1..] + b;
      assert KeepReplayable(a + b) == head + KeepReplayable(a[1..] + b);
      KeepReplayableAppend(a[1..], b);
      assert KeepReplayable(a) == head + KeepReplayable(a[1..]);
      assert head + (KeepReplayable(a[1..]) + KeepReplayable(b)) == (head + KeepReplayable(a[1..])) + KeepReplayable(b);
    } else {
      assert a + b == b;
    }
  }

  /** When every stored message is replayable and there is no count, the
      replay is exactly the stored list in reverse: oldest first, none lost,
      none repeated. */
  lemma ReplaysAllInChronologicalOrder(ms: seq<MessageRecord>, options: LoadOptions)
    requires forall m :: m in ms ==> Replayable(m)
    requires ReplayLimit(options).None?
    ensures SelectForReplay(ms, options) == Reverse(ms)
  {
    AllReplayableMeans(ms);
  }

  lemma {:induction false} ReverseMembers<T>(s: seq<T>)
    ensures forall x :: x in Reverse(s) <==> x in s
  {
    if s != [] {
      var n := |s| - 1;
      ReverseMembers(s[..n]);
      assert s == s[..n] + [s[n]];
    }
  }

  /** A count n with 0 < n <= the number of replayable messages keeps the n
      newest, oldest first. */
  lemma SelectKeepsNewest(ms: seq<MessageRecord>, options: LoadOptions, n: int)
    requires ReplayLimit(options) == Some(n)
    requires 0 < n <= |KeepReplayable(ms)|
    ensures SelectForReplay(ms, options) == Reverse(KeepReplayable(ms))[|KeepReplayable(ms)| - n..]
    ensures |SelectForReplay(ms, options)| == n
  {
  }

  /** `slice(length - n)` with n above the length counts back from the end a
      second time: between one and two times the length, only n - length
      messages are kept, from twice the length on, all of them. */
  lemma SelectOverCount(ms: seq<MessageRecord>, options: LoadOptions, n: int)
    requires ReplayLimit(options) == Some(n)
    requires |KeepReplayable(ms)| < n
    ensures var len := |KeepReplayable(ms)|;
      SelectForReplay(ms, options) ==
        if n < 2 * len then Reverse(KeepReplayable(ms))[2 * len - n..] else Reverse(KeepReplayable(ms))
    ensures var len := |KeepReplayable(ms)|;
      |SelectForReplay(ms, options)| == if n < 2 * len then n - len else len
  {
  }

  /** A negative count other than -1 replays nothing. */
  lemma SelectNegativeCount(ms: seq<MessageRecord>, options: LoadOptions, n: int)
    requires ReplayLimit(options) == Some(n) && n < 0
    ensures SelectForReplay(ms, options) == []
  {
  }
}
