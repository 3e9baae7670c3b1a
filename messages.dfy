/** Paginated message capture, `fetchChannelMessages` (util.ts:226-272): pages
    of at most 100 messages are requested backwards in time; each message of a
    page is recorded unless the page started at or over the limit, and the loop
    ends on an empty page or after a page that hit the limit or held a message
    without an author. */
module MessageCapture {
  import opened Wrappers

  /** An embed is passed through verbatim; its contents do not matter here. */
  datatype Embed = Embed(json: string)

  datatype Author = Author(username: string, avatarUrl: string)

  /** An attachment of a live message; `reachable` is whether fetching its
      URL succeeds when the capture runs. */
  datatype Attachment = Attachment(name: string, url: string, reachable: bool)

  /** A live message; `author` is absent on system records. */
  datatype Message = Message(
    id: string,
    author: Option<Author>,
    cleanContent: string,
    embeds: seq<Embed>,
    attachments: seq<Attachment>,
    pinned: bool,
    createdAt: string)

  /** A stored attachment: its URL, or the base64 text of the bytes fetched
      from that URL (kept opaque: which bytes came back is not modelled). */
  datatype AttachmentValue = Link(url: string) | Inlined(fetchedFrom: string)

  datatype FileRecord = FileRecord(name: string, attachment: AttachmentValue)

  /** MessageData: the portable form of one message. */
  datatype MessageRecord = MessageRecord(
    username: string,
    avatar: string,
    content: string,
    embeds: seq<Embed>,
    files: seq<FileRecord>,
    pinned: bool,
    sentAt: string)

  /** The capture options this module reads. `maxMessagesPerChannel` is None
      when unset or NaN; `saveImages` is a string, truthy when non-empty. */
  datatype CaptureOptions = CaptureOptions(maxMessagesPerChannel: Option<int>, saveImages: string)

  /** One answer of `messages.fetch`: a page, newest first, or a rejection. */
  datatype Page = Page(messages: seq<Message>) | Failed

  /** The options object passed to `messages.fetch`. */
  datatype FetchRequest = FetchRequest(limit: nat, before: Option<string>)

  const PageSize: nat := 100
  const DefaultLimit: int := 10

  /** The extension tokens the inlining filter compares whole URLs against. */
  const ImageTokens: seq<string> := ["png", "jpg", "jpeg", "jpe", "jif", "jfif", "jfi"]

  /** `isNaN(max) ? 10 : max`. */
  function MessageLimit(options: CaptureOptions): (l: int)
    ensures options.maxMessagesPerChannel.None? ==> l == DefaultLimit
    ensures options.maxMessagesPerChannel.Some? ==> l == options.maxMessagesPerChannel.value
  {
    options.maxMessagesPerChannel.GetOr(DefaultLimit)
  }

  predicate SavesImages(options: CaptureOptions) {
    options.saveImages != ""
  }

  /** The stored value of one attachment: inlined only when the URL string is
      exactly one of the extension tokens and image saving is on; otherwise the
      URL itself. */
  function StoredAttachment(a: Attachment, save: bool): (v: AttachmentValue)
    ensures v.Inlined? <==> save && a.url in ImageTokens
    ensures v.Inlined? ==> v.fetchedFrom == a.url
    ensures v.Link? ==> v.url == a.url
  {
    if a.url != "" && a.url in ImageTokens && save then Inlined(a.url) else Link(a.url)
  }

  /** The files of a message: one per attachment, in order, names kept. */
  function FilesOf(atts: seq<Attachment>, save: bool): (fs: seq<FileRecord>)
    ensures |fs| == |atts|
    ensures forall i :: 0 <= i < |atts| ==> fs[i].name == atts[i].name && fs[i].attachment == StoredAttachment(atts[i], save)
  {
    seq(|atts|, i requires 0 <= i < |atts| => FileRecord(atts[i].name, StoredAttachment(atts[i], save)))
  }

  /** The inlining fetch of an attachment rejects. */
  predicate InlineFails(a: Attachment, save: bool) {
    StoredAttachment(a, save).Inlined? && !a.reachable
  }

  /** Some attachment of the list is inlined and its fetch rejects. */
  predicate SomeInlineFails(atts: seq<Attachment>, save: bool) {
    |atts| > 0 && (InlineFails(atts[|atts| - 1], save) || SomeInlineFails(atts[..|atts| - 1], save))
  }

  /** Some message of the page that passes the author check has an attachment
      whose inlining fetch rejects. */
  predicate PageFetchFails(ms: seq<Message>, save: bool) {
    |ms| > 0 &&
    ((ms[|ms| - 1].author.Some? && SomeInlineFails(ms[|ms| - 1].attachments, save)) ||
     PageFetchFails(ms[..|ms| - 1], save))
  }

  /** The attachment map of one message: each attachment keeps its URL, or is
      inlined when its URL is an extension token and images are saved; the
      `Promise.all` over them rejects when an inlining fetch rejects. */
  method StoreFiles(atts: seq<Attachment>, save: bool) returns (files: seq<FileRecord>, ok: bool)
    ensures ok <==> !SomeInlineFails(atts, save)
    ensures ok ==> files == FilesOf(atts, save)
  {
    files := [];
    ok := true;
    for i := 0 to |atts|
      invariant ok <==> !SomeInlineFails(atts[..i], save)
      invariant files == FilesOf(atts[..i], save)
    {
      assert atts[..i + 1][..i] == atts[..i];
      var a := atts[i];
      var attach := Link(a.url);
      if a.url != "" && a.url in ImageTokens {
        if save {
          if !a.reachable {
            ok := false;
          }
          attach := Inlined(a.url);
        }
      }
      files := files + [FileRecord(a.name, attach)];
    }
    assert atts[..|atts|] == atts;
  }

  function RecordOf(m: Message, save: bool): MessageRecord
    requires m.author.Some?
  {
    MessageRecord(m.author.value.username, m.author.value.avatarUrl, m.cleanContent,
                  m.embeds, FilesOf(m.attachments, save), m.pinned, m.createdAt)
  }

  /** The records of the messages that have an author, in page order. */
  function Authored(ms: seq<Message>, save: bool): (rs: seq<MessageRecord>)
    ensures |rs| <= |ms|
    ensures AllAuthored(ms) ==> |rs| == |ms|
  {
    if ms == [] then []
    else
      var last := ms[|ms| - 1];
      Authored(ms[..|ms| - 1], save) + (if last.author.Some? then [RecordOf(last, save)] else [])
  }

  /** Every message's check runs before any record of its page is pushed, so
      all of them compare the count taken at the start of the page. */
  function PageRecords(ms: seq<Message>, taken: nat, limit: int, save: bool): seq<MessageRecord> {
    if taken >= limit then [] else Authored(ms, save)
  }

  predicate AllAuthored(ms: seq<Message>) {
    forall k :: 0 <= k < |ms| ==> ms[k].author.Some?
  }

  /** Some check of the page sets `fetchComplete`: the page started at the
      limit, or one of its messages has no author. */
  predicate Stops(ms: seq<Message>, taken: nat, limit: int) {
    (|ms| > 0 && taken >= limit) || !AllAuthored(ms)
  }

  /** The outcome of a capture (None: rejected) and how many fetches it made. */
  datatype Run = Run(records: Option<seq<MessageRecord>>, requests: nat)

  /** The answer to the k-th fetch: fetches past the end of the history get an
      empty page. */
  function PageAt(history: seq<Page>, k: nat): Page {
    if k < |history| then history[k] else Page([])
  }

  /** Specification of the capture loop from the k-th fetch on, `acc` the
      records already held: the records it ends with (None: a fetch rejected)
      and the number of fetches made in all. */
  function CaptureFrom(history: seq<Page>, k: nat, limit: int, save: bool, acc: seq<MessageRecord>): Run
    decreases |history| - k
  {
    match PageAt(history, k)
    case Failed => Run(None, k + 1)
    case Page(ms) =>
      if |ms| == 0 then Run(Some(acc), k + 1)
      else if |acc| < limit && PageFetchFails(ms, save) then Run(None, k + 1)
      else
        var recs := PageRecords(ms, |acc|, limit, save);
        if Stops(ms, |acc|, limit) then Run(Some(acc + recs), k + 1)
        else CaptureFrom(history, k + 1, limit, save, acc + recs)
  }

  /** The whole capture: what `fetchChannelMessages` returns and how many
      fetches it makes. */
  function Capture(history: seq<Page>, limit: int, save: bool): Run {
    CaptureFrom(history, 0, limit, save, [])
  }

  /** `fetched.last().id`: the oldest message of a page. */
  function LastId(p: Page): string
    requires p.Page? && |p.messages| > 0
  {
    p.messages[|p.messages| - 1].id
  }

  /** The first n fetches were answered with non-empty pages. */
  predicate PagesFetched(history: seq<Page>, n: nat) {
    n <= |history| && forall i :: 0 <= i < n ==> history[i].Page? && |history[i].messages| > 0
  }

  /** The cursor of the i-th fetch: none for the first, otherwise the id of
      the oldest message of the page before it. */
  function Cursor(history: seq<Page>, i: int): (c: Option<string>)
    ensures c.Some? ==> 0 < i <= |history|
  {
    if i <= 0 || i > |history| || history[i - 1].Failed? || |history[i - 1].messages| == 0 then None
    else Some(LastId(history[i - 1]))
  }

  /** The requests of the first n fetches: 100 messages each, at the cursor
      of their position. */
  function Requests(history: seq<Page>, n: nat): (rs: seq<FetchRequest>)
    ensures |rs| == n
  {
    seq(n, i => FetchRequest(PageSize, Cursor(history, i)))
  }

  lemma RequestsStep(history: seq<Page>, n: nat)
    ensures Requests(history, n + 1) == Requests(history, n) + [FetchRequest(PageSize, Cursor(history, n))]
  {
  }

  /** The cursor after a non-empty page is the id of its oldest message. */
  lemma CursorStep(history: seq<Page>, k: nat)
    requires k < |history| && history[k].Page? && |history[k].messages| > 0
    ensures Cursor(history, k + 1) == Some(LastId(history[k]))
  {
  }

  /** `messages.fetch(fetchOptions)` is requested with the current cursor. */
  method AppendRequest(history: seq<Page>, k: nat, cursor: Option<string>, requests: seq<FetchRequest>)
    returns (next: seq<FetchRequest>)
    requires cursor == Cursor(history, k) && requests == Requests(history, k)
    ensures next == Requests(history, k + 1)
  {
    RequestsStep(history, k);
    next := requests + [FetchRequest(PageSize, cursor)];
  }

  /** One more message of a page: its record follows those before it when it
      has an author. */
  lemma PrefixStep(ms: seq<Message>, j: nat, save: bool)
    requires j < |ms|
    ensures Authored(ms[..j + 1], save) ==
      Authored(ms[..j], save) + (if ms[j].author.Some? then [RecordOf(ms[j], save)] else [])
    ensures AllAuthored(ms[..j + 1]) <==> AllAuthored(ms[..j]) && ms[j].author.Some?
    ensures PageFetchFails(ms[..j + 1], save) <==>
      PageFetchFails(ms[..j], save) || (ms[j].author.Some? && SomeInlineFails(ms[j].attachments, save))
  {
    assert ms[..j + 1][..j] == ms[..j];
    assert ms[..j + 1][j] == ms[j];
  }

  /** One non-empty page of the capture specification, case by case. */
  lemma CaptureStep(history: seq<Page>, k: nat, limit: int, save: bool, acc: seq<MessageRecord>, ms: seq<Message>)
    requires PageAt(history, k) == Page(ms) && |ms| > 0
    ensures |acc| < limit && PageFetchFails(ms, save) ==> CaptureFrom(history, k, limit, save, acc) == Run(None, k + 1)
    ensures !(|acc| < limit && PageFetchFails(ms, save)) && Stops(ms, |acc|, limit) ==>
      CaptureFrom(history, k, limit, save, acc) == Run(Some(acc + PageRecords(ms, |acc|, limit, save)), k + 1)
    ensures !(|acc| < limit && PageFetchFails(ms, save)) && !Stops(ms, |acc|, limit) ==>
      CaptureFrom(history, k, limit, save, acc) == CaptureFrom(history, k + 1, limit, save, acc + PageRecords(ms, |acc|, limit, save))
  {
  }

  /** The per-page `Promise.all`, run in page order: every message is checked
      against the count `taken` held when the page arrived; those that pass
      and have an author are recorded, and the page fails when one of their
      inlining fetches rejects. */
  method RecordPage(ms: seq<Message>, taken: nat, limit: int, save: bool)
    returns (records: seq<MessageRecord>, complete: bool, failed: bool)
    ensures failed <==> taken < limit && PageFetchFails(ms, save)
    ensures !failed ==> records == PageRecords(ms, taken, limit, save)
    ensures complete == Stops(ms, taken, limit)
  {
    records := [];
    complete := false;
    failed := false;
    var j := 0;
    while j < |ms|
      invariant 0 <= j <= |ms|
      invariant taken >= limit ==> records == [] && !failed
      invariant taken < limit ==> (failed <==> PageFetchFails(ms[..j], save))
      invariant taken < limit && !failed ==> records == Authored(ms[..j], save)
      invariant complete <==> (j > 0 && taken >= limit) || !AllAuthored(ms[..j])
    {
      var msg := ms[j];
      PrefixStep(ms, j, save);
      if msg.author.None? || taken >= limit {
        complete := true;
      } else {
        var files, ok := StoreFiles(msg.attachments, save);
        if ok {
          records := records + [MessageRecord(msg.author.value.username, msg.author.value.avatarUrl, msg.cleanContent,
                                              msg.embeds, files, msg.pinned, msg.createdAt)];
        } else {
          failed := true;
        }
      }
      j := j + 1;
    }
    assert ms[..j] == ms;
  }

  /** One non-empty page of the capture loop, held against the specification:
      a failure ends the capture with a rejection, a stop ends it with the
      page's records added, otherwise the capture goes on from the next page. */
  method CapturePage(history: seq<Page>, k: nat, ms: seq<Message>, limit: int, save: bool, acc: seq<MessageRecord>)
    returns (records: seq<MessageRecord>, complete: bool, failed: bool)
    requires PageAt(history, k) == Page(ms) && |ms| > 0
    ensures failed ==> CaptureFrom(history, k, limit, save, acc) == Run(None, k + 1)
    ensures !failed && complete ==> CaptureFrom(history, k, limit, save, acc) == Run(Some(acc + records), k + 1)
    ensures !failed && !complete ==> CaptureFrom(history, k, limit, save, acc) == CaptureFrom(history, k + 1, limit, save, acc + records)
  {
    CaptureStep(history, k, limit, save, acc, ms);
    records, complete, failed := RecordPage(ms, |acc|, limit, save);
  }

  /** `fetchChannelMessages` over a history in which the k-th fetch is answered
      by `history[k]`: the records it returns (None when a fetch rejects) and the
      requests it makes, with the limit defaulting to 10. */
  method FetchChannelMessages(history: seq<Page>, options: CaptureOptions)
    returns (outcome: Option<seq<MessageRecord>>, requests: seq<FetchRequest>)
    ensures outcome == Capture(history, MessageLimit(options), SavesImages(options)).records
    ensures |requests| == Capture(history, MessageLimit(options), SavesImages(options)).requests
    ensures requests == Requests(history, |requests|)
  {
    var messages: seq<MessageRecord> := [];
    var messageCount := MessageLimit(options);
    var save := SavesImages(options);
    var lastMessageId: Option<string> := None;
    var fetchComplete := false;
    requests := [];
    var k := 0;
    ghost var whole := Capture(history, messageCount, save);
    while !fetchComplete
      invariant 0 <= k <= |history| && |requests| == k
      invariant !fetchComplete ==> whole == CaptureFrom(history, k, messageCount, save, messages)
      invariant fetchComplete ==> k > 0 && whole == Run(Some(messages), k)
      invariant lastMessageId == Cursor(history, k)
      invariant requests == Requests(history, k)
      decreases |history| - k, !fetchComplete
    {
      requests := AppendRequest(history, k, lastMessageId, requests);
      var fetched := PageAt(history, k);
      if fetched.Failed? {
        outcome := None;
        return;
      }
      var ms := fetched.messages;
      if |ms| == 0 {
        break;
      }
      CursorStep(history, k);
      lastMessageId := Some(LastId(fetched));
      var pageRecords, pageStops, pageFailed := CapturePage(history, k, ms, messageCount, save, messages);
      if pageFailed {
        outcome := None;
        return;
      }
      messages := messages + pageRecords;
      fetchComplete := pageStops;
      k := k + 1;
    }
    outcome := Some(messages);
  }

  // ---- properties of the capture specification ----

  /** All records of a page whose messages all have authors, in order. */
  lemma {:induction false} AuthoredWhole(ms: seq<Message>, save: bool)
    requires AllAuthored(ms)
    ensures |Authored(ms, save)| == |ms|
    ensures forall k :: 0 <= k < |ms| ==> Authored(ms, save)[k] == RecordOf(ms[k], save)
  {
    if ms != [] {
      AuthoredWhole(ms[..|ms| - 1], save);
    }
  }

  /** Records of consecutive messages are consecutive: `Authored` keeps page
      order and drops exactly the messages without an author. */
  lemma {:induction false} AuthoredAppend(a: seq<Message>, b: seq<Message>, save: bool)
    ensures Authored(a + b, save) == Authored(a, save) + Authored(b, save)
    decreases |b|
  {
    if b == [] {
      assert a + b == a;
    } else {
      var n := |b| - 1;
      assert (a + b)[..|a + b| - 1] == a + b[..n];
      AuthoredAppend(a, b[..n], save);
    }
  }

  /** Every fetch asks for 100 messages; the first carries no cursor and
      each later one the id of the oldest message of the page before it. */
  lemma RequestsShape(history: seq<Page>, n: nat)
    requires PagesFetched(history, n)
    ensures var rs := Requests(history, n + 1);
      rs[0].before.None? &&
      (forall i :: 0 <= i <= n ==> rs[i].limit == PageSize) &&
      (forall i :: 0 < i <= n ==> rs[i].before == Some(LastId(history[i - 1])))
  {
  }

  /** The loop stops at the first empty or rejected page: every fetch but the
      last was answered with a non-empty page. */
  lemma {:induction false} CaptureStopsAtFirstEmpty(history: seq<Page>, k: nat, limit: int, save: bool, acc: seq<MessageRecord>)
    requires PagesFetched(history, k)
    ensures CaptureFrom(history, k, limit, save, acc).requests > k
    ensures PagesFetched(history, CaptureFrom(history, k, limit, save, acc).requests - 1)
    decreases |history| - k
  {
    var p := PageAt(history, k);
    if p.Page? && |p.messages| > 0 {
      var recs := PageRecords(p.messages, |acc|, limit, save);
      if !Stops(p.messages, |acc|, limit) {
        CaptureStopsAtFirstEmpty(history, k + 1, limit, save, acc + recs);
      }
    }
  }

  /** Records are only ever appended: what is held stays a prefix. */
  lemma {:induction false} CaptureExtends(history: seq<Page>, k: nat, limit: int, save: bool, acc: seq<MessageRecord>)
    ensures CaptureFrom(history, k, limit, save, acc).records.Some? ==>
      |acc| <= |CaptureFrom(history, k, limit, save, acc).records.value| &&
      CaptureFrom(history, k, limit, save, acc).records.value[..|acc|] == acc
    decreases |history| - k
  {
    var p := PageAt(history, k);
    if p.Page? && |p.messages| > 0 {
      var recs := PageRecords(p.messages, |acc|, limit, save);
      if !Stops(p.messages, |acc|, limit) {
        CaptureExtends(history, k + 1, limit, save, acc + recs);
        assert (acc + recs)[..|acc|] == acc;
      } else {
        assert (acc + recs)[..|acc|] == acc;
      }
    }
  }

  /** Once the count has reached the limit, nothing more is recorded and the
      next non-empty page is the last one fetched. */
  lemma AtLimitRecordsNothing(history: seq<Page>, k: nat, limit: int, save: bool, acc: seq<MessageRecord>)
    requires |acc| >= limit
    ensures CaptureFrom(history, k, limit, save, acc).records.Some? ==> CaptureFrom(history, k, limit, save, acc).records.value == acc
    ensures CaptureFrom(history, k, limit, save, acc).requests == k + 1
  {
    var p := PageAt(history, k);
    if p.Page? && |p.messages| > 0 {
      assert acc + [] == acc;
    }
  }

  /** With a limit of zero or below (the sentinel -1 included), nothing is
      ever recorded and at most one non-empty page is fetched. */
  lemma NonPositiveLimitRecordsNothing(history: seq<Page>, limit: int, save: bool)
    requires limit <= 0
    ensures Capture(history, limit, save).records.Some? ==> Capture(history, limit, save).records.value == []
    ensures Capture(history, limit, save).requests == 1
  {
    AtLimitRecordsNothing(history, 0, limit, save, []);
  }

  /** A page that starts below the limit is recorded whole and the loop goes
      on, so a single page can carry the result past the limit. */
  lemma {:induction false} PageStartingBelowLimitKeptWhole(history: seq<Page>, k: nat, limit: int, save: bool, acc: seq<MessageRecord>)
    requires k < |history| && history[k].Page? && |history[k].messages| > 0 && |acc| < limit
    requires AllAuthored(history[k].messages) && !PageFetchFails(history[k].messages, save)
    ensures |Authored(history[k].messages, save)| == |history[k].messages|
    ensures CaptureFrom(history, k, limit, save, acc) ==
      CaptureFrom(history, k + 1, limit, save, acc + Authored(history[k].messages, save))
  {
    AuthoredWhole(history[k].messages, save);
  }

  /** Concretely: limit 1 and one full page of 100 authored messages gives 100
      records, 99 over the limit, after two fetches. */
  lemma {:induction false} LimitIsPerPage(ms: seq<Message>, save: bool)
    requires |ms| == PageSize && AllAuthored(ms) && !PageFetchFails(ms, save)
    ensures Capture([Page(ms)], 1, save) == Run(Some(Authored(ms, save)), 2)
    ensures |Authored(ms, save)| == 100
  {
    PageStartingBelowLimitKeptWhole([Page(ms)], 0, 1, save, []);
    assert [] + Authored(ms, save) == Authored(ms, save);
  }

  /** The first n fetches were answered with non-empty pages whose messages
      all have authors and whose inlining fetches all succeed. */
  predicate CleanPages(history: seq<Page>, n: nat, save: bool) {
    n == 0 ||
    (n <= |history| && CleanPages(history, n - 1, save) &&
     history[n - 1].Page? && |history[n - 1].messages| > 0 &&
     AllAuthored(history[n - 1].messages) && !PageFetchFails(history[n - 1].messages, save))
  }

  /** The records of the first n pages, page after page. */
  function HistoryRecords(history: seq<Page>, n: nat, save: bool): seq<MessageRecord>
    requires n <= |history|
  {
    if n == 0 then []
    else HistoryRecords(history, n - 1, save) + (if history[n - 1].Page? then Authored(history[n - 1].messages, save) else [])
  }

  lemma {:induction false} CleanPagesAt(history: seq<Page>, n: nat, save: bool, k: nat)
    requires CleanPages(history, n, save) && k < n
    ensures CleanPages(history, k + 1, save)
    ensures history[k].Page? && |history[k].messages| > 0
    ensures AllAuthored(history[k].messages) && !PageFetchFails(history[k].messages, save)
    decreases n
  {
    if k + 1 < n {
      CleanPagesAt(history, n - 1, save, k);
    }
  }

  lemma {:induction false} HistoryRecordsGrow(history: seq<Page>, k: nat, j: nat, save: bool)
    requires k <= j <= |history|
    ensures |HistoryRecords(history, k, save)| <= |HistoryRecords(history, j, save)|
    decreases j - k
  {
    if k < j {
      HistoryRecordsGrow(history, k, j - 1, save);
    }
  }

  /** Nothing is lost below the limit: when the first n pages are non-empty,
      fully authored and free of failing inlining fetches, the last of them
      starts below the limit, and the next fetch comes back empty, the capture
      returns every record of those pages, in order, after n + 1 fetches. */
  lemma CaptureComplete(history: seq<Page>, n: nat, limit: int, save: bool)
    requires CleanPages(history, n, save) && n <= |history| && PageAt(history, n) == Page([])
    requires n > 0 ==> |HistoryRecords(history, n - 1, save)| < limit
    ensures Capture(history, limit, save) == Run(Some(HistoryRecords(history, n, save)), n + 1)
  {
    CaptureReaches(history, 0, n, limit, save);
  }

  /** A page whose inlining fetch rejects, reached below the limit after n
      clean pages, rejects the whole capture: the records of the pages before
      it are lost too. */
  lemma FailedInlineRejectsCapture(history: seq<Page>, n: nat, limit: int, save: bool)
    requires CleanPages(history, n, save) && n < |history|
    requires history[n].Page? && |history[n].messages| > 0 && PageFetchFails(history[n].messages, save)
    requires |HistoryRecords(history, n, save)| < limit
    ensures Capture(history, limit, save) == Run(None, n + 1)
  {
    if n > 0 {
      HistoryRecordsGrow(history, n - 1, n, save);
    }
    CaptureReaches(history, 0, n, limit, save);
  }

  /** Below the limit, clean pages are taken whole and the capture moves on:
      after the first n of them it continues at fetch n with their records. */
  lemma {:induction false} CaptureReaches(history: seq<Page>, k: nat, n: nat, limit: int, save: bool)
    requires k <= n <= |history| && CleanPages(history, n, save)
    requires n > 0 ==> |HistoryRecords(history, n - 1, save)| < limit
    ensures CaptureFrom(history, k, limit, save, HistoryRecords(history, k, save)) ==
      CaptureFrom(history, n, limit, save, HistoryRecords(history, n, save))
    decreases n - k
  {
    if k < n {
      CleanPagesAt(history, n, save, k);
      HistoryRecordsGrow(history, k, n - 1, save);
      var acc := HistoryRecords(history, k, save);
      PageStartingBelowLimitKeptWhole(history, k, limit, save, acc);
      assert HistoryRecords(history, k + 1, save) == acc + Authored(history[k].messages, save);
      CaptureReaches(history, k + 1, n, limit, save);
    }
  }

  /** A page holding a message without an author is the last page fetched. */
  lemma AuthorlessPageIsLast(history: seq<Page>, k: nat, limit: int, save: bool, acc: seq<MessageRecord>, q: nat)
    requires k < |history| && history[k].Page? && q < |history[k].messages| && history[k].messages[q].author.None?
    ensures CaptureFrom(history, k, limit, save, acc).requests == k + 1
  {
  }

  /** The result never passes the limit by a full page: with pages of at most
      100 messages, it holds at most limit + 99 records. */
  lemma {:induction false} CaptureBound(history: seq<Page>, k: nat, limit: int, save: bool, acc: seq<MessageRecord>)
    requires forall q :: 0 <= q < |history| && history[q].Page? ==> |history[q].messages| <= PageSize
    ensures CaptureFrom(history, k, limit, save, acc).records.Some? ==>
      |CaptureFrom(history, k, limit, save, acc).records.value| <= if |acc| >= limit then |acc| else limit + 99
    decreases |history| - k
  {
    var p := PageAt(history, k);
    if p.Page? && |p.messages| > 0 {
      var recs := PageRecords(p.messages, |acc|, limit, save);
      if !Stops(p.messages, |acc|, limit) {
        CaptureBound(history, k + 1, limit, save, acc + recs);
      }
    }
  }

  /** The bound from an empty start: at most limit + 99 records, none for a
      limit of zero or below. */
  lemma CaptureLimit(history: seq<Page>, limit: int, save: bool)
    requires forall q :: 0 <= q < |history| && history[q].Page? ==> |history[q].messages| <= PageSize
    ensures Capture(history, limit, save).records.Some? ==>
      |Capture(history, limit, save).records.value| <= if limit <= 0 then 0 else limit + 99
  {
    CaptureBound(history, 0, limit, save, []);
  }
}
