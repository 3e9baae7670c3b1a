/** The requests the restore side sends to the chat platform, recorded in the
    order they are made. Which answers the platform gives is an input of each
    operation; the log is what the operation did with them. */
module Platform {
  import opened Wrappers
  import opened Library
  import opened Permissions
  import opened MessageCapture

  /** A webhook of a channel, as `fetchWebhooks` lists it. */
  datatype Hook = Hook(id: string, name: string)

  /** The creation API in use: the selfbot library takes the name as a separate
      argument and string types, discord.js v14 takes one options object. */
  datatype Api = SelfbotApi | V14Api

  /** The one attachment a replayed message carries: its name and the value
      whose bytes were fetched. */
  datatype FilePart = FilePart(name: string, data: AttachmentValue)

  /** What `webhook.send` is given for one stored message. */
  datatype Payload = Payload(
    content: Option<string>,
    username: string,
    avatarUrl: string,
    embeds: seq<Embed>,
    file: Option<FilePart>)

  /** The options of `guild.channels.create`; None for a field left unset.
      The rate limit has two keys: `rateLimitPerUser`, and the snake-case
      `rate_limit_per_user` that the selfbot branch writes instead. */
  datatype CreateRequest = CreateRequest(
    api: Api,
    name: string,
    kind: Option<Tag>,
    parent: Option<string>,
    topic: Option<string>,
    nsfw: Option<bool>,
    rateLimitPerUser: Option<int>,
    rateLimitSnakeKey: Option<int>,
    bitrate: Option<int>,
    userLimit: Option<int>)

  datatype Action =
    | FetchWebhooks
    | CreateWebhook(api: Api)
    | Send(hook: Hook, payload: Payload)
    /** Pin the message of the given send (its position among the sends). */
    | Pin(send: nat)
    | CreateChannel(request: CreateRequest)
    | SetPermissions(overwrites: seq<OverwriteData>)
    | CreateThread(threadName: string, autoArchiveDuration: int)

  /** The payloads of the sends of a log, in order. */
  function SentPayloads(log: seq<Action>): (ps: seq<Payload>)
    ensures |ps| <= |log|
  {
    if log == [] then []
    else SentPayloads(log[..|log| - 1]) + (if log[|log| - 1].Send? then [log[|log| - 1].payload] else [])
  }

  lemma {:induction false} SentPayloadsAppend(a: seq<Action>, b: seq<Action>)
    ensures SentPayloads(a + b) == SentPayloads(a) + SentPayloads(b)
    decreases |b|
  {
    if b == [] {
      assert a + b == a;
    } else {
      var n := |b| - 1;
      assert (a + b)[..|a + b| - 1] == a + b[..n];
      SentPayloadsAppend(a, b[..n]);
    }
  }
}
