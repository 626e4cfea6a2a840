/** The Slack adapter: which Slack client is used and the payload it is
    given (src/service.ts, sendSlackMessage). */
module SlackAdapter {
  import opened Wrappers
  import opened Messages

  /** Arguments of the web client's `chat.postMessage`. Optional fields are
      None when the property is not set on the outgoing object. */
  datatype ChatPostArgs = ChatPostArgs(
    channel: string,
    text: string,
    blocks: Option<seq<Block>>,
    threadTs: Option<string>,
    unfurlLinks: Option<bool>,
    unfurlMedia: Option<bool>,
    mrkdwn: Option<bool>)

  /** The body given to an incoming webhook's `send`. */
  datatype WebhookPayload = WebhookPayload(text: Option<string>, blocks: Option<seq<Block>>, channel: string)

  /** One outbound Slack call. */
  datatype SlackCall = PostMessage(args: ChatPostArgs) | WebhookSend(payload: WebhookPayload)

  /** The Slack network: performs a call and returns the platform's response,
      or fails with the message of the error it raises. */
  type SlackTransport = SlackCall -> Result<string, string>

  const NoClientError := "No Slack client initialized"

  /** The `chat.postMessage` arguments built for a request: text defaults to
      the empty string, `thread_ts` only for a non-empty thread reference, and
      each display flag only when the request sets it. */
  function PostArgs(options: SlackMessageOptions): (p: ChatPostArgs)
    ensures p.channel == options.channel
    ensures options.text.Some? ==> p.text == options.text.value
    ensures options.text.None? ==> p.text == ""
    ensures p.blocks == options.blocks
    ensures p.threadTs.Some? <==> Truthy(options.threadTs)
    ensures p.threadTs.Some? ==> p.threadTs == options.threadTs
    ensures p.unfurlLinks == options.unfurlLinks
    ensures p.unfurlMedia == options.unfurlMedia
    ensures p.mrkdwn == options.mrkdwn
  {
    ChatPostArgs(
      options.channel,
      options.text.GetOr(""),
      options.blocks,
      if Truthy(options.threadTs) then options.threadTs else None,
      options.unfurlLinks,
      options.unfurlMedia,
      options.mrkdwn)
  }

  /** The call sendSlackMessage makes: the web client whenever it exists,
      even beside a webhook; the webhook otherwise, with text, blocks and
      channel passed through untouched; neither is an error. */
  function SlackCallFor(options: SlackMessageOptions, hasClient: bool, hasWebhook: bool): (r: Result<SlackCall, string>)
    ensures hasClient ==> r.Success? && r.value.PostMessage? && r.value.args == PostArgs(options)
    ensures !hasClient && hasWebhook ==> r.Success? && r.value.WebhookSend?
    ensures !hasClient && hasWebhook ==> r.value.payload.text == options.text
    ensures !hasClient && hasWebhook ==> r.value.payload.blocks == options.blocks
    ensures !hasClient && hasWebhook ==> r.value.payload.channel == options.channel
    ensures !hasClient && !hasWebhook ==> r == Failure(NoClientError)
  {
    if hasClient then Success(PostMessage(PostArgs(options)))
    else if hasWebhook then Success(WebhookSend(WebhookPayload(options.text, options.blocks, options.channel)))
    else Failure(NoClientError)
  }

  /** The outcome of sendSlackMessage: the adapter's own error, or whatever
      the network answers to the call. */
  function Deliver(call: Result<SlackCall, string>, transport: SlackTransport): (r: Result<string, string>)
    ensures call.Failure? ==> r == Failure(call.error)
    ensures call.Success? ==> r == transport(call.value)
  {
    match call
    case Failure(e) => Failure(e)
    case Success(c) => transport(c)
  }

  /** An absent display flag and a flag explicitly set to false give
      different payloads: the default is left to Slack. */
  lemma AbsentFlagIsNotFalse(options: SlackMessageOptions)
    ensures PostArgs(options.(unfurlLinks := None)) != PostArgs(options.(unfurlLinks := Some(false)))
    ensures PostArgs(options.(unfurlMedia := None)) != PostArgs(options.(unfurlMedia := Some(false)))
    ensures PostArgs(options.(mrkdwn := None)) != PostArgs(options.(mrkdwn := Some(false)))
  {
  }

  /** Only the web-client path defaults a missing text: through the webhook
      a request without text goes out without text. */
  lemma TextDefaultOnlyForWebClient(options: SlackMessageOptions)
    requires options.text.None?
    ensures SlackCallFor(options, true, true).value.args.text == ""
    ensures SlackCallFor(options, false, true).value.payload.text.None?
  {
  }
}
