/** The Discord adapter: which destination a request is routed to and the
    message body sent there (src/service.ts, sendDiscordMessage). */
module DiscordAdapter {
  import opened Wrappers
  import opened Messages

  /** A channel object as `channels.fetch` returns it, reduced to the ids in
      its thread cache. A thread is a channel whose cache is empty. */
  datatype Channel = Channel(threads: set<string>)

  /** The body of every Discord send. */
  datatype DiscordBody = DiscordBody(content: Option<string>, embeds: Option<seq<Embed>>, components: Option<seq<Component>>)

  /** Where a message goes: straight to the fetched object, to a thread found
      in the fetched channel's thread cache, or to the fetched channel. */
  datatype Route =
    | Direct(fetched: string)
    | ThroughThreadCache(parent: string, thread: string)
    | ToChannel(fetched: string)
  {
    /** The id of the object whose `send` is called. */
    function Target(): string {
      match this
      case Direct(id) => id
      case ThroughThreadCache(_, t) => t
      case ToChannel(id) => id
    }
  }

  /** One outbound Discord send. */
  datatype DiscordCall = DiscordCall(route: Route, body: DiscordBody)

  /** The Discord side of the world: the channel directory that `fetch`
      consults, and the network's answer to a send on a target id. */
  datatype DiscordApi = DiscordApi(channels: map<string, Channel>, send: (string, DiscordBody) -> Result<string, string>)

  const NotInitializedError := "Discord client not initialized"

  function NotFoundError(options: DiscordMessageOptions): string {
    "Channel or thread not found: " + options.channelId
  }

  function ThreadNotFoundError(threadId: string): string {
    "Thread not found: " + threadId
  }

  /** The body is the request's content, embeds and components as given. */
  function Body(options: DiscordMessageOptions): (b: DiscordBody)
    ensures b.content == options.content && b.embeds == options.embeds && b.components == options.components
  {
    DiscordBody(options.content, options.embeds, options.components)
  }

  /** The id the code fetches, `threadId || channelId`. */
  function FetchId(options: DiscordMessageOptions): (id: string)
    ensures Truthy(options.threadId) ==> id == options.threadId.value
    ensures !Truthy(options.threadId) ==> id == options.channelId
  {
    OrElse(options.threadId, options.channelId)
  }

  /** Routing as the code is written: the thread id is fetched whenever it is
      set, and with a channel id as well the fetched object's own thread cache
      is searched for that same thread id. */
  function RouteAsWritten(options: DiscordMessageOptions, channels: map<string, Channel>): (r: Result<Route, string>)
    ensures FetchId(options) !in channels ==> r == Failure(NotFoundError(options))
    ensures FetchId(options) in channels && Truthy(options.threadId) && options.channelId == "" ==>
              r == Success(Direct(options.threadId.value))
    ensures FetchId(options) in channels && Truthy(options.threadId) && options.channelId != "" ==>
              r == (if options.threadId.value in channels[options.threadId.value].threads
                    then Success(ThroughThreadCache(options.threadId.value, options.threadId.value))
                    else Failure(ThreadNotFoundError(options.threadId.value)))
    ensures FetchId(options) in channels && !Truthy(options.threadId) ==> r == Success(ToChannel(options.channelId))
  {
    var id := FetchId(options);
    if id !in channels then Failure(NotFoundError(options))
    else if Truthy(options.threadId) && options.channelId == "" then Success(Direct(id))
    else if Truthy(options.threadId) then
      var t := options.threadId.value;
      if t in channels[id].threads then Success(ThroughThreadCache(id, t)) else Failure(ThreadNotFoundError(t))
    else Success(ToChannel(id))
  }

  /** The id fetched once the thread-in-channel case fetches the parent
      channel: the thread id only when no channel id is given. */
  function ParentFetchId(options: DiscordMessageOptions): (id: string)
    ensures Truthy(options.threadId) && options.channelId == "" ==> id == options.threadId.value
    ensures !(Truthy(options.threadId) && options.channelId == "") ==> id == options.channelId
  {
    if Truthy(options.threadId) && options.channelId == "" then options.threadId.value else options.channelId
  }

  /** Routing as intended: a thread id alone is sent to directly; a thread id
      with a channel id is looked up in that channel's thread cache; a
      channel id alone is sent to the channel. */
  function ResolveRoute(options: DiscordMessageOptions, channels: map<string, Channel>): (r: Result<Route, string>)
    ensures ParentFetchId(options) !in channels ==> r == Failure(NotFoundError(options))
    ensures Truthy(options.threadId) && options.channelId == "" && options.threadId.value in channels ==>
              r == Success(Direct(options.threadId.value))
    ensures Truthy(options.threadId) && options.channelId in channels && options.channelId != "" ==>
              r == (if options.threadId.value in channels[options.channelId].threads
                    then Success(ThroughThreadCache(options.channelId, options.threadId.value))
                    else Failure(ThreadNotFoundError(options.threadId.value)))
    ensures !Truthy(options.threadId) && options.channelId in channels ==> r == Success(ToChannel(options.channelId))
    ensures r.Success? ==> r.value.Target() == OrElse(options.threadId, options.channelId)
  {
    var id := ParentFetchId(options);
    if id !in channels then Failure(NotFoundError(options))
    else if Truthy(options.threadId) && options.channelId == "" then Success(Direct(id))
    else if Truthy(options.threadId) then
      var t := options.threadId.value;
      if t in channels[id].threads then Success(ThroughThreadCache(id, t)) else Failure(ThreadNotFoundError(t))
    else Success(ToChannel(id))
  }

  /** The two routings differ only when both a thread id and a channel id are
      given. */
  lemma RoutingsAgreeOutsideThreadInChannel(options: DiscordMessageOptions, channels: map<string, Channel>)
    requires !Truthy(options.threadId) || options.channelId == ""
    ensures ResolveRoute(options, channels) == RouteAsWritten(options, channels)
  {
  }

  /** As written, a thread-in-channel request is delivered only if the
      fetched thread lists itself in its own thread cache. */
  lemma AsWrittenThreadInChannelNeedsSelfListing(options: DiscordMessageOptions, channels: map<string, Channel>)
    requires Truthy(options.threadId) && options.channelId != ""
    requires RouteAsWritten(options, channels).Success?
    ensures options.threadId.value in channels
    ensures options.threadId.value in channels[options.threadId.value].threads
  {
  }

  /** As written, a request with both ids always fails when the fetched
      thread has an empty thread cache, as every thread object does. */
  lemma AsWrittenThreadInChannelFails(options: DiscordMessageOptions, channels: map<string, Channel>)
    requires Truthy(options.threadId) && options.channelId != ""
    requires options.threadId.value in channels ==> channels[options.threadId.value].threads == {}
    ensures RouteAsWritten(options, channels).Failure?
    ensures options.threadId.value in channels ==>
              RouteAsWritten(options, channels) == Failure(ThreadNotFoundError(options.threadId.value))
  {
  }

  /** A concrete request that shows the difference: thread "T" is cached in
      channel "C" and is itself a thread (empty cache). As written the send
      fails with "Thread not found: T"; as intended it reaches "T". */
  lemma ThreadInChannelCounterexample()
    ensures var options := DiscordMessageOptions("C", Some("hi"), None, Some("T"), None);
            var channels := map["C" := Channel({"T"}), "T" := Channel({})];
            && RouteAsWritten(options, channels) == Failure(ThreadNotFoundError("T"))
            && ResolveRoute(options, channels) == Success(ThroughThreadCache("C", "T"))
  {
  }

  /** What sendDiscordMessage sends, or the error it raises first. */
  function DiscordCallFor(options: DiscordMessageOptions, hasClient: bool, channels: map<string, Channel>): (r: Result<DiscordCall, string>)
    ensures !hasClient ==> r == Failure(NotInitializedError)
    ensures hasClient && ResolveRoute(options, channels).Failure? ==> r == Failure(ResolveRoute(options, channels).error)
    ensures hasClient && ResolveRoute(options, channels).Success? ==>
              r == Success(DiscordCall(ResolveRoute(options, channels).value, Body(options)))
  {
    if !hasClient then Failure(NotInitializedError)
    else
      match ResolveRoute(options, channels)
      case Failure(e) => Failure(e)
      case Success(route) => Success(DiscordCall(route, Body(options)))
  }

  /** The outcome of sendDiscordMessage: the adapter's own error, or the
      network's answer to a send of the body on the route's target. */
  function Deliver(call: Result<DiscordCall, string>, api: DiscordApi): (r: Result<string, string>)
    ensures call.Failure? ==> r == Failure(call.error)
    ensures call.Success? ==> r == api.send(call.value.route.Target(), call.value.body)
  {
    match call
    case Failure(e) => Failure(e)
    case Success(c) => api.send(c.route.Target(), c.body)
  }
}
