/** The request types of a message dispatch: one optional sub-request per
    platform and an optional schedule. */
module Messages {
  import opened Wrappers

  /** A Slack layout block; its structure is opaque to the dispatcher. */
  type Block = string
  /** A Discord rich embed; opaque to the dispatcher. */
  type Embed = string
  /** A Discord interactive component; opaque to the dispatcher. */
  type Component = string

  /** A Slack sub-request. The three display flags keep the difference
      between "not given" (None) and "given as false" (Some(false)). */
  datatype SlackMessageOptions = SlackMessageOptions(
    channel: string,
    text: Option<string>,
    blocks: Option<seq<Block>>,
    threadTs: Option<string>,
    unfurlLinks: Option<bool>,
    unfurlMedia: Option<bool>,
    mrkdwn: Option<bool>)

  /** A Discord sub-request. */
  datatype DiscordMessageOptions = DiscordMessageOptions(
    channelId: string,
    content: Option<string>,
    embeds: Option<seq<Embed>>,
    threadId: Option<string>,
    components: Option<seq<Component>>)

  /** When to deliver: an absolute time in epoch milliseconds and an
      optional timezone name. */
  datatype ScheduleOptions = ScheduleOptions(time: nat, timezone: Option<string>)

  /** A platform-agnostic message request. */
  datatype MessageOptions = MessageOptions(
    slack: Option<SlackMessageOptions>,
    discord: Option<DiscordMessageOptions>,
    schedule: Option<ScheduleOptions>)

  /** JavaScript truthiness of an optional string: present and not empty. */
  predicate Truthy(s: Option<string>) {
    s.Some? && s.value != ""
  }

  /** JavaScript `s || fallback` on an optional string. */
  function OrElse(s: Option<string>, fallback: string): (r: string)
    ensures Truthy(s) ==> r == s.value
    ensures !Truthy(s) ==> r == fallback
  {
    if Truthy(s) then s.value else fallback
  }

  /** A shallow copy of the request with its `schedule` property deleted. */
  function WithoutSchedule(options: MessageOptions): (r: MessageOptions)
    ensures r.schedule.None?
    ensures r.slack == options.slack && r.discord == options.discord
  {
    options.(schedule := None)
  }

  /** Removing the schedule changes a request exactly when it had one, and
      removing it twice is the same as removing it once. */
  lemma WithoutScheduleIdentity(options: MessageOptions)
    ensures WithoutSchedule(options) == options <==> options.schedule.None?
    ensures WithoutSchedule(WithoutSchedule(options)) == WithoutSchedule(options)
  {
  }
}
