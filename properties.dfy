/** Properties of the dispatcher that relate several calls or several
    inputs. */
module DispatcherProperties {
  import opened Wrappers
  import opened Messages
  import opened Platforms
  import SlackAdapter
  import DiscordAdapter
  import JobNames
  import opened Dispatcher

  /** The Slack entry of a fan-out does not depend on anything Discord does. */
  lemma SlackEntryIgnoresDiscord(options: MessageOptions, client: Option<SlackClient>, webhook: Option<SlackWebhook>,
                                 discord: Option<DiscordClient>, transport: SlackAdapter.SlackTransport,
                                 api1: DiscordAdapter.DiscordApi, api2: DiscordAdapter.DiscordApi)
    ensures var r1 := FanOut(options, client, webhook, discord, transport, api1);
            var r2 := FanOut(options, client, webhook, discord, transport, api2);
            (Slack in r1 <==> Slack in r2) && (Slack in r1 ==> r1[Slack] == r2[Slack])
  {
  }

  /** The Discord entry of a fan-out does not depend on anything Slack does. */
  lemma DiscordEntryIgnoresSlack(options: MessageOptions, client: Option<SlackClient>, webhook: Option<SlackWebhook>,
                                 discord: Option<DiscordClient>, transport1: SlackAdapter.SlackTransport,
                                 transport2: SlackAdapter.SlackTransport, api: DiscordAdapter.DiscordApi)
    ensures var r1 := FanOut(options, client, webhook, discord, transport1, api);
            var r2 := FanOut(options, client, webhook, discord, transport2, api);
            (Discord in r1 <==> Discord in r2) && (Discord in r1 ==> r1[Discord] == r2[Discord])
  {
  }

  /** A failing Slack send becomes `{error: message}` under `slack` while a
      succeeding Discord send keeps its response under `discord`. */
  lemma SlackFailureIsIsolated(options: MessageOptions, client: Option<SlackClient>, webhook: Option<SlackWebhook>,
                               discord: Option<DiscordClient>, transport: SlackAdapter.SlackTransport,
                               api: DiscordAdapter.DiscordApi, message: string, response: string)
    requires SlackAttempted(options, client, webhook) && DiscordAttempted(options, discord)
    requires SlackAdapter.Deliver(SlackAdapter.SlackCallFor(options.slack.value, client.Some?, webhook.Some?), transport) == Failure(message)
    requires DiscordAdapter.Deliver(DiscordAdapter.DiscordCallFor(options.discord.value, true, api.channels), api) == Success(response)
    ensures FanOut(options, client, webhook, discord, transport, api) == map[Slack := ErrorEntry(message), Discord := Response(response)]
  {
  }

  /** A failing Discord send becomes `{error: message}` under `discord` while
      a succeeding Slack send keeps its response under `slack`. */
  lemma DiscordFailureIsIsolated(options: MessageOptions, client: Option<SlackClient>, webhook: Option<SlackWebhook>,
                                 discord: Option<DiscordClient>, transport: SlackAdapter.SlackTransport,
                                 api: DiscordAdapter.DiscordApi, message: string, response: string)
    requires SlackAttempted(options, client, webhook) && DiscordAttempted(options, discord)
    requires SlackAdapter.Deliver(SlackAdapter.SlackCallFor(options.slack.value, client.Some?, webhook.Some?), transport) == Success(response)
    requires DiscordAdapter.Deliver(DiscordAdapter.DiscordCallFor(options.discord.value, true, api.channels), api) == Failure(message)
    ensures FanOut(options, client, webhook, discord, transport, api) == map[Slack := Response(response), Discord := ErrorEntry(message)]
  {
  }

  /** A request none of whose platforms is configured yields an empty result
      and makes no call. */
  lemma NothingConfiguredYieldsNothing(options: MessageOptions, client: Option<SlackClient>, webhook: Option<SlackWebhook>,
                                       discord: Option<DiscordClient>, transport: SlackAdapter.SlackTransport,
                                       api: DiscordAdapter.DiscordApi)
    requires !SlackAttempted(options, client, webhook) && !DiscordAttempted(options, discord)
    ensures FanOut(options, client, webhook, discord, transport, api) == map[]
    ensures OutboundCalls(options, client, webhook, discord, api.channels) == []
  {
  }

  /** A Slack-only request with only a Slack token configured: the result has
      exactly the `slack` key, and the one call made is `chat.postMessage` to
      the requested channel with the requested text. */
  lemma SlackOnlyScenario(options: MessageOptions, token: string, transport: SlackAdapter.SlackTransport,
                          api: DiscordAdapter.DiscordApi)
    requires options.slack.Some? && options.discord.None? && options.slack.value.text.Some?
    ensures var r := FanOut(options, Some(SlackClient(token)), None, None, transport, api);
            && r.Keys == {Slack}
            && r[Slack] == ToEntry(transport(SlackAdapter.PostMessage(SlackAdapter.PostArgs(options.slack.value))))
    ensures var calls := OutboundCalls(options, Some(SlackClient(token)), None, None, api.channels);
            && |calls| == 1 && calls[0].SlackOut? && calls[0].slackCall.PostMessage?
            && calls[0].slackCall.args.channel == options.slack.value.channel
            && calls[0].slackCall.args.text == options.slack.value.text.value
  {
  }

  /** When every registered name belongs to a job created before `now`,
      scheduling at `now` cannot collide and succeeds. */
  lemma {:induction false} ScheduleAfterEarlierJobsSucceeds(options: MessageOptions, now: nat, nextInvocation: nat, names: set<string>)
    requires options.schedule.Some?
    requires forall name :: name in names ==> JobNames.JobTime(name).Some? && JobNames.JobTime(name).value < now
    ensures ScheduleOutcome(options, now, nextInvocation, names).Success?
  {
    JobNames.JobNameRoundTrip(now);
  }

  /** A scheduled request without a timezone: the job is named after the
      clock reading, which can be read back from the name, and runs in UTC. */
  lemma {:induction false} ScheduledScenario(options: MessageOptions, now: nat, nextInvocation: nat)
    requires options.schedule.Some? && options.schedule.value.timezone.None?
    ensures var r := ScheduleOutcome(options, now, nextInvocation, {});
            && r.Success? && r.value.scheduled && r.value.jobDetails.scheduled
            && r.value.jobDetails.timezone == "UTC"
            && JobNames.JobTime(r.value.jobDetails.name) == Some(now)
  {
    JobNames.JobNameRoundTrip(now);
  }

  /** Cancelling the same name twice: the second attempt returns false. */
  method CancelTwice(service: MessagingService, jobName: string) returns (first: bool, second: bool)
    requires service.Valid()
    modifies service`registry, service.registry.Values
    ensures service.Valid()
    ensures first <==> jobName in old(service.registry)
    ensures !second
    ensures service.registry == old(service.registry) - {jobName}
  {
    first := service.CancelScheduledMessage(jobName);
    second := service.CancelScheduledMessage(jobName);
  }

  /** Two requests scheduled at different clock readings on a fresh service
      both succeed, under different names, and the registry then holds
      exactly those two names. */
  method ScheduleTwice(options1: MessageOptions, options2: MessageOptions, t1: nat, t2: nat, n1: nat, n2: nat)
    returns (service: MessagingService, r1: Result<ScheduleAck, string>, r2: Result<ScheduleAck, string>)
    requires options1.schedule.Some? && options2.schedule.Some? && t1 != t2
    ensures fresh(service) && service.Valid()
    ensures r1.Success? && r2.Success?
    ensures r1.value.jobDetails.name == JobNames.JobName(t1) && r2.value.jobDetails.name == JobNames.JobName(t2)
    ensures r1.value.jobDetails.name != r2.value.jobDetails.name
    ensures service.registry.Keys == {JobNames.JobName(t1), JobNames.JobName(t2)}
  {
    service := new MessagingService();
    r1 := service.ScheduleMessage(options1, t1, n1);
    JobNames.JobNameInjective(t1, t2);
    r2 := service.ScheduleMessage(options2, t2, n2);
  }
}
