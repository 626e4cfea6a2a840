/** The outbound messaging dispatcher (src/service.ts, MessagingService):
    which clients exist, the fan-out of one request to every configured
    platform, and the registry of scheduled deliveries. */
module Dispatcher {
  import opened Wrappers
  import opened Messages
  import opened Platforms
  import SlackAdapter
  import DiscordAdapter
  import JobNames

  datatype Platform = Slack | Discord

  /** One platform's entry in a dispatch result: the platform's response, or
      `{error: message}` for a send that threw. */
  datatype Entry = Response(response: string) | ErrorEntry(error: string)

  datatype JobDetails = JobDetails(name: string, scheduled: bool, timezone: string)

  /** The acknowledgement of a scheduled request. `nextInvocation` is what
      the job's timer reports as its next fire time. */
  datatype ScheduleAck = ScheduleAck(scheduled: bool, nextInvocation: nat, jobDetails: JobDetails)

  /** What sendMessage returns: per-platform results, or a scheduling
      acknowledgement. */
  datatype Dispatch = Delivered(results: map<Platform, Entry>) | Acknowledged(ack: ScheduleAck)

  /** A call that leaves the process for a platform. */
  datatype Outbound = SlackOut(slackCall: SlackAdapter.SlackCall) | DiscordOut(discordCall: DiscordAdapter.DiscordCall)

  const DefaultTimezone := "UTC"
  const MissingScheduleError := "Schedule options are required"

  /** The scheduler registry's refusal of a name that is already taken. */
  function DuplicateJobError(name: string): string {
    "Cron Job with the given name (" + name + ") already exists. Ignored."
  }

  /** A caught send failure is kept as data under the platform's key. */
  function ToEntry(r: Result<string, string>): (e: Entry)
    ensures r.Success? <==> e.Response?
    ensures r.Success? ==> e.response == r.value
    ensures r.Failure? ==> e.error == r.error
  {
    match r
    case Success(v) => Response(v)
    case Failure(m) => ErrorEntry(m)
  }

  /** Slack is attempted for a request with a Slack part when a web client or
      a webhook exists. */
  predicate SlackAttempted(options: MessageOptions, client: Option<SlackClient>, webhook: Option<SlackWebhook>) {
    options.slack.Some? && (client.Some? || webhook.Some?)
  }

  /** Discord is attempted for a request with a Discord part when the Discord
      client exists. */
  predicate DiscordAttempted(options: MessageOptions, discord: Option<DiscordClient>) {
    options.discord.Some? && discord.Some?
  }

  function SlackEntry(options: SlackMessageOptions, client: Option<SlackClient>, webhook: Option<SlackWebhook>,
                      transport: SlackAdapter.SlackTransport): Entry
  {
    ToEntry(SlackAdapter.Deliver(SlackAdapter.SlackCallFor(options, client.Some?, webhook.Some?), transport))
  }

  function DiscordEntry(options: DiscordMessageOptions, discord: Option<DiscordClient>, api: DiscordAdapter.DiscordApi): Entry
  {
    ToEntry(DiscordAdapter.Deliver(DiscordAdapter.DiscordCallFor(options, discord.Some?, api.channels), api))
  }

  /** The per-platform results of an immediate send: a key exactly for each
      platform that is both requested and configured, and under it that
      platform's own outcome, whatever happens on the other platform. */
  function FanOut(options: MessageOptions, client: Option<SlackClient>, webhook: Option<SlackWebhook>,
                  discord: Option<DiscordClient>, transport: SlackAdapter.SlackTransport,
                  api: DiscordAdapter.DiscordApi): (r: map<Platform, Entry>)
    ensures Slack in r <==> SlackAttempted(options, client, webhook)
    ensures Discord in r <==> DiscordAttempted(options, discord)
    ensures Slack in r ==> r[Slack] == SlackEntry(options.slack.value, client, webhook, transport)
    ensures Discord in r ==> r[Discord] == DiscordEntry(options.discord.value, discord, api)
  {
    var slack := if SlackAttempted(options, client, webhook)
                 then map[Slack := SlackEntry(options.slack.value, client, webhook, transport)]
                 else map[];
    if DiscordAttempted(options, discord)
    then slack[Discord := DiscordEntry(options.discord.value, discord, api)]
    else slack
  }

  /** The calls an immediate send makes, in order: Slack's, then Discord's;
      a platform whose adapter raised before calling contributes none. */
  function OutboundCalls(options: MessageOptions, client: Option<SlackClient>, webhook: Option<SlackWebhook>,
                         discord: Option<DiscordClient>, channels: map<string, DiscordAdapter.Channel>): seq<Outbound>
  {
    var slack := if SlackAttempted(options, client, webhook)
                 then match SlackAdapter.SlackCallFor(options.slack.value, client.Some?, webhook.Some?)
                      case Success(c) => [SlackOut(c)]
                      case Failure(_) => []
                 else [];
    var disc := if DiscordAttempted(options, discord)
                then match DiscordAdapter.DiscordCallFor(options.discord.value, discord.Some?, channels)
                     case Success(c) => [DiscordOut(c)]
                     case Failure(_) => []
                else [];
    slack + disc
  }

  /** The timezone of a schedule, "UTC" when none is given. */
  function TimezoneOf(schedule: ScheduleOptions): (tz: string)
    ensures schedule.timezone.Some? ==> tz == schedule.timezone.value
    ensures schedule.timezone.None? ==> tz == DefaultTimezone
  {
    schedule.timezone.GetOr(DefaultTimezone)
  }

  /** What scheduleMessage returns at time `now`, given the names already in
      the registry: an error without a schedule or for a taken name, otherwise
      the acknowledgement naming the job `message-<now>`. */
  function ScheduleOutcome(options: MessageOptions, now: nat, nextInvocation: nat, names: set<string>): (r: Result<ScheduleAck, string>)
    ensures options.schedule.None? ==> r == Failure(MissingScheduleError)
    ensures options.schedule.Some? && JobNames.JobName(now) in names ==> r == Failure(DuplicateJobError(JobNames.JobName(now)))
    ensures options.schedule.Some? && JobNames.JobName(now) !in names ==>
              && r.Success? && r.value.scheduled && r.value.nextInvocation == nextInvocation
              && r.value.jobDetails == JobDetails(JobNames.JobName(now), true, TimezoneOf(options.schedule.value))
  {
    if options.schedule.None? then Failure(MissingScheduleError)
    else
      var name := JobNames.JobName(now);
      if name in names then Failure(DuplicateJobError(name))
      else Success(ScheduleAck(true, nextInvocation, JobDetails(name, true, TimezoneOf(options.schedule.value))))
  }

  /** sendMessage's view of a scheduling outcome. */
  function Acknowledge(s: Result<ScheduleAck, string>): (r: Result<Dispatch, string>)
    ensures s.Success? <==> r.Success?
    ensures s.Success? ==> r.value == Acknowledged(s.value)
    ensures s.Failure? ==> r.error == s.error
  {
    match s
    case Success(ack) => Success(Acknowledged(ack))
    case Failure(e) => Failure(e)
  }

  /** A one-shot timer job holding the request it will send. */
  class CronJob {
    const request: MessageOptions
    const time: nat
    const timezone: string
    var running: bool

    constructor (request: MessageOptions, time: nat, timezone: string)
      ensures this.request == request && this.time == time && this.timezone == timezone
      ensures !running
    {
      this.request := request;
      this.time := time;
      this.timezone := timezone;
      running := false;
    }

    /** Arms the timer. */
    method Start()
      modifies this
      ensures running
    {
      running := true;
    }

    /** Disarms the timer. */
    method Stop()
      modifies this
      ensures !running
    {
      running := false;
    }
  }

  /** `after` is `before` with one new job registered under `message-<now>`,
      running, holding the request without its schedule. */
  ghost predicate Registered(before: map<string, CronJob>, after: map<string, CronJob>, options: MessageOptions, now: nat)
    reads after.Values
  {
    var name := JobNames.JobName(now);
    && options.schedule.Some?
    && name !in before && name in after
    && after == before[name := after[name]]
    && after[name] !in before.Values
    && after[name].request == WithoutSchedule(options)
    && after[name].time == options.schedule.value.time
    && after[name].timezone == TimezoneOf(options.schedule.value)
    && after[name].running
  }

  class MessagingService {
    var slackClient: Option<SlackClient>
    var slackWebhook: Option<SlackWebhook>
    var discordClient: Option<DiscordClient>
    /** The scheduler registry: job name to job. */
    var registry: map<string, CronJob>

    /** No registered job carries a schedule, so firing one never schedules
        again; distinct names hold distinct jobs. */
    ghost predicate Valid()
      reads this
    {
      && (forall name :: name in registry ==> registry[name].request.schedule.None?)
      && (forall a, b :: a in registry && b in registry && a != b ==> registry[a] != registry[b])
    }

    constructor ()
      ensures Valid()
      ensures slackClient.None? && slackWebhook.None? && discordClient.None?
      ensures registry == map[]
    {
      slackClient, slackWebhook, discordClient := None, None, None;
      registry := map[];
    }

    /** Creates a client for every credential given. A token or URL counts
        only when non-empty; a Discord client whose login fails is dropped
        again. Handles without credentials are left as they were. */
    method InitializeClients(platforms: PlatformConfigs, discordLoginSucceeds: bool)
      modifies this`slackClient, this`slackWebhook, this`discordClient
      ensures slackClient == if platforms.slack.Some? && Truthy(platforms.slack.value.token)
                             then Some(SlackClient(platforms.slack.value.token.value)) else old(slackClient)
      ensures slackWebhook == if platforms.slack.Some? && Truthy(platforms.slack.value.webhookUrl)
                              then Some(SlackWebhook(platforms.slack.value.webhookUrl.value)) else old(slackWebhook)
      ensures discordClient == if platforms.discord.Some? && Truthy(platforms.discord.value.token)
                               then (if discordLoginSucceeds then Some(DiscordClient(platforms.discord.value.token.value)) else None)
                               else old(discordClient)
    {
      if platforms.slack.Some? {
        var slack := platforms.slack.value;
        if Truthy(slack.token) {
          slackClient := Some(SlackClient(slack.token.value));
        }
        if Truthy(slack.webhookUrl) {
          slackWebhook := Some(SlackWebhook(slack.webhookUrl.value));
        }
      }
      if platforms.discord.Some? && Truthy(platforms.discord.value.token) {
        discordClient := Some(DiscordClient(platforms.discord.value.token.value));
        if !discordLoginSucceeds {
          discordClient := None;
        }
      }
    }

    /** Sends a Slack sub-request, building the `chat.postMessage` arguments
        field by field; returns the call made (or the error raised before
        any call) and the outcome. */
    method SendSlackMessage(options: SlackMessageOptions, transport: SlackAdapter.SlackTransport)
      returns (call: Result<SlackAdapter.SlackCall, string>, r: Result<string, string>)
      ensures call == SlackAdapter.SlackCallFor(options, slackClient.Some?, slackWebhook.Some?)
      ensures r == SlackAdapter.Deliver(call, transport)
      ensures call.Success? ==> r == transport(call.value)
      ensures call.Failure? ==> r == Failure(call.error)
    {
      if slackClient.Some? {
        var params := SlackAdapter.ChatPostArgs(options.channel, OrElse(options.text, ""), None, None, None, None, None);
        if options.blocks.Some? {
          params := params.(blocks := options.blocks);
        }
        if Truthy(options.threadTs) {
          params := params.(threadTs := options.threadTs);
        }
        if options.unfurlLinks.Some? {
          params := params.(unfurlLinks := options.unfurlLinks);
        }
        if options.unfurlMedia.Some? {
          params := params.(unfurlMedia := options.unfurlMedia);
        }
        if options.mrkdwn.Some? {
          params := params.(mrkdwn := options.mrkdwn);
        }
        call := Success(SlackAdapter.PostMessage(params));
        r := transport(SlackAdapter.PostMessage(params));
      } else if slackWebhook.Some? {
        var payload := SlackAdapter.WebhookPayload(options.text, options.blocks, options.channel);
        call := Success(SlackAdapter.WebhookSend(payload));
        r := transport(SlackAdapter.WebhookSend(payload));
      } else {
        call := Failure(SlackAdapter.NoClientError);
        r := Failure(SlackAdapter.NoClientError);
      }
    }

    /** Sends a Discord sub-request along its resolved route; returns the
        call made (or the error raised before any call) and the outcome. */
    method SendDiscordMessage(options: DiscordMessageOptions, api: DiscordAdapter.DiscordApi)
      returns (call: Result<DiscordAdapter.DiscordCall, string>, r: Result<string, string>)
      ensures call == DiscordAdapter.DiscordCallFor(options, discordClient.Some?, api.channels)
      ensures r == DiscordAdapter.Deliver(call, api)
      ensures call.Success? ==> call.value.body == DiscordAdapter.DiscordBody(options.content, options.embeds, options.components)
      ensures call.Success? ==> r == api.send(call.value.route.Target(), call.value.body)
      ensures call.Failure? ==> r == Failure(call.error)
    {
      if discordClient.None? {
        call := Failure(DiscordAdapter.NotInitializedError);
        r := Failure(DiscordAdapter.NotInitializedError);
        return;
      }
      var body := DiscordAdapter.Body(options);
      match DiscordAdapter.ResolveRoute(options, api.channels)
      case Failure(e) =>
        call := Failure(e);
        r := Failure(e);
      case Success(route) =>
        call := Success(DiscordAdapter.DiscordCall(route, body));
        r := api.send(route.Target(), body);
    }

    /** Registers and starts a job that will send the request without its
        schedule; fails, leaving the registry as it was, when the request has
        no schedule or the name `message-<now>` is taken. */
    method ScheduleMessage(options: MessageOptions, now: nat, nextInvocation: nat)
      returns (r: Result<ScheduleAck, string>)
      requires Valid()
      modifies this`registry
      ensures Valid()
      ensures r == ScheduleOutcome(options, now, nextInvocation, old(registry).Keys)
      ensures r.Success? ==> Registered(old(registry), registry, options, now) && fresh(registry[JobNames.JobName(now)])
      ensures r.Failure? ==> registry == old(registry)
    {
      if options.schedule.None? {
        return Failure(MissingScheduleError);
      }
      var timezone := TimezoneOf(options.schedule.value);
      var messageOptions := WithoutSchedule(options);
      var jobName := JobNames.JobName(now);
      var job := new CronJob(messageOptions, options.schedule.value.time, timezone);
      if jobName in registry {
        return Failure(DuplicateJobError(jobName));
      }
      registry := registry[jobName := job];
      job.Start();
      r := Success(ScheduleAck(true, nextInvocation, JobDetails(jobName, true, timezone)));
    }

    /** Stops and unregisters the named job. True exactly when the name was
        registered; no other job is touched. */
    method CancelScheduledMessage(jobName: string) returns (ok: bool)
      requires Valid()
      modifies this`registry, registry.Values
      ensures Valid()
      ensures ok <==> jobName in old(registry)
      ensures ok ==> !old(registry)[jobName].running && registry == old(registry) - {jobName}
      ensures !ok ==> registry == old(registry)
      ensures forall name :: name in registry ==> registry[name].running == old(registry[name].running)
    {
      if jobName !in registry {
        return false;
      }
      var job := registry[jobName];
      job.Stop();
      registry := registry - {jobName};
      ok := true;
    }

    /** Dispatches a request: a scheduled one is handed to ScheduleMessage
        and makes no call; otherwise every requested and configured platform
        is tried on its own and its outcome recorded under its key. */
    method SendMessage(options: MessageOptions, now: nat, nextInvocation: nat,
                       transport: SlackAdapter.SlackTransport, api: DiscordAdapter.DiscordApi)
      returns (r: Result<Dispatch, string>, sent: seq<Outbound>)
      requires Valid()
      modifies this`registry
      ensures Valid()
      ensures options.schedule.Some? ==> sent == []
      ensures options.schedule.Some? ==> r == Acknowledge(ScheduleOutcome(options, now, nextInvocation, old(registry).Keys))
      ensures options.schedule.Some? && r.Success? ==>
                Registered(old(registry), registry, options, now) && fresh(registry[JobNames.JobName(now)])
      ensures options.schedule.None? || r.Failure? ==> registry == old(registry)
      ensures options.schedule.None? ==>
                r == Success(Delivered(FanOut(options, slackClient, slackWebhook, discordClient, transport, api)))
      ensures options.schedule.None? ==>
                sent == OutboundCalls(options, slackClient, slackWebhook, discordClient, api.channels)
    {
      if options.schedule.Some? {
        var s := ScheduleMessage(options, now, nextInvocation);
        r := Acknowledge(s);
        sent := [];
        return;
      }
      var results: map<Platform, Entry> := map[];
      var slackSent: seq<Outbound> := [];
      var discordSent: seq<Outbound> := [];
      if options.slack.Some? && (slackClient.Some? || slackWebhook.Some?) {
        var call, reply := SendSlackMessage(options.slack.value, transport);
        results := results[Slack := ToEntry(reply)];
        if call.Success? {
          slackSent := [SlackOut(call.value)];
        }
      }
      if options.discord.Some? && discordClient.Some? {
        var call, reply := SendDiscordMessage(options.discord.value, api);
        results := results[Discord := ToEntry(reply)];
        if call.Success? {
          discordSent := [DiscordOut(call.value)];
        }
      }
      r := Success(Delivered(results));
      sent := slackSent + discordSent;
    }

    /** What a registered, armed job does when its timer fires: it sends its
        stored request, which has no schedule, so the registry is unchanged. */
    method FireJob(job: CronJob, now: nat, nextInvocation: nat,
                   transport: SlackAdapter.SlackTransport, api: DiscordAdapter.DiscordApi)
      returns (r: Result<Dispatch, string>, sent: seq<Outbound>)
      requires Valid()
      requires job in registry.Values && job.running
      modifies this`registry
      ensures Valid()
      ensures registry == old(registry)
      ensures r == Success(Delivered(FanOut(job.request, slackClient, slackWebhook, discordClient, transport, api)))
      ensures sent == OutboundCalls(job.request, slackClient, slackWebhook, discordClient, api.channels)
    {
      var name :| name in registry && registry[name] == job;
      assert job.request.schedule.None?;
      r, sent := SendMessage(job.request, now, nextInvocation, transport, api);
    }
  }
}
