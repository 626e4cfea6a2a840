# Outbound messaging dispatcher — a Dafny model

This project models `MessagingService`, the outbound messaging dispatcher of a
NestJS backend. One platform-agnostic request is fanned out to Slack and
Discord, or deferred through a scheduler registry. The model covers five parts:

- **Client configuration.** A Slack web client exists when a token is given. A
  Slack webhook exists when a webhook URL is given. A Discord client exists
  when a token is given and the login succeeds.
- **Fan-out.** A request with a schedule goes to the scheduler and makes no
  call. Otherwise each platform that is both requested and configured is tried
  on its own. A failure is recorded as `{error: message}` under that
  platform's key.
- **Scheduling.** A job is named `message-<now>`. It holds a copy of the
  request without its schedule. Its timezone defaults to `UTC`. Cancelling
  stops the job and unregisters it, and returns whether the name existed.
- **The Slack payload.** The web client is preferred over the webhook. The
  payload's fields are copied only when the request sets them.
- **Discord routing.** The message goes to a thread directly, to a thread
  found in a channel's thread cache, or to a channel.

Layout:

- `wrappers.dfy`: Option and Result.
- `messages.dfy`: the request types.
- `platforms.dfy`: credentials and client handles.
- `slack.dfy`, `discord.dfy`: the two adapters.
- `jobnames.dfy`: job names, with a decimal round trip.
- `dispatcher.dfy`: the fan-out function. It also holds the `CronJob` and
  `MessagingService` classes, whose methods change the handle fields and the
  registry in place.
- `properties.dfy`: lemmas and client methods that relate several calls.

These are parameters of the model:

- The Slack network: a function from the call to a response or an error
  message.
- The Discord channel directory (`map<string, Channel>`) and the Discord send.
- The outcome of the Discord login.
- The clock (`now`, in epoch milliseconds).
- The timer's reported next fire time.

## Model

| member | source | states |
|---|---|---|
| Messages.WithoutSchedule | src/service.ts:160-162 | the job's copy of the request has no schedule, and its Slack and Discord parts are those of the original |
| Messages.WithoutScheduleIdentity | src/service.ts:160-162 | removing the schedule changes a request exactly when it has one; removing it is idempotent |
| SlackAdapter.PostArgs | src/service.ts:229-254 | `chat.postMessage` gets the request's channel; text, or "" when absent; blocks as given; `thread_ts` exactly when the thread reference is a non-empty string, and then equal to it; each display flag present exactly when the request sets it, and then equal to it |
| SlackAdapter.SlackCallFor | src/service.ts:228-266 | the web client is used whenever it exists, even beside a webhook; with a webhook only, text, blocks and channel are passed through unchanged; with neither, the error "No Slack client initialized" |
| SlackAdapter.AbsentFlagIsNotFalse | src/service.ts:244-254 | for each display flag, leaving it unset and setting it to false give different payloads |
| SlackAdapter.TextDefaultOnlyForWebClient | src/service.ts:229-263 | a request without text gets "" through the web client, but no text through the webhook |
| DiscordAdapter.RouteAsWritten | src/service.ts:279-306 | the routing as written. The id fetched is the thread id when it is non-empty, otherwise the channel id. Outcomes: "Channel or thread not found: <channelId>" when the fetch returns nothing; a thread id alone goes to the fetched object; with both ids, the thread is looked up in the fetched object's cache, or "Thread not found: <threadId>"; a channel id alone goes to the channel |
| DiscordAdapter.AsWrittenThreadInChannelNeedsSelfListing | src/service.ts:296-301 | as written, a request with both ids is delivered only if the fetched thread lists itself in its own thread cache |
| DiscordAdapter.AsWrittenThreadInChannelFails | src/service.ts:279-301 | as written, a request with both ids always fails when the fetched thread's cache is empty: with "Thread not found: <threadId>" when the thread is in the directory, and with "Channel or thread not found" otherwise |
| DiscordAdapter.ThreadInChannelCounterexample | src/service.ts:279-302 | for thread T cached in channel C, the as-written routing fails with "Thread not found: T", while the corrected routing reaches T through C |
| DiscordAdapter.ResolveRoute | src/service.ts:279-306 | the corrected routing: the same three routes and the same errors, but a request with both ids fetches the channel id and looks its thread up in that channel's cache; every route ends at the thread id when it is non-empty, otherwise at the channel id |
| DiscordAdapter.RoutingsAgreeOutsideThreadInChannel | src/service.ts:293-306 | the corrected and as-written routings agree on every request that lacks a thread id or a channel id |
| JobNames.Decimal | src/service.ts:165 | the timestamp in a job name is a non-empty string of decimal digits with no leading zero |
| JobNames.DecimalRoundTrip | src/service.ts:165 | parsing the decimal numeral of n gives back n |
| JobNames.JobName | src/service.ts:165 | every job name starts with "message-" |
| JobNames.JobNameRoundTrip | src/service.ts:165 | the creation time can be read back exactly from a job name |
| JobNames.JobNameInjective | src/service.ts:165 | jobs created at different clock readings get different names |
| Dispatcher.FanOut | src/service.ts:117-139 | the result has a `slack` key exactly when Slack is requested and a web client or webhook exists; it has a `discord` key exactly when Discord is requested and the client exists; each entry is that platform's own outcome |
| Dispatcher.ScheduleOutcome | src/service.ts:149-198 | "Schedule options are required" without a schedule; an error when `message-<now>` is already registered; otherwise `scheduled = true`, the timer's next invocation, and job details with that name, `scheduled = true` and the timezone, which is the given one or "UTC" when none is given |
| Dispatcher.CronJob.constructor | src/service.ts:168-182 | a new job holds the request, time and timezone it is given, and is not yet armed |
| Dispatcher.CronJob.Start | src/service.ts:188 | starting arms the job |
| Dispatcher.CronJob.Stop | src/service.ts:210 | stopping disarms the job |
| Dispatcher.MessagingService.constructor | src/service.ts:33-49 | a new service has no client handles and an empty registry |
| Dispatcher.MessagingService.InitializeClients | src/service.ts:66-101 | a Slack client exists for a non-empty token; a webhook for a non-empty URL; a Discord client for a non-empty token whose login succeeds; a failed login leaves the Discord handle absent; a platform without credentials is left as it was |
| Dispatcher.MessagingService.SendSlackMessage | src/service.ts:225-267 | the arguments built field by field equal PostArgs, and the call made is SlackCallFor's; an error raised before any call is returned as is, otherwise the outcome is the network's answer to the call |
| Dispatcher.MessagingService.SendDiscordMessage | src/service.ts:274-307 | without a client it fails with "Discord client not initialized" and makes no call; otherwise it sends along the resolved route (the corrected routing, see Left out); the body is always the request's content, embeds and components; an error raised before any call is returned as is, otherwise the outcome is the network's answer to a send on the route's target |
| Dispatcher.MessagingService.ScheduleMessage | src/service.ts:149-199 | returns ScheduleOutcome. On success the registry gains exactly the new name. That name is bound to a fresh, armed job holding the request without its schedule, the schedule's time and the timezone, and every other entry is unchanged. On failure the registry is unchanged. The invariant (no registered job carries a schedule) is kept |
| Dispatcher.MessagingService.CancelScheduledMessage | src/service.ts:207-218 | returns true exactly when the name is registered; then the job is stopped and only that name is removed; otherwise the registry is unchanged; no other job's state changes; it never fails |
| Dispatcher.MessagingService.SendMessage | src/service.ts:109-140 | with a schedule: the result is exactly the scheduling outcome (its acknowledgement or its error), no platform call is made, and the registry changes as ScheduleMessage says; without one: the registry is unchanged, the result is FanOut, and the calls made are Slack's then Discord's |
| Dispatcher.MessagingService.FireJob | src/service.ts:170-178 | a firing job sends its stored request, which has no schedule; the registry is unchanged, so firing never schedules again |
| DispatcherProperties.SlackEntryIgnoresDiscord | src/service.ts:117-137 | the Slack entry is the same whatever the Discord directory and network do |
| DispatcherProperties.DiscordEntryIgnoresSlack | src/service.ts:117-137 | the Discord entry is the same whatever the Slack network does |
| DispatcherProperties.SlackFailureIsIsolated | src/service.ts:119-136 | Slack fails with m and Discord succeeds with x: the result is exactly `{slack: {error: m}, discord: x}`, so a thrown send is kept as data under its own key |
| DispatcherProperties.DiscordFailureIsIsolated | src/service.ts:119-136 | Discord fails with m and Slack succeeds with x: the result is exactly `{slack: x, discord: {error: m}}` |
| DispatcherProperties.NothingConfiguredYieldsNothing | src/service.ts:110-139 | a request none of whose platforms is configured yields an empty result and makes no call |
| DispatcherProperties.SlackOnlyScenario | src/service.spec.ts:101-120 | a Slack-only request with only a token yields exactly the `slack` key; the one call is `chat.postMessage` with the requested channel and text |
| DispatcherProperties.ScheduleAfterEarlierJobsSucceeds | src/service.ts:165-185 | if every registered name holds an earlier creation time, scheduling now cannot collide and succeeds |
| DispatcherProperties.ScheduledScenario | src/service.spec.ts:122-138 | a scheduled request without a timezone is acknowledged with `scheduled = true`, runs in UTC, and its job name reads back as the clock reading |
| DispatcherProperties.CancelTwice | src/service.spec.ts:141-165 | the first cancel reports whether the name was registered; the second cancel of the same name returns false |
| DispatcherProperties.ScheduleTwice | src/service.ts:165-185 | on a fresh service, two requests scheduled at different clock readings both succeed under their own `message-<now>` names, which differ, and the registry then holds exactly those two names |

The dispatcher uses `DiscordAdapter.ResolveRoute`, the corrected routing (see
Findings). Its `RouteAsWritten` twin models the code as it stands.

Two behaviours of the code worth noting:

- A job that has fired stays in the registry. The code never deletes it, so
  `FireJob` leaves the registry unchanged.
- The job name embeds only the clock reading. Two schedules in the same
  millisecond collide, and the second one fails.

## Left out

- DiscordAdapter.DiscordCallFor, Dispatcher.MessagingService.SendDiscordMessage:
  these use the corrected routing `ResolveRoute`, and so do FanOut, SendMessage
  and FireJob through them. For a request with both a thread id and a channel
  id they fetch the channel id and deliver to the thread found in that
  channel's cache. The code fetches the thread id there and fails. That case is
  captured only by `RouteAsWritten` and its lemmas, not by the dispatcher.
- The registry is the process-wide scheduler registry injected into the
  service, which may already hold jobs. The model's constructor starts with an
  empty registry, and `ScheduleTwice` relies on that fresh start.
- Network transports (`chat.postMessage`, webhook `send`, Discord `fetch` and
  `send`) are parameters of the model. Their responses are opaque strings.
- Discord `fetch` of an unknown id is modelled as the id missing from the
  directory. In discord.js such a fetch can throw an API error instead; either
  way the send fails, but the error message differs.
- Channels and threads share the type `Channel`, and nothing in the type
  keeps a thread's cache empty. That a thread's cache is empty is an
  assumption about the directory argument. `AsWrittenThreadInChannelFails`
  shows that under this assumption the as-written route for a request with
  both ids always fails. For a directory that breaks the assumption,
  `RouteAsWritten` can succeed. In discord.js a thread has no thread cache at
  all, so the code fails there with a type error rather than
  "Thread not found".
- `{...options}` makes a shallow copy: the job's request shares its `slack`
  and `discord` objects with the caller's request. A caller who changes the
  request after scheduling changes what the job sends. The model copies
  values, so this aliasing is not captured.
- Timer semantics are left out: when a job fires, `nextDate()` and timezone
  arithmetic. `nextInvocation` is a parameter. `FireJob` models only what the
  fire callback does.
- `Date.now()` is the parameter `now`.
- The scheduler registry collaborator (`@nestjs/schedule`) is not part of this
  model. Its refusal of a duplicate name is modelled as a failure with its
  conflict message, leaving the registry unchanged. A missing name in
  `getCronJob` makes cancel return false.
- Cancel also returns false when `stop()` or `deleteCronJob` throws. Neither
  fails in the model, so a registered name always cancels.
- An invalid date passed to the `CronJob` constructor is not modelled: the
  schedule time is a `nat`.
- Concurrency is left out: async/await, and the fire callback's `try` around
  an un-awaited promise. `FireJob` returns its result; the source discards it,
  and an error raised when the job fires is only logged.
- Logging, the `debug` flag and the "no messaging clients" warning have no
  effect on behaviour.
- An options object that lists a display flag with the value `undefined` is
  not modelled. `hasOwnProperty` would copy that `undefined`. `Option<bool>`
  cannot express a property that is present but undefined.
- `platforms` is taken as always present, as the module options type
  requires. The code's `platforms?.` guard for a missing value is not
  modelled.
- Dispatcher.MessagingService.InitializeClients: the login outcome is one
  boolean for the given token. The login's own errors are not modelled.
- The CRUD services and their controllers, database access, configuration
  loading, middleware, health checks, API documentation and module wiring are
  outside the dispatcher and not modelled.

## Findings

| source | as written | input that shows it | evidently intended | confidence | as-written member | corrected member |
|---|---|---|---|---|---|---|
| src/service.ts:279-302 | with both `threadId` and `channelId` set, the code fetches `threadId` and looks `threadId` up in the fetched thread's own thread cache | `{channelId: "C", threadId: "T"}` where thread T is in channel C's cache: fails with "Thread not found: T" in the model, and with a TypeError in discord.js, where a thread has no `threads` manager | fetch the parent channel C and send to thread T from its cache (the comment at line 297 says "get the thread from the channel") | medium; not executed | DiscordAdapter.RouteAsWritten, DiscordAdapter.ThreadInChannelCounterexample | DiscordAdapter.ResolveRoute |
