/** Per-platform credentials and the client handles built from them. */
module Platforms {
  import opened Wrappers

  /** Slack credentials: a bot token, an incoming-webhook URL, or both. */
  datatype SlackConfig = SlackConfig(token: Option<string>, webhookUrl: Option<string>)

  /** Discord credentials: a bot token. */
  datatype DiscordConfig = DiscordConfig(token: Option<string>)

  /** The credentials of every platform; a platform without any is disabled. */
  datatype PlatformConfigs = PlatformConfigs(slack: Option<SlackConfig>, discord: Option<DiscordConfig>)

  /** A Slack web-API client, created from a token. */
  datatype SlackClient = SlackClient(token: string)

  /** A Slack incoming webhook, created from a URL. */
  datatype SlackWebhook = SlackWebhook(url: string)

  /** A Discord gateway client, created from a token. */
  datatype DiscordClient = DiscordClient(token: string)
}
