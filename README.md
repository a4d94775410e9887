# gfc-discord-bot in Dafny

A model of the Discord bot that lets holders of an admin role start, stop,
reboot and query one Amazon Lightsail instance and probe the church website
through the `/gfcbot` slash command, together with the start-up check of its
environment variables.

- `wrappers.dfy` — `Option`, `Result`, `Outcome`, and `Thrown`: the value a
  rejected promise carries. It is either an `Error` with its `message` or
  anything else. `ErrorMessage` picks the text both catch blocks derive from it.
- `env.dfy` (module `Env`) — `validateEnv` as a pure function from the
  environment (`map<string, string>`) to `Result<Config, string>`. A variable
  counts as missing when it is absent or empty.
- `lightsail.dfy` (module `Lightsail`) — class `LightsailClient`, the instance
  client, as an abstract collaborator. It logs each command it sends
  (`sent`), and the provider's answer is an input. Its one rule of its own
  is how a get-instance response becomes a state label (`StateFromResponse`).
- `bot.dfy` (module `BotService`) has two layers:
  - The specification layer: the command schema (`GetCommands`), the routing
    table (`Route`), one dispatch as the calls and replies it produces
    (`Dispatch`, `Perform`, `WebsiteReply`), and `rest.put` on the guild route
    (`PutCommands`).
  - Class `Bot`, which does the same step by step. It owns a `LightsailClient`
    whose `sent` log records the provider commands. It also keeps a log of
    website probes (`fetches`), a log of replies (`replies`), the command set
    the platform holds per guild (`platform`), and its lifecycle: listener
    installed, session, SIGINT handler installed, exit code. Each method is
    proved to append exactly the effects `Dispatch` describes, or to update
    `platform` exactly as `PutCommands` does.
  - The lifecycle is enforced: `Start` runs once, before the process exits;
    the listener handles events only once `Start` has installed it, while a
    session is open and before the process has exited. `Shutdown` can run only
    after a `Start` whose login and registration both succeeded, since only
    then is the SIGINT handler installed (src/services/bot.ts:210-215).

Each collaborator's answer during one dispatch is an input, the `World`
value: the outcome of start, stop or reboot, the get-instance response, or
what `fetch` settled to. Login, registration and removal outcomes are
parameters of `Start` and `Shutdown`. A reply is assumed never to fail. If one
did, the catch block at src/services/bot.ts:150-155 would send a second reply.

Points where the code's behaviour may be unexpected, all modelled as the code has them:

- An authorized command whose (group, subcommand) pair is not routed gets no
  reply at all. The code has no fallback reply.
- `start` installs the interaction listener before it logs in and registers
  the schema (src/services/bot.ts:205-211). The listener therefore stays
  installed after a failed login or a failed registration, with no SIGINT
  handler behind it.
- A failed website probe is answered by the probe itself
  ("❌ Failed to reach the website: …"), never as "❌ Command failed: …".
- A thrown value that is not an `Error` is reported as "Unknown error".
- `getInstanceState` raises its own error, "Failed to get instance state",
  when the response has no state name. An error thrown by `send` passes
  through unchanged.
- The instance name and website URL used by the dispatcher are constants in
  src/services/bot.ts:100 and :162. They are not the `instanceName` and
  `websiteUrl` that `validateEnv` computes, so each module has its own constants.

## Model

| member | source | states |
|---|---|---|
| Env.MissingFrom | src/env.ts:3-11 | a key is in the result iff it is among the required keys and is absent or empty; the result is no longer than the key list |
| Env.MissingEnvVars | src/env.ts:9-11 | a key is missing iff it is one of the three required keys and is absent or empty; at most three keys are missing |
| Env.Join | src/env.ts:15 | joining no parts gives the empty text and joining one part gives that part |
| Env.MissingInDeclaredOrder | src/env.ts:3-11 | the missing list is exactly the unset keys among DISCORD_BOT_TOKEN, DISCORD_ADMIN_ROLE, DISCORD_GUILD_ID, in that order |
| Env.ValidateEnv | src/env.ts:2-28 | fails iff some required key is unset, with message "Missing required environment variables: " + the missing keys joined by ", "; on success the three required values are the set environment values and each optional field is its value or its default |
| Env.FailsIffSomethingMissing | src/env.ts:13-17 | validation fails exactly when the missing list is non-empty |
| Env.JoinContainsEachPart | src/env.ts:15 | every element of a joined list occurs in the joined text |
| Env.ErrorNamesEveryMissingKey | src/env.ts:13-17 | every unset required key occurs in the failure message |
| Env.OrDefault | src/env.ts:23-26 | a set, non-empty variable is used verbatim, otherwise the default, so a non-empty default never yields an empty field |
| Env.SucceedsWhenRequiredSet | src/env.ts:19-27 | with the three required keys set, validation succeeds with a non-empty token and a non-empty instance name |
| Wrappers.ErrorMessage | src/services/bot.ts:152-153 | the text of a thrown `Error` is its message, and of any other thrown value "Unknown error" |
| Lightsail.StateFromResponse | src/services/lightsail.ts:51-63 | succeeds iff the call returned a present, non-empty state name, which is returned; a thrown error passes through unchanged; a missing state fails with "Failed to get instance state" |
| BotService.HasRequiredRole | src/services/bot.ts:37-39 | holds iff the admin role is among the member's roles, so it depends on no other role and fails for a member with no roles |
| BotService.Route | src/services/bot.ts:105-149 | only the groups "server" and "bot" route; within "server" exactly start, stop, reboot, status and check-website route; bot/status is the only routed pair outside "server" |
| BotService.GetCommands | src/services/bot.ts:41-79 | one command "gfcbot" with group "server" (five subcommands) and group "bot" (one subcommand) |
| BotService.SchemaMatchesRouting | src/services/bot.ts:41-149 | a (group, subcommand) pair is declared by the schema iff the dispatcher routes it |
| BotService.NatToString | src/services/bot.ts:173 | the status code's text is a non-empty string of decimal digits |
| BotService.DigitsValueOfNatToString | src/services/bot.ts:173 | reading the rendered status code back gives the same number |
| BotService.WebsiteReply | src/services/bot.ts:164-182 | the success reply appears iff the status is 200; any other status gives the non-200 warning followed by the code; a fetch rejection gives the unreachable reply followed by the error text |
| BotService.WebsiteReplyDeterminesStatus | src/services/bot.ts:167-174 | two status codes give the same probe reply only if they are equal |
| BotService.Perform | src/services/bot.ts:105-155 | a routed action sends exactly one non-ephemeral reply and makes at most one call; it makes none exactly for bot/status |
| BotService.Dispatch | src/services/bot.ts:81-156 | at most one call and one reply; no reply iff the member is authorized and the pair is unrouted; a call only for an authorized member and a routed pair; an unauthorized invoker gets an ephemeral reply and causes no call |
| BotService.OnEvent | src/services/bot.ts:205-208 | any interaction other than a chat-input command has no effect; at most one call and one reply; no call for an unauthorized invoker |
| BotService.UnresolvedMemberRefused | src/services/bot.ts:84-90 | an invoker that is not a guild member gets exactly the ephemeral "🚫 Unable to verify your permissions!" reply and no call |
| BotService.RoleDenialIffMissingRole | src/services/bot.ts:37-39 | a guild member gets exactly the ephemeral role-required denial and no call iff the admin role is not among its roles |
| BotService.ServerLifecycleCommands | src/services/bot.ts:100-129 | start, stop and reboot each send one matching command for "GreaterFaithChurchSite", then reply with their acknowledgement, or with "❌ Command failed: " + the error text |
| BotService.ServerStatusReply | src/services/bot.ts:131-136 | server/status sends one get-instance command and replies "Current Instance state: " + the state, or the failure reply when the call threw or found no state |
| BotService.BotStatusNoCall | src/services/bot.ts:142-148 | bot/status makes no call and replies "🟢 Bot is running normally!" |
| BotService.CheckWebsiteContained | src/services/bot.ts:138-140 | check-website makes one fetch of the fixed URL and no provider call, and sends the probe's single reply, which never starts as a command failure |
| BotService.PutCommands | src/services/bot.ts:189-201 | a successful put makes the guild's command set exactly the body; a failed put changes nothing; other guilds are untouched |
| BotService.RegistryRoundTrip | src/services/bot.ts:185-202 | register and remove are idempotent; removal leaves the guild empty; register, remove, register equals one register |
| Lightsail.LightsailClient.constructor | src/services/lightsail.ts:20-25 | the client keeps the given region and has sent nothing |
| BotService.Bot.constructor | src/services/bot.ts:27-35 | the configuration is stored, a fresh instance client with the default region is created, all logs start empty, and the bot has no listener, session, SIGINT handler or exit code |
| Lightsail.LightsailClient.StartInstance | src/services/lightsail.ts:27-33 | logs one start call on the given instance and yields the provider's outcome |
| Lightsail.LightsailClient.StopInstance | src/services/lightsail.ts:35-41 | logs one stop call on the given instance and yields the provider's outcome |
| Lightsail.LightsailClient.RebootInstance | src/services/lightsail.ts:43-49 | logs one reboot call on the given instance and yields the provider's outcome |
| Lightsail.LightsailClient.GetInstanceState | src/services/lightsail.ts:51-63 | logs one get-instance call and yields the state as `StateFromResponse` derives it from the response |
| BotService.Bot.Respond | src/services/bot.ts:85-88 | `interaction.reply` appends exactly one reply, with its text and ephemeral flag |
| BotService.Bot.CheckWebsite | src/services/bot.ts:158-183 | appends one fetch of the website and exactly the reply `WebsiteReply` classifies |
| BotService.Bot.HandleCommands | src/services/bot.ts:81-156 | appends exactly the provider commands, fetches and replies `Dispatch` specifies for the interaction |
| BotService.Bot.OnInteraction | src/services/bot.ts:205-208 | runs only while the listener is installed, a session is open and the process has not exited; appends exactly the effects `OnEvent` gives |
| BotService.Bot.Put | src/services/bot.ts:189-192 | the platform becomes `PutCommands` of the old platform on this bot's guild |
| BotService.Bot.RegisterCommands | src/services/bot.ts:185-193 | a successful put replaces this guild's commands with the full schema; a failure is returned and changes nothing |
| BotService.Bot.RemoveCommands | src/services/bot.ts:195-202 | a successful put replaces this guild's commands with the empty list; a failure is returned and changes nothing |
| BotService.Bot.Start | src/services/bot.ts:204-224 | callable once, before exit; the listener is installed; a failed login rejects with session and platform untouched; otherwise the session is opened with the token and the result is the registration's; the SIGINT handler is installed exactly when login and registration both succeeded |
| BotService.Bot.Shutdown | src/services/bot.ts:215-224 | callable only once the SIGINT handler is installed and before exit; a removal failure is swallowed; the session is closed and the exit code is 0 whatever removal did |

## Left out

- Discord client construction, gateway intents, login and the session itself: login is an outcome parameter of `Start`, and `client.destroy` is assumed to succeed.
- REST transport and the route `applicationGuildCommands(client.user.id, guildId)`: the platform is a map keyed by guild only, for the one application. The JSON the command builders serialise to is not modelled; the schema keeps only names and descriptions.
- The AWS SDK client, its credentials, and `send`: each provider command is logged by `LightsailClient` and its outcome is an input. The region is stored but has no effect.
- `fetch` networking and timeouts: the probe's result is an input. Status codes are natural numbers.
- `console.log` / `console.error` output.
- Interactions that arrive while `start` is still awaiting `login` or `registerCommands` (src/services/bot.ts:210-211): `Start` is one atomic step, so no command is handled between installing the listener and the end of registration.
- A second call of `start`: each call would add another `interactionCreate` listener and another SIGINT handler (src/services/bot.ts:205, 215), so every event would be handled twice. `Start` requires that it has not run before.
- `process.on("SIGINT")` and `process.exit`: shutdown is a method, and the exit is the recorded exit code.
- A command without a subcommand: `getSubcommand()` at src/services/bot.ts:102 runs outside the `try`, and the chat library throws there when the command has no subcommand. That exception would leave `handleCommands` with no reply. Every `Interaction` here carries a subcommand, so this path is not modelled.
- A failing `interaction.reply`: replies are assumed infallible. Without this, a failed reply inside the try block would lead to a second reply from the catch block.
- Concurrency between interactions: one dispatch is modelled at a time, since a dispatch changes no shared state except the logs.
- src/index.ts, the process entry point: it is not part of this model.
- The `types.ts` module it imports is not part of this model either.
