/** The slash-command bot: the command schema, the role gate, the dispatcher
    that turns one command into at most one provider or HTTP call and at most
    one reply, and the registration of the schema tied to the process's life.

    The pure part (`Route`, `Dispatch`, `WebsiteReply`, `PutCommands`) states
    what one dispatch or one registry update does; class `Bot` performs it
    step by step, against the log of commands its instance client sends, the
    log of website probes, the log of replies and a map of the commands the
    platform holds per guild, and its methods are proved to match. */
module BotService {
  import opened Wrappers
  import Lightsail

  /** The instance and site the dispatcher acts on (fixed in this file, not
      taken from the validated configuration). */
  const InstanceName: string := "GreaterFaithChurchSite"
  const WebsiteUrl: string := "https://greaterfaithchurch.org"

  const UnableToVerify: string := "🚫 Unable to verify your permissions!"
  const RoleRequired: string := "🚫 You need the required role to use this bot!"
  const StartAck: string := "✅ Server start command successfully sent!"
  const StopAck: string := "✅ Server stop command successfully sent, Please wait 5 minutes!"
  const RebootAck: string := "✅ Server rebooted successfully, please wait 5 mins and check status again!"
  const StatePrefix: string := "Current Instance state: "
  const BotRunning: string := "🟢 Bot is running normally!"
  const CommandFailedPrefix: string := "❌ Command failed: "
  const WebsiteUp: string := "✅ Website is up returned a 200 success code!"
  const WebsiteNon200Prefix: string := "⚠️ Website returned a non-200 status code: \n"
  const WebsiteUnreachablePrefix: string := "❌ Failed to reach the website: \n"

  // ---------------------------------------------------------------- schema

  datatype Subcommand = Subcommand(name: string, description: string)
  datatype SubcommandGroup = SubcommandGroup(name: string, description: string, subcommands: seq<Subcommand>)
  datatype SlashCommand = SlashCommand(name: string, description: string, groups: seq<SubcommandGroup>)

  /** getCommands: one top-level command with the groups "server" and "bot". */
  function GetCommands(): (r: seq<SlashCommand>)
    ensures |r| == 1 && r[0].name == "gfcbot"
    ensures |r[0].groups| == 2
    ensures r[0].groups[0].name == "server" && |r[0].groups[0].subcommands| == 5
    ensures r[0].groups[1].name == "bot" && |r[0].groups[1].subcommands| == 1
  {
    [SlashCommand("gfcbot", "GFC Bot commands", [
      SubcommandGroup("server", "Manage the server", [
        Subcommand("start", "Start the server"),
        Subcommand("stop", "Stop the server"),
        Subcommand("reboot", "Reboot the server"),
        Subcommand("status", "Get server status"),
        Subcommand("check-website", "Check if the website is returning a 200 success code")]),
      SubcommandGroup("bot", "Bot management commands", [
        Subcommand("status", "Check bot status")])])]
  }

  /** The (group, subcommand) pairs a list of commands declares. */
  function DeclaredPairs(cmds: seq<SlashCommand>): set<(string, string)> {
    set c, g, s | c in cmds && g in c.groups && s in g.subcommands :: (g.name, s.name)
  }

  // ---------------------------------------------------------------- inputs and effects

  /** Who invoked the command: a resolved guild member with its role ids, or
      anything else (no member, or a member object that is not a guild member). */
  datatype Member = Unresolved | GuildMember(roles: set<string>)

  /** A chat-input command: the invoker, the subcommand group (absent when the
      command has none) and the subcommand. */
  datatype Interaction = Interaction(member: Member, group: Option<string>, subcommand: string)

  /** Every interaction the client delivers; only chat-input commands are handled. */
  datatype Event = ChatInputCommand(interaction: Interaction) | OtherInteraction

  datatype Action = StartServer | StopServer | RebootServer | ServerStatus | CheckWebsite | BotStatus

  datatype Reply = Reply(content: string, ephemeral: bool)

  /** What `fetch` settles to: a response with its status code, or a rejection. */
  datatype FetchOutcome = Response(status: nat) | FetchFailed(thrown: Thrown)

  /** How each collaborator would answer during one dispatch; a dispatch
      consults at most one of them. */
  datatype World = World(
    start: Outcome<Thrown>,
    stop: Outcome<Thrown>,
    reboot: Outcome<Thrown>,
    getInstance: Lightsail.GetInstanceResponse,
    fetch: FetchOutcome)

  /** What one dispatch does, in order: the commands sent to the provider,
      the URLs fetched and the replies sent. */
  datatype Effects = Effects(requests: seq<Lightsail.Request>, fetches: seq<string>, replies: seq<Reply>)

  /** The number of external calls (provider commands and fetches). */
  function CallCount(e: Effects): nat {
    |e.requests| + |e.fetches|
  }

  // ---------------------------------------------------------------- the dispatcher, as a specification

  /** hasRequiredRole: the admin role is among the member's roles. */
  predicate HasRequiredRole(adminRole: string, roles: set<string>)
    ensures HasRequiredRole(adminRole, roles) ==> roles != {}
    ensures HasRequiredRole(adminRole, roles) == HasRequiredRole(adminRole, roles * {adminRole})
  {
    adminRole in roles
  }

  predicate Authorized(adminRole: string, m: Member) {
    m.GuildMember? && HasRequiredRole(adminRole, m.roles)
  }

  /** The routing table of handleCommands; pairs outside it select nothing. */
  function Route(group: Option<string>, subcommand: string): (r: Option<Action>)
    ensures r.Some? ==> group == Some("server") || group == Some("bot")
    ensures r == Some(BotStatus) <==> group == Some("bot") && subcommand == "status"
    ensures r.Some? && r != Some(BotStatus) ==> group == Some("server")
    ensures group == Some("server") ==>
              (r.Some? <==> subcommand in {"start", "stop", "reboot", "status", "check-website"})
  {
    if group == Some("server") then
      if subcommand == "start" then Some(StartServer)
      else if subcommand == "stop" then Some(StopServer)
      else if subcommand == "reboot" then Some(RebootServer)
      else if subcommand == "status" then Some(ServerStatus)
      else if subcommand == "check-website" then Some(CheckWebsite)
      else None
    else if group == Some("bot") then
      if subcommand == "status" then Some(BotStatus) else None
    else None
  }

  function CommandFailed(t: Thrown): string {
    CommandFailedPrefix + ErrorMessage(t)
  }

  function DigitChar(d: nat): (c: char)
    requires d < 10
    ensures '0' <= c <= '9' && c as int - '0' as int == d
  {
    ('0' as int + d) as char
  }

  /** The decimal text of a status code, as a template literal renders it. */
  function NatToString(n: nat): (s: string)
    ensures |s| >= 1
    ensures forall k :: 0 <= k < |s| ==> '0' <= s[k] <= '9'
  {
    if n < 10 then [DigitChar(n)] else NatToString(n / 10) + [DigitChar(n % 10)]
  }

  /** The number a string of decimal digits denotes. */
  function DigitsValue(s: string): nat
    requires forall k :: 0 <= k < |s| ==> '0' <= s[k] <= '9'
  {
    if s == [] then 0 else DigitsValue(s[..|s| - 1]) * 10 + (s[|s| - 1] as int - '0' as int)
  }

  /** checkWebsite's classification of the probe's outcome. */
  function WebsiteReply(o: FetchOutcome): (r: string)
    ensures r == WebsiteUp <==> o == Response(200)
    ensures o.Response? && o.status != 200 ==> r == WebsiteNon200Prefix + NatToString(o.status)
    ensures o.FetchFailed? ==> r == WebsiteUnreachablePrefix + ErrorMessage(o.thrown)
  {
    match o
    case Response(status) =>
      if status == 200 then WebsiteUp
      else
        var r := WebsiteNon200Prefix + NatToString(status);
        assert r[0] == WebsiteNon200Prefix[0] != WebsiteUp[0];
        r
    case FetchFailed(t) =>
      var r := WebsiteUnreachablePrefix + ErrorMessage(t);
      assert r[0] == WebsiteUnreachablePrefix[0] != WebsiteUp[0];
      r
  }

  /** What a routed action does once the invoker is authorized. */
  function Perform(a: Action, w: World): (e: Effects)
    ensures |e.replies| == 1 && !e.replies[0].ephemeral
    ensures CallCount(e) == 0 <==> a == BotStatus
    ensures CallCount(e) <= 1
    ensures forall q :: q in e.requests ==> q.instanceName == InstanceName
    ensures forall u :: u in e.fetches ==> u == WebsiteUrl
  {
    match a
    case StartServer =>
      Effects([Lightsail.StartInstanceCommand(InstanceName)], [],
              [Reply(if w.start.Pass? then StartAck else CommandFailed(w.start.error), false)])
    case StopServer =>
      Effects([Lightsail.StopInstanceCommand(InstanceName)], [],
              [Reply(if w.stop.Pass? then StopAck else CommandFailed(w.stop.error), false)])
    case RebootServer =>
      Effects([Lightsail.RebootInstanceCommand(InstanceName)], [],
              [Reply(if w.reboot.Pass? then RebootAck else CommandFailed(w.reboot.error), false)])
    case ServerStatus =>
      var text := match Lightsail.StateFromResponse(w.getInstance)
        case Success(state) => StatePrefix + state
        case Failure(t) => CommandFailed(t);
      Effects([Lightsail.GetInstanceCommand(InstanceName)], [], [Reply(text, false)])
    case CheckWebsite =>
      Effects([], [WebsiteUrl], [Reply(WebsiteReply(w.fetch), false)])
    case BotStatus =>
      Effects([], [], [Reply(BotRunning, false)])
  }

  /** handleCommands: fail closed on an unresolved invoker, then the role
      gate, then the routed action. */
  function Dispatch(adminRole: string, i: Interaction, w: World): (e: Effects)
    ensures CallCount(e) <= 1 && |e.replies| <= 1
    ensures e.replies == [] <==> Authorized(adminRole, i.member) && Route(i.group, i.subcommand).None?
    ensures CallCount(e) != 0 ==> Authorized(adminRole, i.member) && Route(i.group, i.subcommand).Some?
    ensures !Authorized(adminRole, i.member) ==> CallCount(e) == 0 && e.replies[0].ephemeral
  {
    match i.member
    case Unresolved => Effects([], [], [Reply(UnableToVerify, true)])
    case GuildMember(roles) =>
      if !HasRequiredRole(adminRole, roles) then Effects([], [], [Reply(RoleRequired, true)])
      else
        match Route(i.group, i.subcommand)
        case None => Effects([], [], [])
        case Some(a) => Perform(a, w)
  }

  /** The interactionCreate listener: anything but a chat-input command is ignored. */
  function OnEvent(adminRole: string, ev: Event, w: World): (e: Effects)
    ensures CallCount(e) <= 1 && |e.replies| <= 1
    ensures ev.OtherInteraction? ==> e == Effects([], [], [])
    ensures ev.ChatInputCommand? && !Authorized(adminRole, ev.interaction.member) ==> CallCount(e) == 0
  {
    match ev
    case ChatInputCommand(i) => Dispatch(adminRole, i, w)
    case OtherInteraction => Effects([], [], [])
  }

  // ---------------------------------------------------------------- properties of one dispatch

  /** An invoker that does not resolve to a guild member gets exactly the
      ephemeral "unable to verify" reply and causes no call. */
  lemma UnresolvedMemberRefused(adminRole: string, i: Interaction, w: World)
    requires i.member.Unresolved?
    ensures Dispatch(adminRole, i, w) == Effects([], [], [Reply(UnableToVerify, true)])
  {
  }

  /** A guild member gets the role-required denial, and nothing else, exactly
      when it lacks the admin role. */
  lemma RoleDenialIffMissingRole(adminRole: string, i: Interaction, w: World)
    requires i.member.GuildMember?
    ensures Dispatch(adminRole, i, w) == Effects([], [], [Reply(RoleRequired, true)])
            <==> adminRole !in i.member.roles
  {
  }

  /** start, stop and reboot each send exactly one matching command for the
      fixed instance, then acknowledge it or report the provider's error. */
  lemma ServerLifecycleCommands(adminRole: string, roles: set<string>, w: World)
    requires adminRole in roles
    ensures var e := Dispatch(adminRole, Interaction(GuildMember(roles), Some("server"), "start"), w);
            e.requests == [Lightsail.StartInstanceCommand(InstanceName)] && e.fetches == [] &&
            e.replies == [Reply(if w.start.Pass? then StartAck else CommandFailedPrefix + ErrorMessage(w.start.error), false)]
    ensures var e := Dispatch(adminRole, Interaction(GuildMember(roles), Some("server"), "stop"), w);
            e.requests == [Lightsail.StopInstanceCommand(InstanceName)] && e.fetches == [] &&
            e.replies == [Reply(if w.stop.Pass? then StopAck else CommandFailedPrefix + ErrorMessage(w.stop.error), false)]
    ensures var e := Dispatch(adminRole, Interaction(GuildMember(roles), Some("server"), "reboot"), w);
            e.requests == [Lightsail.RebootInstanceCommand(InstanceName)] && e.fetches == [] &&
            e.replies == [Reply(if w.reboot.Pass? then RebootAck else CommandFailedPrefix + ErrorMessage(w.reboot.error), false)]
  {
  }

  /** server/status replies with the provider's state label verbatim, or with
      the failure text when the lookup threw or found no state. */
  lemma ServerStatusReply(adminRole: string, roles: set<string>, w: World)
    requires adminRole in roles
    ensures var e := Dispatch(adminRole, Interaction(GuildMember(roles), Some("server"), "status"), w);
            e.requests == [Lightsail.GetInstanceCommand(InstanceName)] && e.fetches == [] &&
            (forall s :: w.getInstance == Success(Some(s)) && s != "" ==>
               e.replies == [Reply(StatePrefix + s, false)]) &&
            (w.getInstance.Failure? ==>
               e.replies == [Reply(CommandFailedPrefix + ErrorMessage(w.getInstance.error), false)]) &&
            (w.getInstance.Success? && (w.getInstance.value.None? || w.getInstance.value.value == "") ==>
               e.replies == [Reply(CommandFailedPrefix + Lightsail.StateMissingMessage, false)])
  {
  }

  /** bot/status answers from the bot itself, with no external call. */
  lemma BotStatusNoCall(adminRole: string, roles: set<string>, w: World)
    requires adminRole in roles
    ensures Dispatch(adminRole, Interaction(GuildMember(roles), Some("bot"), "status"), w)
            == Effects([], [], [Reply(BotRunning, false)])
  {
  }

  /** server/check-website probes the fixed URL once; every outcome is
      classified by the probe itself, so it never becomes a command failure. */
  lemma CheckWebsiteContained(adminRole: string, roles: set<string>, w: World)
    requires adminRole in roles
    ensures var e := Dispatch(adminRole, Interaction(GuildMember(roles), Some("server"), "check-website"), w);
            e.requests == [] && e.fetches == [WebsiteUrl] && |e.replies| == 1 &&
            e.replies[0].content == WebsiteReply(w.fetch) &&
            CommandFailedPrefix != e.replies[0].content[..|CommandFailedPrefix|]
  {
    var r := WebsiteReply(w.fetch);
    assert |r| >= |CommandFailedPrefix|;
    if w.fetch.FetchFailed? {
      assert r[3] == WebsiteUnreachablePrefix[3] != CommandFailedPrefix[3];
    } else if w.fetch.status == 200 {
      assert r[0] == WebsiteUp[0] != CommandFailedPrefix[0];
    } else {
      assert r[0] == WebsiteNon200Prefix[0] != CommandFailedPrefix[0];
    }
  }

  /** The rendered status code reads back as the same number. */
  lemma {:induction false} DigitsValueOfNatToString(n: nat)
    ensures DigitsValue(NatToString(n)) == n
  {
    if n >= 10 {
      var s := NatToString(n);
      assert s[..|s| - 1] == NatToString(n / 10);
      DigitsValueOfNatToString(n / 10);
    }
  }

  /** The non-200 warning carries the status code recoverably: two statuses
      give the same reply only when they are equal. */
  lemma WebsiteReplyDeterminesStatus(m: nat, n: nat)
    requires WebsiteReply(Response(m)) == WebsiteReply(Response(n))
    ensures m == n
  {
    if m != 200 && n != 200 {
      var a, b := NatToString(m), NatToString(n);
      assert WebsiteNon200Prefix + a == WebsiteNon200Prefix + b;
      assert a == (WebsiteNon200Prefix + a)[|WebsiteNon200Prefix|..];
      assert b == (WebsiteNon200Prefix + b)[|WebsiteNon200Prefix|..];
      DigitsValueOfNatToString(m);
      DigitsValueOfNatToString(n);
    }
  }

  /** The schema and the routing table agree: a (group, subcommand) pair is
      declared exactly when the dispatcher routes it. */
  lemma SchemaMatchesRouting(g: string, s: string)
    ensures (g, s) in DeclaredPairs(GetCommands()) <==> Route(Some(g), s).Some?
  {
    var cmd := GetCommands()[0];
    var server, bot := cmd.groups[0], cmd.groups[1];
    if Route(Some(g), s).Some? {
      if g == "server" {
        var k := if s == "start" then 0 else if s == "stop" then 1 else if s == "reboot" then 2
                 else if s == "status" then 3 else 4;
        assert server.subcommands[k].name == s;
        assert (server.name, server.subcommands[k].name) in DeclaredPairs(GetCommands());
      } else {
        assert (bot.name, bot.subcommands[0].name) in DeclaredPairs(GetCommands());
      }
    }
  }

  // ---------------------------------------------------------------- the registry, as a specification

  type Platform = map<string, seq<SlashCommand>>

  /** `rest.put` on a guild's command route: a successful put replaces the
      guild's whole command set with `body`; a failed one changes nothing. */
  function PutCommands(p: Platform, guild: string, body: seq<SlashCommand>, outcome: Outcome<Thrown>): (q: Platform)
    ensures outcome.Pass? ==> guild in q && q[guild] == body
    ensures forall h :: h != guild ==> (h in q <==> h in p) && (h in p ==> q[h] == p[h])
    ensures outcome.Fail? ==> q == p
  {
    if outcome.Pass? then p[guild := body] else p
  }

  /** Registering and removing are idempotent, removal leaves the guild with
      no commands, and register, remove, register ends as one register does. */
  lemma RegistryRoundTrip(p: Platform, guild: string)
    ensures var reg := PutCommands(p, guild, GetCommands(), Pass);
            PutCommands(reg, guild, GetCommands(), Pass) == reg
    ensures var rem := PutCommands(p, guild, [], Pass);
            PutCommands(rem, guild, [], Pass) == rem && rem[guild] == []
    ensures PutCommands(PutCommands(p, guild, GetCommands(), Pass), guild, [], Pass)[guild] == []
    ensures PutCommands(PutCommands(PutCommands(p, guild, GetCommands(), Pass), guild, [], Pass), guild, GetCommands(), Pass)
            == PutCommands(p, guild, GetCommands(), Pass)
  {
  }

  // ---------------------------------------------------------------- the bot object

  class Bot {
    const token: string
    const guildId: string
    const adminRole: string
    const lightsailClient: Lightsail.LightsailClient

    /** URLs fetched by the website probe, in order. */
    var fetches: seq<string>
    /** Replies sent to interactions, in order. */
    var replies: seq<Reply>
    /** The command set the platform holds for each guild. */
    var platform: Platform
    /** Whether the interactionCreate listener is installed. */
    var listening: bool
    /** The credential the client's session was opened with, while it is open. */
    var session: Option<string>
    /** Whether the SIGINT shutdown handler is installed. */
    var sigintInstalled: bool
    /** The status the process exited with, once it has. */
    var exitCode: Option<int>

    constructor (token: string, guildId: string, adminRole: string, platform: Platform)
      ensures this.token == token && this.guildId == guildId && this.adminRole == adminRole
      ensures fresh(lightsailClient) && lightsailClient.region == Lightsail.DefaultRegion
      ensures lightsailClient.sent == [] && fetches == [] && replies == []
      ensures this.platform == platform
      ensures !listening && session == None && !sigintInstalled && exitCode == None
    {
      this.token := token;
      this.guildId := guildId;
      this.adminRole := adminRole;
      lightsailClient := new Lightsail.LightsailClient(Lightsail.DefaultRegion);
      this.platform := platform;
      fetches := [];
      replies := [];
      listening := false;
      session := None;
      sigintInstalled := false;
      exitCode := None;
    }

    /** interaction.reply, assumed never to fail. */
    method Respond(content: string, ephemeral: bool)
      modifies this`replies
      ensures replies == old(replies) + [Reply(content, ephemeral)]
    {
      replies := replies + [Reply(content, ephemeral)];
    }

    /** checkWebsite: one probe, one reply, every failure caught here. */
    method CheckWebsite(o: FetchOutcome)
      modifies this`fetches, this`replies
      ensures fetches == old(fetches) + [WebsiteUrl]
      ensures replies == old(replies) + [Reply(WebsiteReply(o), false)]
    {
      var websiteUrl := WebsiteUrl;
      fetches := fetches + [websiteUrl];
      match o
      case Response(status) =>
        if status == 200 {
          Respond(WebsiteUp, false);
        } else {
          Respond(WebsiteNon200Prefix + NatToString(status), false);
        }
      case FetchFailed(t) =>
        Respond(WebsiteUnreachablePrefix + ErrorMessage(t), false);
    }

    /** handleCommands. */
    method HandleCommands(i: Interaction, w: World)
      modifies lightsailClient`sent, this`fetches, this`replies
      ensures lightsailClient.sent == old(lightsailClient.sent) + Dispatch(adminRole, i, w).requests
      ensures fetches == old(fetches) + Dispatch(adminRole, i, w).fetches
      ensures replies == old(replies) + Dispatch(adminRole, i, w).replies
    {
      if i.member.Unresolved? {
        Respond(UnableToVerify, true);
        return;
      }
      if !HasRequiredRole(adminRole, i.member.roles) {
        Respond(RoleRequired, true);
        return;
      }
      var instanceName := InstanceName;
      var group, subcommand := i.group, i.subcommand;
      var failure: Option<Thrown> := None;
      if group == Some("server") {
        if subcommand == "start" {
          var r := lightsailClient.StartInstance(instanceName, w.start);
          if r.Pass? { Respond(StartAck, false); } else { failure := Some(r.error); }
        } else if subcommand == "stop" {
          var r := lightsailClient.StopInstance(instanceName, w.stop);
          if r.Pass? { Respond(StopAck, false); } else { failure := Some(r.error); }
        } else if subcommand == "reboot" {
          var r := lightsailClient.RebootInstance(instanceName, w.reboot);
          if r.Pass? { Respond(RebootAck, false); } else { failure := Some(r.error); }
        } else if subcommand == "status" {
          var r := lightsailClient.GetInstanceState(instanceName, w.getInstance);
          match r
          case Success(state) => Respond(StatePrefix + state, false);
          case Failure(t) => failure := Some(t);
        } else if subcommand == "check-website" {
          CheckWebsite(w.fetch);
        }
      } else if group == Some("bot") {
        if subcommand == "status" {
          Respond(BotRunning, false);
        }
      }
      if failure.Some? {
        Respond(CommandFailedPrefix + ErrorMessage(failure.value), false);
      }
    }

    /** The interactionCreate listener installed by start; events arrive only
        while it is installed, over an open session, before the process exits. */
    method OnInteraction(ev: Event, w: World)
      requires listening && session.Some? && exitCode == None
      modifies lightsailClient`sent, this`fetches, this`replies
      ensures lightsailClient.sent == old(lightsailClient.sent) + OnEvent(adminRole, ev, w).requests
      ensures fetches == old(fetches) + OnEvent(adminRole, ev, w).fetches
      ensures replies == old(replies) + OnEvent(adminRole, ev, w).replies
    {
      if ev.ChatInputCommand? {
        HandleCommands(ev.interaction, w);
      }
    }

    /** `rest.put` of `body` on this bot's guild route. */
    method Put(body: seq<SlashCommand>, outcome: Outcome<Thrown>) returns (r: Outcome<Thrown>)
      modifies this`platform
      ensures platform == PutCommands(old(platform), guildId, body, outcome)
      ensures r == outcome
    {
      if outcome.Pass? {
        platform := platform[guildId := body];
      }
      r := outcome;
    }

    /** registerCommands: overwrite the guild's commands with the schema. */
    method RegisterCommands(outcome: Outcome<Thrown>) returns (r: Outcome<Thrown>)
      modifies this`platform
      ensures platform == PutCommands(old(platform), guildId, GetCommands(), outcome)
      ensures r == outcome
    {
      var commands := GetCommands();
      r := Put(commands, outcome);
    }

    /** removeCommands: overwrite the guild's commands with nothing. */
    method RemoveCommands(outcome: Outcome<Thrown>) returns (r: Outcome<Thrown>)
      modifies this`platform
      ensures platform == PutCommands(old(platform), guildId, [], outcome)
      ensures r == outcome
    {
      r := Put([], outcome);
    }

    /** start, called once per process: install the listener, log in with the token, register the
        schema, and only when both succeeded install the SIGINT handler. A
        failed login rejects before registering; a failed registration
        rejects before the handler is installed. */
    method Start(login: Outcome<Thrown>, register: Outcome<Thrown>) returns (r: Outcome<Thrown>)
      requires !listening && exitCode == None
      modifies this`listening, this`session, this`platform, this`sigintInstalled
      ensures listening
      ensures login.Fail? ==> r == login && session == old(session) && platform == old(platform)
      ensures login.Pass? ==> r == register && session == Some(token) &&
                              platform == PutCommands(old(platform), guildId, GetCommands(), register)
      ensures sigintInstalled == (old(sigintInstalled) || (login.Pass? && register.Pass?))
    {
      listening := true;
      if login.Fail? {
        r := login;
        return;
      }
      session := Some(token);
      r := RegisterCommands(register);
      if r.Fail? {
        return;
      }
      sigintInstalled := true;
    }

    /** The SIGINT handler: best-effort removal, end the session, exit 0. */
    method Shutdown(remove: Outcome<Thrown>) returns (code: int)
      requires sigintInstalled && exitCode == None
      modifies this`platform, this`session, this`exitCode
      ensures code == 0 && exitCode == Some(0) && session == None
      ensures platform == PutCommands(old(platform), guildId, [], remove)
    {
      var r := RemoveCommands(remove);
      // a failed removal is only logged
      session := None;
      code := 0;
      exitCode := Some(code);
    }
  }
}
