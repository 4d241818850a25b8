/** The front end's session: the guild and channel the user navigated to,
    whether that channel is open for display, and the credentials section
    of the configuration. Its methods are the transitions of `CLI`. */
module Navigation {
  import opened Entities
  import opened Text
  import opened Markup
  import opened Listing
  import opened Events
  import opened Login

  /** `selection[1:]`: the selection without its leading `#`. */
  function AfterFirst(s: string): string {
    if s == [] then [] else s[1..]
  }

  /** The channel the selection loop ends with: the last text channel called
      `name`, or `current` when no channel is. */
  function LastMatch(current: Option<Channel>, cs: seq<Channel>, name: string): Option<Channel>
    decreases |cs|
  {
    if cs == [] then current
    else if cs[|cs| - 1].name == name then Some(cs[|cs| - 1])
    else LastMatch(current, cs[..|cs| - 1], name)
  }

  /** When no text channel has the name, the selected channel stays. */
  lemma {:induction false} LastMatchNone(current: Option<Channel>, cs: seq<Channel>, name: string)
    requires forall j :: 0 <= j < |cs| ==> cs[j].name != name
    ensures LastMatch(current, cs, name) == current
  {
    if cs != [] {
      LastMatchNone(current, cs[..|cs| - 1], name);
    }
  }

  /** Otherwise the last channel with the name is selected. */
  lemma {:induction false} LastMatchAt(current: Option<Channel>, cs: seq<Channel>, name: string, j: nat)
    requires j < |cs| && cs[j].name == name
    requires forall k :: j < k < |cs| ==> cs[k].name != name
    ensures LastMatch(current, cs, name) == Some(cs[j])
  {
    if j < |cs| - 1 {
      LastMatchAt(current, cs[..|cs| - 1], name, j);
    }
  }

  /** Entering the completion word offered for channel `j` selects channel
      `j`, unless a later channel has the same name. */
  lemma TokenSelectsChannel(current: Option<Channel>, cs: seq<Channel>, j: nat)
    requires j < |cs|
    requires forall k :: j < k < |cs| ==> cs[k].name != cs[j].name
    ensures LastMatch(current, cs, AfterFirst(ChannelTokens(cs)[j])) == Some(cs[j])
  {
    assert AfterFirst(ChannelTokens(cs)[j]) == cs[j].name;
    LastMatchAt(current, cs, cs[j].name, j);
  }

  /** What `select_channel` shows before it prompts. */
  datatype ChannelPrompt = ChannelPrompt(listing: string, words: seq<string>)

  class Session {
    var currentGuild: Option<Guild>
    var currentChannel: Option<Channel>
    var channelOpen: bool
    /** The credentials section of the client's configuration. */
    var config: map<string, string>

    /** Nothing is selected and no channel is open. */
    constructor (config: map<string, string>)
      ensures currentGuild == None && currentChannel == None && !channelOpen
      ensures this.config == config
    {
      currentGuild := None;
      currentChannel := None;
      channelOpen := false;
      this.config := config;
    }

    /** Marks the channel open (the only write of `channelOpen`) and tells
        the client which channel that is. */
    method OpenChannel() returns (cmd: Command)
      modifies this`channelOpen
      ensures channelOpen
      ensures cmd == EmitOpenChannel(currentChannel)
    {
      channelOpen := true;
      cmd := EmitOpenChannel(currentChannel);
    }

    /** Selects guild `selection`, which the validator keeps within range;
        the channel fields are left as they are. */
    method SelectGuild(guilds: seq<Guild>, selection: int) returns (banner: string)
      requires 0 <= selection < |guilds|
      modifies this`currentGuild
      ensures currentGuild == Some(guilds[selection])
      ensures banner == "Connected to " + guilds[selection].name
    {
      currentGuild := Some(guilds[selection]);
      banner := "Connected to " + currentGuild.value.name;
    }

    /** Without a guild, nothing happens. Otherwise the channel listing and
        the completion words are shown, the last text channel whose name is
        the selection without its first character becomes the current
        channel (none matching leaves it as it was), and the channel is
        opened either way. */
    method SelectChannel(selection: string) returns (shown: Option<ChannelPrompt>, cmd: Option<Command>)
      modifies this`currentChannel, this`channelOpen
      ensures currentGuild.None? ==>
                shown.None? && cmd.None? &&
                currentChannel == old(currentChannel) && channelOpen == old(channelOpen)
      ensures currentGuild.Some? ==>
                var cs := currentGuild.value.textChannels;
                shown == Some(ChannelPrompt(Join(ChannelTokens(cs)), ChannelTokens(cs))) &&
                currentChannel == LastMatch(old(currentChannel), cs, AfterFirst(selection)) &&
                channelOpen && cmd == Some(EmitOpenChannel(currentChannel))
    {
      if currentGuild.None? {
        return None, None;
      }
      var cs := currentGuild.value.textChannels;
      var listing := BuildChannelListing(cs);
      shown := Some(ChannelPrompt(listing, ChannelTokens(cs)));
      var name := AfterFirst(selection);
      for i := 0 to |cs|
        invariant currentChannel == LastMatch(old(currentChannel), cs[..i], name)
      {
        assert cs[..i + 1][..i] == cs[..i];
        if cs[i].name == name {
          currentChannel := Some(cs[i]);
        }
      }
      assert cs[..|cs|] == cs;
      var announced := OpenChannel();
      cmd := Some(announced);
    }

    /** `display_guilds`: the numbered guild listing, then the guild
        prompt, then (the call at the end of `select_guild`) the channel
        prompt. */
    method DisplayGuilds(guilds: seq<Guild>, guildSelection: int, channelSelection: string)
      returns (listing: string, banner: string, shown: Option<ChannelPrompt>, cmd: Option<Command>)
      requires 0 <= guildSelection < |guilds|
      modifies this`currentGuild, this`currentChannel, this`channelOpen
      ensures listing == Join(GuildLabels(guilds))
      ensures banner == "Connected to " + guilds[guildSelection].name
      ensures currentGuild == Some(guilds[guildSelection])
      ensures var cs := guilds[guildSelection].textChannels;
              shown == Some(ChannelPrompt(Join(ChannelTokens(cs)), ChannelTokens(cs))) &&
              currentChannel == LastMatch(old(currentChannel), cs, AfterFirst(channelSelection)) &&
              channelOpen && cmd == Some(EmitOpenChannel(currentChannel))
    {
      listing := BuildGuildListing(guilds);
      banner := SelectGuild(guilds, guildSelection);
      shown, cmd := SelectChannel(channelSelection);
    }

    /** `update`: handles one event and reports what follows. Nothing in the
        session changes. A message is rendered exactly when it belongs to
        the current channel and that channel is open; each login failure,
        and only those, leads back to `login`; only a successful login leads
        to the guild display; other actions do nothing. */
    method Update(e: Event) returns (s: Step)
      ensures s.Rendered? <==> e.MessageArrived? && InScope(currentChannel, channelOpen, e.msg)
      ensures s.Rendered? ==> s.line == RenderLine(e.msg)
      ensures s.Relogin? <==> e.IsLoginFailure()
      ensures e.LoginIncorrectEmailFormat? ==> s.reason == BadEmailText
      ensures e.LoginIncorrectPassword? ==> s.reason == BadPasswordText
      ensures e.LoginCaptchaRequired? ==> s.reason == CaptchaText
      ensures s.ShowGuilds? <==> e.LoginSuccessful?
      ensures s.ShowGuilds? ==> s.banner == LoggedInText
      ensures s.Notice? <==> e.LoginInProgress?
      ensures s.Notice? ==> s.text == LoggingInText
      ensures e.Unlisted? ==> s == NoOutput
    {
      match e
      case LoginInProgress => s := Notice(LoggingInText);
      case LoginSuccessful => s := ShowGuilds(LoggedInText);
      case LoginIncorrectEmailFormat => s := Relogin(BadEmailText);
      case LoginIncorrectPassword => s := Relogin(BadPasswordText);
      case LoginCaptchaRequired => s := Relogin(CaptchaText);
      case MessageArrived(msg) =>
        s := NoOutput;
        if currentChannel.Some? {
          if currentChannel.value.id == msg.channelId && channelOpen {
            s := Rendered(RenderLine(msg));
          }
        }
      case Unlisted(_) => s := NoOutput;
    }

    /** `login`, with the typed e-mail and password, the answers to the
        auto-login prompt and the token the client holds afterwards. Only
        the credentials section may change. */
    method Login(email: string, password: string, replies: seq<string>, sessionToken: string)
      returns (notices: seq<Step>, action: LoginAction, saved: bool)
      modifies this`config
      ensures LoginSpec(old(config), email, password, replies, sessionToken) ==
              LoginOutcome(notices, action, config, saved)
    {
      notices, saved := [], false;
      if TokenKey !in config {
        return notices, KeyMissing(TokenKey), saved;
      }
      if config[TokenKey] == PlaceholderToken {
        if AutoLoginKey !in config {
          return notices, KeyMissing(AutoLoginKey), saved;
        }
        if !Truthy(config[AutoLoginKey]) {
          var reply, _ := ReadReply(replies);
          if reply.None? {
            return notices, ReplyPending, saved;
          }
          action := Issue(LoginWithEmailPassword(email, password));
          if Truthy(reply.value) {
            config := config[AutoLoginKey := "True"];
            config := config[TokenKey := sessionToken];
          } else {
            config := config[DeclinedAutoLoginKey := "False"];
          }
          saved := true;
        } else {
          action := PromptedOnly;
        }
      } else {
        var step := Update(LoginInProgress);
        notices := [step];
        action := Issue(RunWithToken(config[TokenKey]));
      }
    }
  }
}
