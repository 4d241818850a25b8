/** Client code that drives a session through concrete inputs and checks,
    from the contracts alone, what the user would see. */
module Walkthrough {
  import opened Entities
  import opened Text
  import opened Markup
  import opened Listing
  import opened Events
  import opened Login
  import opened Navigation

  /** Two guilds; the user picks guild 1 and channel `#random`. A message
      for `random` is rendered; one for `chat` is not. */
  method PickGuildAndChannel() {
    var chat, random := Channel(20, "chat"), Channel(21, "random");
    var general := Guild(1, "General", [Channel(10, "welcome")]);
    var dev := Guild(2, "Dev", [chat, random]);
    var s := new Session(map[]);
    var banner := s.SelectGuild([general, dev], 1);
    assert s.currentGuild == Some(dev);
    var shown, cmd := s.SelectChannel("#random");
    assert AfterFirst("#random") == "random";
    assert [chat, random][..1] == [chat];
    assert s.currentChannel == Some(random) && s.channelOpen;

    var ann := Author("Ann", "ansiblue");
    var here := s.Update(MessageArrived(Message(ann, 21, "hi")));
    ReplaceAbsent("hi", '&', "&amp;");
    ReplaceAbsent("hi", '>', "&gt;");
    ReplaceAbsent("hi", '<', "&lt;");
    assert here == Rendered(AuthorTag(ann) + "hi");
    var elsewhere := s.Update(MessageArrived(Message(ann, 20, "hello")));
    assert elsewhere == NoOutput;
  }

  /** The completion words for a guild's channels. */
  method CompletionWords() {
    var tokens := ChannelTokens([Channel(20, "chat"), Channel(21, "random")]);
    assert tokens[0] == "#chat" && tokens[1] == "#random";
    assert tokens == ["#chat", "#random"];
  }

  /** A selection that names no channel still opens the channel, with no
      channel selected, and messages are then never rendered. */
  method UnmatchedSelection(m: Message) {
    var dev := Guild(2, "Dev", [Channel(20, "chat")]);
    var s := new Session(map[]);
    var listing, banner, shown, cmd := s.DisplayGuilds([dev], 0, "#nope");
    LastMatchNone(None, [Channel(20, "chat")], "nope");
    assert s.currentChannel == None && s.channelOpen;
    var step := s.Update(MessageArrived(m));
    assert step == NoOutput;
  }

  /** A first run with the placeholder token: after an invalid answer and
      `n`, the credentials are sent, auto-login is nevertheless switched on
      and the token stored; the next login uses that token. */
  method FirstRunThenRestart() {
    var s := new Session(map[TokenKey := PlaceholderToken, AutoLoginKey := ""]);
    var notices, action, saved := s.Login("ann@example.org", "pw", ["maybe", "n"], "tok");
    assert action == Issue(LoginWithEmailPassword("ann@example.org", "pw"));
    assert saved && s.config[AutoLoginKey] == "True" && s.config[TokenKey] == "tok";
    notices, action, saved := s.Login("", "", [], "");
    assert action == Issue(RunWithToken("tok"));
    assert notices == [Notice(LoggingInText)] && !saved;
  }

  /** Each login failure leads back to the login prompt. */
  method FailuresRetry() {
    var s := new Session(map[]);
    var a := s.Update(LoginIncorrectEmailFormat);
    var b := s.Update(LoginIncorrectPassword);
    var c := s.Update(LoginCaptchaRequired);
    assert a.Relogin? && b.Relogin? && c.Relogin?;
    var d := s.Update(EventOf("open_channel", Message(Author("", ""), 0, "")));
    assert d == NoOutput;
  }
}
