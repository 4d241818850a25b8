/** How `login` chooses its path from the credentials section of the
    configuration, and what it writes back. The section is a map from option
    name to value, as configparser stores it: option names are folded to
    lower case on every read and write, and every value is a string, so a
    value is false in a test only when it is empty. */
module Login {
  import opened Entities
  import opened Events

  /** ASCII lower-casing of one character. */
  function LowerChar(ch: char): char {
    if 'A' <= ch <= 'Z' then (ch as int - 'A' as int + 'a' as int) as char else ch
  }

  /** The name under which configparser stores an option (its `optionxform`). */
  function OptionKey(name: string): (key: string)
    ensures |key| == |name|
    ensures forall i :: 0 <= i < |name| ==> key[i] == LowerChar(name[i])
  {
    if name == [] then [] else [LowerChar(name[0])] + OptionKey(name[1..])
  }

  const TokenKey := OptionKey("Token")
  const AutoLoginKey := OptionKey("AutoLogin")
  /** The option the unreachable branch at line 45 would write, spelt `Autologin` there. */
  const DeclinedAutoLoginKey := OptionKey("Autologin")
  const PlaceholderToken := "placeholder_token"

  /** The option `Token` is stored as `token`. */
  lemma TokenKeyFolded()
    ensures TokenKey == "token"
  {
    var t := TokenKey;
    assert t[0] == 't' && t[1] == 'o' && t[2] == 'k' && t[3] == 'e' && t[4] == 'n';
  }

  /** The option `AutoLogin` is stored as `autologin`. */
  lemma AutoLoginKeyFolded()
    ensures AutoLoginKey == "autologin"
  {
    var a := AutoLoginKey;
    assert a[0] == 'a' && a[1] == 'u' && a[2] == 't' && a[3] == 'o' && a[4] == 'l';
    assert a[5] == 'o' && a[6] == 'g' && a[7] == 'i' && a[8] == 'n';
  }

  /** `Autologin`, as spelt at line 45, names the same option as `AutoLogin`. */
  lemma DeclinedKeyIsAutoLogin()
    ensures DeclinedAutoLoginKey == AutoLoginKey
  {
    var name, other := "Autologin", "AutoLogin";
    assert forall i :: 0 <= i < 9 && i != 4 ==> name[i] == other[i];
    assert LowerChar(name[4]) == LowerChar(other[4]);
    assert forall i :: 0 <= i < 9 ==> LowerChar(name[i]) == LowerChar(other[i]);
  }

  /** Python truthiness of a configuration value (a string). */
  predicate Truthy(s: string) {
    s != ""
  }

  predicate IsYesNo(reply: string) {
    reply == "y" || reply == "n"
  }

  /** None of the answers before index `k` is `y` or `n`. */
  predicate RejectedBefore(replies: seq<string>, k: int) {
    forall j :: 0 <= j < k && j < |replies| ==> !IsYesNo(replies[j])
  }

  /** The first `y`/`n` among the answers to the auto-login prompt, or
      `None` when every answer is rejected (the prompt would then wait). */
  function FirstYesNo(replies: seq<string>): (r: Option<string>)
    ensures r.Some? ==> (IsYesNo(r.value) &&
              exists k :: 0 <= k < |replies| && replies[k] == r.value && RejectedBefore(replies, k))
    ensures r.None? <==> RejectedBefore(replies, |replies|)
  {
    if replies == [] then None
    else if IsYesNo(replies[0]) then Some(replies[0])
    else
      var r := FirstYesNo(replies[1..]);
      assert r.Some? ==> exists k :: 0 <= k < |replies| && replies[k] == r.value && RejectedBefore(replies, k) by {
        if r.Some? {
          var k :| 0 <= k < |replies[1..]| && replies[1..][k] == r.value && RejectedBefore(replies[1..], k);
          assert replies[k + 1] == r.value && RejectedBefore(replies, k + 1);
        }
      }
      r
  }

  /** The prompt loop of lines 35-37: ask, and ask again while the answer is
      neither `y` nor `n`. `used` counts the answers consumed. */
  method ReadReply(replies: seq<string>) returns (reply: Option<string>, used: nat)
    ensures reply == FirstYesNo(replies)
    ensures used <= |replies|
    ensures reply.Some? ==> 0 < used && replies[used - 1] == reply.value
    ensures RejectedBefore(replies, used - 1)
    ensures reply.None? ==> used == |replies|
  {
    if replies == [] {
      return None, 0;
    }
    var answer := replies[0];
    used := 1;
    while !IsYesNo(answer)
      invariant 1 <= used <= |replies| && answer == replies[used - 1]
      invariant RejectedBefore(replies, used - 1)
      invariant FirstYesNo(replies) == FirstYesNo(replies[used - 1..])
      decreases |replies| - used
    {
      if used == |replies| {
        return None, used;
      }
      assert replies[used - 1..][1..] == replies[used..];
      answer := replies[used];
      used := used + 1;
    }
    reply := Some(answer);
  }

  /** Where `login` goes. */
  datatype LoginAction =
    | Issue(cmd: Command)        // a login command handed to the client
    | PromptedOnly               // the credentials were read and nothing else happens
    | ReplyPending               // no y/n answer yet: the prompt keeps waiting
    | KeyMissing(key: string)    // the section lacks a key that is read (KeyError)

  datatype LoginOutcome = LoginOutcome(
    notices: seq<Step>,          // what `update` printed on the way
    action: LoginAction,
    config: map<string, string>, // the credentials section afterwards
    saved: bool)                 // whether the section was written to the file

  predicate TokenPath(c: map<string, string>) {
    TokenKey in c && c[TokenKey] != PlaceholderToken
  }

  predicate CredentialsPath(c: map<string, string>) {
    TokenKey in c && c[TokenKey] == PlaceholderToken
  }

  /** `login` on section `c`, with the typed e-mail, password and prompt
      answers, and the session token the client holds after the
      credentials login. */
  function LoginSpec(c: map<string, string>, email: string, password: string,
                     replies: seq<string>, sessionToken: string): (r: LoginOutcome)
    // any token but the placeholder: announce, then run with exactly that token
    ensures r.action.Issue? && r.action.cmd.RunWithToken? <==> TokenPath(c)
    ensures TokenPath(c) ==> r.action.cmd.token == c[TokenKey] && r.config == c && !r.saved
    ensures r.notices == if TokenPath(c) then [Notice(LoggingInText)] else []
    // the credentials are sent only when AutoLogin is empty and a y/n answer came
    ensures r.action == Issue(LoginWithEmailPassword(email, password)) <==>
              CredentialsPath(c) && AutoLoginKey in c && !Truthy(c[AutoLoginKey]) &&
              FirstYesNo(replies).Some?
    // whichever answer was given, auto-login is switched on and the token stored
    ensures r.saved <==> r.action == Issue(LoginWithEmailPassword(email, password))
    ensures r.saved ==> r.config == c[AutoLoginKey := "True"][TokenKey := sessionToken]
    ensures !r.saved ==> r.config == c
    ensures CredentialsPath(c) && AutoLoginKey in c && Truthy(c[AutoLoginKey]) ==> r.action == PromptedOnly
    ensures r.action.KeyMissing? <==> TokenKey !in c || (CredentialsPath(c) && AutoLoginKey !in c)
    ensures r.config.Keys <= c.Keys + {TokenKey, AutoLoginKey}
  {
    if TokenKey !in c then LoginOutcome([], KeyMissing(TokenKey), c, false)
    else if c[TokenKey] == PlaceholderToken then
      if AutoLoginKey !in c then LoginOutcome([], KeyMissing(AutoLoginKey), c, false)
      else if Truthy(c[AutoLoginKey]) then LoginOutcome([], PromptedOnly, c, false)
      else
        match FirstYesNo(replies)
        case None => LoginOutcome([], ReplyPending, c, false)
        case Some(reply) =>
          var updated := if Truthy(reply) then c[AutoLoginKey := "True"][TokenKey := sessionToken]
                         else c[DeclinedAutoLoginKey := "False"];
          LoginOutcome([], Issue(LoginWithEmailPassword(email, password)), updated, true)
    else LoginOutcome([Notice(LoggingInText)], Issue(RunWithToken(c[TokenKey])), c, false)
  }

  /** Answering `n` to the auto-login question has the same effect as `y`. */
  lemma DeclineStillEnablesAutoLogin(c: map<string, string>, email: string, password: string,
                                      sessionToken: string)
    requires CredentialsPath(c) && AutoLoginKey in c && !Truthy(c[AutoLoginKey])
    ensures LoginSpec(c, email, password, ["n"], sessionToken) ==
            LoginSpec(c, email, password, ["y"], sessionToken)
    ensures LoginSpec(c, email, password, ["n"], sessionToken).config[AutoLoginKey] == "True"
  {
  }

  /** After a credentials login that stored a real token, the next `login`
      takes the token path with that token and asks for nothing. */
  lemma RestartUsesStoredToken(c: map<string, string>, email: string, password: string,
                               replies: seq<string>, sessionToken: string,
                               email': string, password': string, replies': seq<string>,
                               sessionToken': string)
    requires LoginSpec(c, email, password, replies, sessionToken).saved
    requires sessionToken != PlaceholderToken
    ensures var next := LoginSpec(LoginSpec(c, email, password, replies, sessionToken).config,
                                  email', password', replies', sessionToken');
            next.action == Issue(RunWithToken(sessionToken)) &&
            next.notices == [Notice(LoggingInText)] && !next.saved
  {
  }
}
