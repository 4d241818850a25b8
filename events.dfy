/** The events the transport client pushes to the front end and what the
    front end does with each of them. */
module Events {
  import opened Entities

  /** The actions `update` distinguishes, plus every other action string,
      which it ignores. An action string the client sends becomes an event
      through `EventOf`, which yields `Unlisted(a)` only for an `a` outside
      `ListedActions` (`ActionRoundTrip`). */
  datatype Event =
    | LoginInProgress
    | LoginSuccessful
    | LoginIncorrectEmailFormat
    | LoginIncorrectPassword
    | LoginCaptchaRequired
    | MessageArrived(msg: Message)
    | Unlisted(action: string)
  {
    predicate IsLoginFailure() {
      LoginIncorrectEmailFormat? || LoginIncorrectPassword? || LoginCaptchaRequired?
    }
  }

  /** What handling one event leads to: nothing, a notice, the guild
      display (after a banner), another login attempt (after the reason),
      or one rendered message line. */
  datatype Step =
    | NoOutput
    | Notice(text: string)
    | ShowGuilds(banner: string)
    | Relogin(reason: string)
    | Rendered(line: string)

  const LoggingInText := "Logging in..."
  const LoggedInText := "You are logged in."
  const BadEmailText := "Not a well formed email address."
  const BadPasswordText := "Password is incorrect."
  const CaptchaText := "Captcha required.\n" +
                       "Please login through the Discord web client first.\n" +
                       "https://discordapp.com/login"

  const ListedActions: set<string> := {
    "login_in_progress", "login_successful", "login_incorrect_email_format",
    "login_incorrect_password", "login_captcha_required", "message"
  }

  /** The action string and payload `update` receives, as an event. */
  function EventOf(action: string, data: Message): Event {
    if action == "login_in_progress" then LoginInProgress
    else if action == "login_successful" then LoginSuccessful
    else if action == "login_incorrect_email_format" then LoginIncorrectEmailFormat
    else if action == "login_incorrect_password" then LoginIncorrectPassword
    else if action == "login_captcha_required" then LoginCaptchaRequired
    else if action == "message" then MessageArrived(data)
    else Unlisted(action)
  }

  /** The action string the client sends for an event. */
  function ActionOf(e: Event): string {
    match e
    case LoginInProgress => "login_in_progress"
    case LoginSuccessful => "login_successful"
    case LoginIncorrectEmailFormat => "login_incorrect_email_format"
    case LoginIncorrectPassword => "login_incorrect_password"
    case LoginCaptchaRequired => "login_captcha_required"
    case MessageArrived(_) => "message"
    case Unlisted(a) => a
  }

  /** Every action string is recovered from its event, and an action string
      is ignored exactly when it is none of the six listed ones. */
  lemma ActionRoundTrip(action: string, data: Message)
    ensures ActionOf(EventOf(action, data)) == action
    ensures EventOf(action, data).Unlisted? <==> action !in ListedActions
  {
  }

  /** Every event other than an ignored action that collides with a listed
      name is recovered from its action string. */
  lemma EventRoundTrip(e: Event, data: Message)
    requires e.MessageArrived? ==> data == e.msg
    requires e.Unlisted? ==> e.action !in ListedActions
    ensures EventOf(ActionOf(e), data) == e
  {
  }

  /** A message is shown only while a channel is selected, that channel has
      the message's channel id, and the channel is open. */
  predicate InScope(current: Option<Channel>, open: bool, m: Message) {
    current.Some? && current.value.id == m.channelId && open
  }
}
