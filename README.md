# Disclipy terminal front end: session and navigation model

Disclipy is a terminal client for Discord. Its front end, the class `CLI`, keeps
three pieces of navigation state: the selected guild, the selected text
channel, and whether that channel is open for display. It receives events from
the transport client as action strings (login outcomes and arriving messages)
and decides what the user sees next: a login prompt, the guild list, or one
rendered message line. Before anything else, it chooses between a token login
and a credentials login from the configuration.

This project models that state machine in Dafny and proves its properties:

- `Entities`: guilds, text channels, authors, messages, and the commands handed to the client.
- `Text`: decimal numerals and newline-terminated line lists, with their inverses (`ParseNat`, `Lines`).
- `Markup`: `xml.sax.saxutils.escape` as three chained replacements, its per-character reference, the decoding of the three entities, and the rendered message line.
- `Listing`: the `+=` loops that build the guild listing and the channel listing.
- `Events`: the closed `Event` type that replaces the action strings, the mapping between the two, the `Step` a handled event leads to, and the message-scoping predicate.
- `Login`: the routing decision of `login` as a function of the credentials section, and the loop that reads the y/n answer.
- `Navigation`: the class `Session` with one method per transition (`OpenChannel`, `SelectGuild`, `SelectChannel`, `DisplayGuilds`, `Update`, `Login`), and the lemmas about the channel-selection loop.
- `Walkthrough`: client methods that drive a session through concrete inputs and check the outcome from the contracts.

Inputs the original reads from the terminal are parameters:

- the guild index and the channel token typed at the prompts;
- the e-mail address, the password and the answers to the y/n question.

The guild list and the token the client holds after a credentials login are
also parameters. Outputs are returned values:

- the listings as strings;
- the completion words;
- a `Step` for each handled event;
- a `Command` for each request to the client (run with a token, log in with e-mail and password, announce the opened channel).

The credentials section of the configuration is a `map<string, string>` field
of the session. Its keys are option names as configparser stores them, folded to
lower case; the code's lookups and writes go through the same folding
(`Login.OptionKey`), so `Token` and `token` in the file are the same option.

Behaviour of the code that the model keeps as written:

- `select_channel` opens the channel even when no channel has the selected name. So `channelOpen` true does not imply that a channel is selected: a fresh session given an unmatched selection is open with no channel (`Walkthrough.UnmatchedSelection`). No message is rendered in that state.
- `channelOpen` is false at construction and only `OpenChannel` writes it, always to true. No method sets it back.
- The y/n answer is always a non-empty string, so `if auto_login:` always holds. Answering `n` still switches auto-login on and stores the token (`Login.DeclineStillEnablesAutoLogin`). The branch that writes `Autologin` = `False` can never run. configparser folds option names to lower case, so `Autologin` there is the same option as `AutoLogin` (`Login.DeclinedKeyIsAutoLogin`).
- configparser returns strings, so `if not ...['AutoLogin']` is true only for an empty value; the value `False` in the file counts as true. With the placeholder token and a non-empty `AutoLogin`, `login` reads the e-mail and password and then does nothing else (`PromptedOnly`). The credentials login and the configuration write happen only when `AutoLogin` is empty.
- A missing `Token` or `AutoLogin` option raises `KeyError` in the code; the model returns `KeyMissing(key)`.
- A message line is `<_ fg="COLOR">NAME</_>> CONTENT`. Only the content is escaped; the author's name and colour are inserted as they are.

## Model

| member | source | states |
|---|---|---|
| Navigation.Session.constructor | src/CLI.py:24-26 | no guild, no channel, channel not open; configuration as given |
| Navigation.Session.OpenChannel | src/CLI.py:53-56 | sets `channelOpen` to true and nothing else; announces the current channel to the client |
| Navigation.Session.SelectGuild | src/CLI.py:66-75 | for an index in range, the current guild becomes `guilds[i]`; the channel fields do not change; banner `Connected to <name>` |
| Navigation.Session.SelectChannel | src/CLI.py:78-99 | without a guild nothing changes and nothing is shown; otherwise shows the `#name` listing and completion words, the current channel becomes the last text channel whose name is the selection minus its first character (unchanged when none matches), and the channel is open in both cases |
| Navigation.Session.DisplayGuilds | src/CLI.py:58-64 | the guild listing is the numbered lines of the guilds, followed by the effects of the guild prompt and then the channel prompt |
| Navigation.Session.Update | src/CLI.py:101-134 | changes nothing; renders exactly when the message's channel id is the current channel's and the channel is open, and the line is the author tag plus the escaped content; each of the three login failures, and only they, leads to a new login with its reason; only a successful login leads to the guild display; the in-progress notice is `Logging in...`; unlisted actions do nothing |
| Navigation.Session.Login | src/CLI.py:28-51 | the notices, the action and the new credentials section are those of `Login.LoginSpec`; only the configuration may change |
| Navigation.LastMatchNone | src/CLI.py:95-97 | when no text channel has the selected name, the current channel is kept |
| Navigation.LastMatchAt | src/CLI.py:95-97 | when channel `j` has the name and no later channel has it, channel `j` is selected (the last match wins) |
| Navigation.TokenSelectsChannel | src/CLI.py:89-97 | entering the completion word for channel `j` selects channel `j` unless a later channel has the same name |
| Login.LoginSpec | src/CLI.py:28-51 | any token other than `placeholder_token` announces `Logging in...` and runs with exactly that token, without changing the configuration; the placeholder never leads to a token run; the credentials are sent exactly when `AutoLogin` is empty and a y/n answer came, and then `AutoLogin` becomes `True`, `Token` becomes the session token and the section is written; with a non-empty `AutoLogin` nothing follows the prompts; missing options are reported; no option other than `token` and `autologin` is ever written |
| Login.FirstYesNo | src/CLI.py:35-37 | the accepted answer is `y` or `n` and is the first such answer given (every earlier answer was rejected); there is none exactly when every answer was rejected |
| Login.TokenKeyFolded | src/CLI.py:30 | the option `Token` is looked up under its folded name `token` |
| Login.AutoLoginKeyFolded | src/CLI.py:34 | the option `AutoLogin` is looked up under its folded name `autologin` |
| Login.DeclinedKeyIsAutoLogin | src/CLI.py:42-45 | `Autologin`, as spelt in the unreachable branch, names the same option as `AutoLogin` |
| Login.ReadReply | src/CLI.py:35-37 | the prompt loop returns the first `y`/`n` answer (that of `FirstYesNo`) and how many answers it took: the last one consumed is the accepted one and every one before it was rejected; when none is accepted it has consumed them all |
| Login.DeclineStillEnablesAutoLogin | src/CLI.py:36-45 | answering `n` has the same outcome as answering `y`, including `AutoLogin` set to `True` |
| Login.RestartUsesStoredToken | src/CLI.py:30-51 | after a credentials login that stored a real token, the next login runs with that token and prompts for nothing |
| Listing.BuildGuildListing | src/CLI.py:58-61 | the listing is the guild labels, each followed by a newline; when no name contains a newline it has exactly one line per guild, in order, and line `i` reads `i: name` |
| Listing.BuildChannelListing | src/CLI.py:80-84 | the listing is the `#name` tokens, each followed by a newline; when no name contains a newline it has exactly one line per text channel, in order, each `#name` |
| Text.NatToString | src/CLI.py:61 | a guild index is written as a non-empty string of digits without leading zeros |
| Text.DecimalRoundTrip | src/CLI.py:61-69 | reading back the index printed on a guild's line gives that index |
| Text.LinesOfJoin | src/CLI.py:58-61 | splitting newline-terminated, newline-free lines gives back exactly those lines |
| Markup.EscapeIsPerCharacter | src/CLI.py:133 | the three chained replacements of `escape` amount to escaping each character on its own (`&`, `<`, `>`) |
| Markup.EscapedHasNoTags | src/CLI.py:133 | escaped content contains neither `<` nor `>` |
| Markup.UnescapeEscape | src/CLI.py:129-133 | decoding the three entities in escaped content gives the content back |
| Markup.RenderLineParts | src/CLI.py:129-134 | a message line is the unescaped author tag followed by text without tag delimiters that decodes to the message content |
| Events.ActionRoundTrip | src/CLI.py:101-125 | every action string is recovered from its event, and an action is ignored exactly when it is none of the six handled ones |
| Events.EventRoundTrip | src/CLI.py:101-125 | every handled event is recovered from its action string |

## Left out

- Terminal I/O is not modelled: prompting, completion, password entry, screen clearing, colours, the pager and HTML formatting. Prompts become parameters and output becomes returned strings and steps. Only the banner texts and the rendered line are kept.
- The input validators `JoinableGuildListValidator` and `JoinableChannelListValidator` are not part of this model. The guild validator is the precondition `0 <= selection < |guilds|` of `SelectGuild` and `DisplayGuilds`; the code would otherwise re-prompt or raise `IndexError`. With no guilds at all, `display_guilds` shows an empty listing and then waits at the guild prompt without end; `DisplayGuilds` cannot be called then. The channel selection needs no precondition: the selection loop is defined for any string.
- The `DiscordClient` transport is not part of this model. Its login calls, its run loop, `emit` and its guild list become `Command` values and parameters, and `session_token` is a parameter of `Login`.
- Writing the configuration file is I/O. The model returns `saved` and the new section instead.
- Asynchronous delivery and observer registration are left out. Events are handled one at a time by `Update`.
- The calls `update` makes after an event are returned as a `Step` for the caller: `display_guilds` after a successful login, `login` after a failure. This breaks the mutual recursion `update → login → … → update`, which runs through network callbacks.
- The call to `select_channel` at the end of `select_guild` (src/CLI.py:76) is made by `DisplayGuilds` right after `SelectGuild` returns. The order of effects is the same.
- The author's colour goes into the line through `str(msg.author.color)`. Here it is an opaque string, and no terminal colour code is modelled.
- The markup parse of the rendered line is left out. prompt_toolkit's `HTML` (src/CLI.py:129) parses the whole line as XML. It raises on an author name containing `&` or `<` or a colour containing `"`, rejects characters XML forbids, and turns `\r` into `\n`. In all of these cases the model still returns `Rendered(line)`; `Unescape` decodes only the three entities `escape` produces.
- Option names are folded to lower case for ASCII letters only; configparser's `str.lower` also folds other letters.
