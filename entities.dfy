/** The values the navigation state machine works on: guilds, their text
    channels and the messages that arrive for them. The transport client
    owns these objects; the session only refers to them. */
module Entities {

  datatype Option<T> = None | Some(value: T)

  /** A text channel. Channels are compared by `id` when a message arrives. */
  datatype Channel = Channel(id: nat, name: string)

  /** A guild and the text channels it offers, in the client's order. */
  datatype Guild = Guild(id: nat, name: string, textChannels: seq<Channel>)

  /** The author's display name and colour; the colour is an opaque string. */
  datatype Author = Author(displayName: string, color: string)

  datatype Message = Message(author: Author, channelId: nat, content: string)

  /** A command handed to the transport client. */
  datatype Command =
    | RunWithToken(token: string)
    | LoginWithEmailPassword(email: string, password: string)
    | EmitOpenChannel(channel: Option<Channel>)
}
