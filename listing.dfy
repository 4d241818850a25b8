/** The two listings shown to the user: one numbered line per guild, and one
    `#name` line per text channel of the selected guild. */
module Listing {
  import opened Entities
  import opened Text

  /** The guild lines without their newlines: `"i: name"` for guild `i`. */
  function GuildLabels(gs: seq<Guild>): seq<string> {
    seq(|gs|, i requires 0 <= i < |gs| => NatToString(i) + ": " + gs[i].name)
  }

  /** `'#' + name` for every text channel, in order: the channel lines
      without their newlines, and also the words offered for completion. */
  function ChannelTokens(cs: seq<Channel>): seq<string> {
    seq(|cs|, i requires 0 <= i < |cs| => "#" + cs[i].name)
  }

  predicate GuildNamesOneLine(gs: seq<Guild>) {
    forall i :: 0 <= i < |gs| ==> NoNewline(gs[i].name)
  }

  predicate ChannelNamesOneLine(cs: seq<Channel>) {
    forall i :: 0 <= i < |cs| ==> NoNewline(cs[i].name)
  }

  /** The `+=` loop of `display_guilds`. When no guild name contains a
      newline, the listing has exactly one line per guild, in order, and
      line `i` reads `"i: name"`. */
  method BuildGuildListing(gs: seq<Guild>) returns (listing: string)
    ensures listing == Join(GuildLabels(gs))
    ensures GuildNamesOneLine(gs) ==> Lines(listing) == GuildLabels(gs)
  {
    ghost var labels := GuildLabels(gs);
    listing := "";
    for i := 0 to |gs|
      invariant listing == Join(labels[..i])
    {
      assert labels[..i + 1] == labels[..i] + [labels[i]];
      JoinSnoc(labels[..i], labels[i]);
      listing := listing + (NatToString(i) + ": " + gs[i].name + "\n");
    }
    assert labels[..|gs|] == labels;
    if GuildNamesOneLine(gs) {
      forall i | 0 <= i < |labels| ensures NoNewline(labels[i]) {
        assert labels[i] == NatToString(i) + ": " + gs[i].name;
        assert forall k :: 0 <= k < |NatToString(i)| ==> IsDigit(NatToString(i)[k]);
      }
      LinesOfJoin(labels);
    }
  }

  /** The `+=` loop of `select_channel`. When no channel name contains a
      newline, the listing has exactly one line per text channel, in order,
      and line `i` reads `"#name"`. */
  method BuildChannelListing(cs: seq<Channel>) returns (listing: string)
    ensures listing == Join(ChannelTokens(cs))
    ensures ChannelNamesOneLine(cs) ==> Lines(listing) == ChannelTokens(cs)
  {
    ghost var tokens := ChannelTokens(cs);
    listing := "";
    for i := 0 to |cs|
      invariant listing == Join(tokens[..i])
    {
      assert tokens[..i + 1] == tokens[..i] + [tokens[i]];
      JoinSnoc(tokens[..i], tokens[i]);
      listing := listing + "#" + cs[i].name + "\n";
    }
    assert tokens[..|cs|] == tokens;
    if ChannelNamesOneLine(cs) {
      forall i | 0 <= i < |tokens| ensures NoNewline(tokens[i]) {
        assert tokens[i] == "#" + cs[i].name;
      }
      LinesOfJoin(tokens);
    }
  }
}
