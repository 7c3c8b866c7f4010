/** The guard clauses at the top of the three reaction handlers, as one pure
    classification of an incoming reaction notification. */
module Events {
  import opened Types

  /** discordgo delivers MessageReactionAdd and MessageReactionRemove as two event types. */
  datatype ReactionKind = Added | Removed

  /** The fields of a reaction notification that the handlers read. */
  datatype ReactionEvent = ReactionEvent(userId: Id, channelId: Id, messageId: Id, emoji: string)

  /** What s.Channel answers: whether the channel has type ChannelTypeDM, and its guild.
      Only one-to-one DMs count as DMs; every other channel type is an origin channel. */
  datatype ChannelInfo = ChannelInfo(isDM: bool, guildId: Id)

  datatype Intent = AddInOrigin | RemoveViaCopy | RemoveInOrigin | Ignore

  /** reactionAdd and dmReactionAdd both receive every add; reactionRemove every removal.
      Each handler returns early on the bot's own reactions, then on the wrong channel
      type, then on the wrong glyph; the intent is the handler that gets past its guards. */
  function Classify(botId: Id, kind: ReactionKind, ev: ReactionEvent, isDM: bool): (i: Intent)
    ensures i == AddInOrigin <==>
      kind == Added && ev.userId != botId && !isDM && ev.emoji == BookmarkEmoji
    ensures i == RemoveViaCopy <==>
      kind == Added && ev.userId != botId && isDM && ev.emoji == DeleteEmoji
    ensures i == RemoveInOrigin <==>
      kind == Removed && ev.userId != botId && !isDM && ev.emoji == BookmarkEmoji
  {
    if ev.userId == botId then Ignore
    else match kind
      case Added =>
        if !isDM then (if ev.emoji == BookmarkEmoji then AddInOrigin else Ignore)
        else (if ev.emoji == DeleteEmoji then RemoveViaCopy else Ignore)
      case Removed =>
        if isDM then Ignore
        else if ev.emoji != BookmarkEmoji then Ignore
        else RemoveInOrigin
  }

  /** The bot's own reactions (the ❌ it puts under every copy) reach no handler. */
  lemma BotReactionsIgnored(botId: Id, kind: ReactionKind, ev: ReactionEvent, isDM: bool)
    requires ev.userId == botId
    ensures Classify(botId, kind, ev, isDM) == Ignore
  {
  }

  /** Every glyph other than the two the bot uses is ignored, on every channel. */
  lemma OtherGlyphsIgnored(botId: Id, kind: ReactionKind, ev: ReactionEvent, isDM: bool)
    requires ev.emoji != BookmarkEmoji && ev.emoji != DeleteEmoji
    ensures Classify(botId, kind, ev, isDM) == Ignore
  {
  }

  /** Removing a ❌ from a copy, or removing anything in a DM, does nothing. */
  lemma RemovalsOnlyInOrigin(botId: Id, ev: ReactionEvent, isDM: bool)
    requires isDM || ev.emoji == DeleteEmoji
    ensures Classify(botId, Removed, ev, isDM) == Ignore
  {
  }
}
