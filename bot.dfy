/** The bot's database connection as an object whose two tables the three
    reaction handlers update in place. Each handler is one atomic step; a
    transaction works on copies of the tables, so returning before the final
    assignment is the rollback. */
module Bot {
  import opened Types
  import opened Events
  import opened Embeds
  import opened Text
  import opened Sql
  import opened Store
  import opened Handlers

  class Ledger {
    var userBookmarks: Bookmarks
    var bookmarkedMessages: Counts

    function State(): Tables
      reads this
    {
      Tables(userBookmarks, bookmarkedMessages)
    }

    /** A freshly created database: both tables empty. */
    constructor ()
      ensures State() == Empty && Consistent(State())
    {
      userBookmarks := map[];
      bookmarkedMessages := map[];
      EmptyIsConsistent();
    }

    /** reactionAdd. */
    method ReactionAdd(botId: Id, ev: ReactionEvent, io: AddIo) returns (report: Report)
      requires Consistent(State()) && AddFresh(State(), ev, io)
      modifies this
      ensures Transition(State(), report) == OnReactionAdd(old(State()), botId, ev, io)
      ensures Consistent(State())
    {
      AddHandlerKeepsConsistent(State(), botId, ev, io);
      if ev.userId == botId { return Report(Ignored, []); }
      if io.channel.None? { return Report(Aborted, []); }
      var channel := io.channel.value;
      if channel.isDM { return Report(Ignored, []); }
      if ev.emoji != BookmarkEmoji { return Report(Ignored, []); }
      if io.message.None? { return Report(Aborted, []); }
      if !io.userOk { return Report(Aborted, []); }
      if io.guildName.None? { return Report(Aborted, []); }

      var key := UserKey(ev.userId, ev.messageId);
      if !io.lookupOk { return Report(Aborted, []); }
      if key in userBookmarks { return Report(AlreadyBookmarked, []); }

      var link := MessageLink(channel.guildId, ev.channelId, ev.messageId);
      var embed := CreateBookmarkEmbed(io.message.value, io.guildName.value, link);
      if io.dmChannel.None? { return Report(Aborted, []); }
      var dm := io.dmChannel.value;
      var calls := [SendEmbed(dm, embed)];
      if io.sentId.None? { return Report(Aborted, calls); }
      var sent := io.sentId.value;
      // A failure to add the ❌ is only logged.
      calls := calls + [AddReaction(dm, sent, DeleteEmoji)];

      if !io.beginOk { return Report(Aborted, calls); }
      var row := UserBookmark(channel.guildId, ev.channelId, link, sent);
      var inserted := InsertBookmark(userBookmarks, key, row);
      if !io.insertOk || inserted.None? { return Report(Aborted, calls); }
      var counts := UpsertCount(bookmarkedMessages, MessageKey(channel.guildId, ev.messageId),
                                ev.channelId, io.message.value.authorId, link);
      if !io.upsertOk { return Report(Aborted, calls); }
      if !io.commitOk { return Report(Aborted, calls); }
      userBookmarks, bookmarkedMessages := inserted.value, counts;
      report := Report(Committed, calls);
    }

    /** dmReactionAdd. `first` is the row the lookup by (user, copy) returned. */
    method DmReactionAdd(botId: Id, ev: ReactionEvent, io: CopyIo) returns (report: Report, ghost first: UserKey)
      requires Consistent(State())
      modifies this
      ensures PickOk(old(userBookmarks), ev.userId, ev.messageId, first)
      ensures Transition(State(), report) == OnCopyReaction(old(State()), botId, ev, io, first)
      ensures Consistent(State())
    {
      ghost var before := State();
      if CopyMatches(userBookmarks, ev.userId, ev.messageId) == {} {
        first := UserKey(ev.userId, ev.messageId);
      } else {
        first :| first in CopyMatches(userBookmarks, ev.userId, ev.messageId);
      }
      if ev.userId == botId { report := Report(Ignored, []); return; }
      if io.channel.None? { report := Report(Aborted, []); return; }
      var channel := io.channel.value;
      if !channel.isDM { report := Report(Ignored, []); return; }
      if ev.emoji != DeleteEmoji { report := Report(Ignored, []); return; }

      if !io.lookupOk { report := Report(Aborted, []); return; }
      var matches := CopyMatches(userBookmarks, ev.userId, ev.messageId);
      if matches == {} { report := Report(NotFound, []); return; }
      var found :| found in matches;
      first := found;
      var originChannel, originMessage := userBookmarks[found].channelId, found.messageId;

      if !io.beginOk { report := Report(Aborted, []); return; }
      // The decrement's subquery reads the bookmark, so it runs before the delete.
      var counts := DecrementByCopy(userBookmarks, bookmarkedMessages, ev.userId, ev.messageId, found);
      if !io.decrementOk { report := Report(Aborted, []); return; }
      var bookmarks := DeleteByCopy(userBookmarks, ev.userId, ev.messageId);
      if !io.deleteOk { report := Report(Aborted, []); return; }
      counts := PurgeZero(counts);
      if !io.purgeOk { report := Report(Aborted, []); return; }
      if !io.commitOk { report := Report(Aborted, []); return; }
      userBookmarks, bookmarkedMessages := bookmarks, counts;

      // Both calls are made whether or not they fail; failures are only logged.
      report := Report(Committed, [RemoveReaction(originChannel, originMessage, BookmarkEmoji, ev.userId),
                                   DeleteMessage(ev.channelId, ev.messageId)]);
      CopyHandlerKeepsConsistent(before, botId, ev, io, first);
    }

    /** reactionRemove. */
    method ReactionRemove(botId: Id, ev: ReactionEvent, io: RemoveIo) returns (report: Report)
      requires Consistent(State())
      modifies this
      ensures Transition(State(), report) == OnReactionRemove(old(State()), botId, ev, io)
      ensures Consistent(State())
    {
      RemoveHandlerKeepsConsistent(State(), botId, ev, io);
      if ev.userId == botId { return Report(Ignored, []); }
      if io.channel.None? { return Report(Aborted, []); }
      var channel := io.channel.value;
      if channel.isDM { return Report(Ignored, []); }
      if ev.emoji != BookmarkEmoji { return Report(Ignored, []); }

      var key := UserKey(ev.userId, ev.messageId);
      if !io.lookupOk { return Report(Aborted, []); }
      if key !in userBookmarks { return Report(NotFound, []); }
      var dmMessageId := userBookmarks[key].dmMessageId;
      if !io.userOk { return Report(Aborted, []); }
      if io.dmChannel.None? { return Report(Aborted, []); }
      var dm := io.dmChannel.value;

      if !io.beginOk { return Report(Aborted, []); }
      var counts := DecrementByMessage(bookmarkedMessages, ev.messageId);
      if !io.decrementOk { return Report(Aborted, []); }
      var bookmarks := DeleteByMessage(userBookmarks, ev.userId, ev.messageId);
      if !io.deleteOk { return Report(Aborted, []); }
      counts := PurgeZero(counts);
      if !io.purgeOk { return Report(Aborted, []); }
      if !io.commitOk { return Report(Aborted, []); }
      userBookmarks, bookmarkedMessages := bookmarks, counts;

      report := Report(Committed, [DeleteMessage(dm, dmMessageId)]);
    }
  }
}
