/** The three reaction handlers as transitions of the ledger: for each, the new
    tables and the mutating Discord calls it makes, given what Discord and the
    database answer along the way. */
module Handlers {
  import opened Types
  import opened Events
  import opened Embeds
  import opened Text
  import opened Sql
  import opened Store

  /** The calls that change something on Discord, in the order a handler makes them. */
  datatype Call =
    | SendEmbed(channelId: Id, embed: Embed)
    | AddReaction(channelId: Id, messageId: Id, emoji: string)
    | RemoveReaction(channelId: Id, messageId: Id, emoji: string, userId: Id)
    | DeleteMessage(channelId: Id, messageId: Id)

  /** How a handler ends: Ignored at a guard, Aborted after a failed call (logged),
      AlreadyBookmarked / NotFound on the silent early returns, or Committed. */
  datatype Outcome = Ignored | Aborted | AlreadyBookmarked | NotFound | Committed

  datatype Report = Report(outcome: Outcome, calls: seq<Call>)

  datatype Transition = Transition(tables: Tables, report: Report)

  /** The answers reactionAdd gets, in the order it asks. A None or false is a
      failed call; lookupOk is false when the existence query fails with an error
      other than "no rows". */
  datatype AddIo = AddIo(
    channel: Option<ChannelInfo>,
    message: Option<Message>,
    userOk: bool,
    guildName: Option<string>,
    lookupOk: bool,
    dmChannel: Option<Id>,
    sentId: Option<Id>,
    reactOk: bool,
    beginOk: bool,
    insertOk: bool,
    upsertOk: bool,
    commitOk: bool)

  /** The answers dmReactionAdd gets. */
  datatype CopyIo = CopyIo(
    channel: Option<ChannelInfo>,
    lookupOk: bool,
    beginOk: bool,
    decrementOk: bool,
    deleteOk: bool,
    purgeOk: bool,
    commitOk: bool,
    unreactOk: bool,
    deleteCopyOk: bool)

  /** The answers reactionRemove gets. */
  datatype RemoveIo = RemoveIo(
    channel: Option<ChannelInfo>,
    lookupOk: bool,
    userOk: bool,
    dmChannel: Option<Id>,
    beginOk: bool,
    decrementOk: bool,
    deleteOk: bool,
    purgeOk: bool,
    commitOk: bool,
    deleteCopyOk: bool)

  function Unchanged(t: Tables, outcome: Outcome): Transition {
    Transition(t, Report(outcome, []))
  }

  /** reactionAdd gets as far as sending the copy: every guard passed, every
      lookup succeeded, the bookmark is new and the DM channel was opened. */
  predicate ReachesSend(t: Tables, botId: Id, ev: ReactionEvent, io: AddIo) {
    && io.channel.Some? && Classify(botId, Added, ev, io.channel.value.isDM) == AddInOrigin
    && io.message.Some? && io.userOk && io.guildName.Some? && io.lookupOk
    && UserKey(ev.userId, ev.messageId) !in t.bookmarks
    && io.dmChannel.Some?
  }

  /** reactionAdd: a 🔖 added in a guild channel. The copy is rendered and sent,
      and the ❌ put under it, before the transaction; the transaction stores the
      bookmark with the sent copy's id and upserts the count. */
  function OnReactionAdd(t: Tables, botId: Id, ev: ReactionEvent, io: AddIo): (r: Transition)
    ensures ev.userId == botId ==> r == Unchanged(t, Ignored)
    ensures UserKey(ev.userId, ev.messageId) in t.bookmarks ==> r.tables == t && r.report.calls == []
    ensures r.report.outcome == Committed <==> r.tables != t
    ensures r.report.calls != [] ==> ReachesSend(t, botId, ev, io)
    ensures && ReachesSend(t, botId, ev, io) && io.sentId.Some?
            && io.beginOk && io.insertOk && io.upsertOk && io.commitOk
            ==> r.report.outcome == Committed
    ensures ReachesSend(t, botId, ev, io) ==>
      var link := MessageLink(io.channel.value.guildId, ev.channelId, ev.messageId);
      var send := SendEmbed(io.dmChannel.value, BookmarkEmbed(io.message.value, io.guildName.value, link));
      r.report.calls == if io.sentId.None? then [send]
                        else [send, AddReaction(io.dmChannel.value, io.sentId.value, DeleteEmoji)]
    ensures r.report.outcome == Committed ==>
      && io.channel.Some? && Classify(botId, Added, ev, io.channel.value.isDM) == AddInOrigin
      && io.message.Some? && io.userOk && io.guildName.Some? && io.lookupOk
      && io.dmChannel.Some? && io.sentId.Some?
      && io.beginOk && io.insertOk && io.upsertOk && io.commitOk
      && var g := io.channel.value.guildId;
         var link := MessageLink(g, ev.channelId, ev.messageId);
         var k := UserKey(ev.userId, ev.messageId);
         && k !in t.bookmarks
         && r.tables.bookmarks == t.bookmarks[k := UserBookmark(g, ev.channelId, link, io.sentId.value)]
         && r.tables.messages == UpsertCount(t.messages, MessageKey(g, ev.messageId),
                                             ev.channelId, io.message.value.authorId, link)
         && r.report.calls == [SendEmbed(io.dmChannel.value, BookmarkEmbed(io.message.value, io.guildName.value, link)),
                               AddReaction(io.dmChannel.value, io.sentId.value, DeleteEmoji)]
  {
    var k := UserKey(ev.userId, ev.messageId);
    if ev.userId == botId then Unchanged(t, Ignored)
    else if io.channel.None? then Unchanged(t, Aborted)
    else if Classify(botId, Added, ev, io.channel.value.isDM) != AddInOrigin then Unchanged(t, Ignored)
    else if io.message.None? || !io.userOk || io.guildName.None? || !io.lookupOk then Unchanged(t, Aborted)
    else if k in t.bookmarks then Unchanged(t, AlreadyBookmarked)
    else
      var g := io.channel.value.guildId;
      var link := MessageLink(g, ev.channelId, ev.messageId);
      var embed := BookmarkEmbed(io.message.value, io.guildName.value, link);
      if io.dmChannel.None? then Unchanged(t, Aborted)
      else if io.sentId.None? then Transition(t, Report(Aborted, [SendEmbed(io.dmChannel.value, embed)]))
      else
        var calls := [SendEmbed(io.dmChannel.value, embed), AddReaction(io.dmChannel.value, io.sentId.value, DeleteEmoji)];
        var tx := AddTx(t, k, UserBookmark(g, ev.channelId, link, io.sentId.value), io.message.value.authorId);
        if io.beginOk && io.insertOk && io.upsertOk && io.commitOk && tx.Some?
        then Transition(tx.value, Report(Committed, calls))
        else Transition(t, Report(Aborted, calls))
  }

  /** dmReactionAdd: a ❌ added under a private copy. The bookmark is found by the
      copy's id; after the transaction commits, the owner's 🔖 is taken off the
      origin message and then the copy is deleted. */
  function OnCopyReaction(t: Tables, botId: Id, ev: ReactionEvent, io: CopyIo, first: UserKey): (r: Transition)
    requires PickOk(t.bookmarks, ev.userId, ev.messageId, first)
    ensures ev.userId == botId ==> r == Unchanged(t, Ignored)
    ensures CopyMatches(t.bookmarks, ev.userId, ev.messageId) == {} ==> r.tables == t && r.report.calls == []
    ensures && io.channel.Some? && Classify(botId, Added, ev, io.channel.value.isDM) == RemoveViaCopy
            && io.lookupOk && CopyMatches(t.bookmarks, ev.userId, ev.messageId) != {}
            && io.beginOk && io.decrementOk && io.deleteOk && io.purgeOk && io.commitOk
            ==> r.report.outcome == Committed
    ensures r.report.outcome == Committed <==> r.tables != t
    ensures r.report.outcome != Committed ==> r.report.calls == []
    ensures r.report.outcome == Committed ==>
      && io.channel.Some? && Classify(botId, Added, ev, io.channel.value.isDM) == RemoveViaCopy
      && io.lookupOk && io.beginOk && io.decrementOk && io.deleteOk && io.purgeOk && io.commitOk
      && first in CopyMatches(t.bookmarks, ev.userId, ev.messageId)
      && r.tables == RemoveByCopyTx(t, ev.userId, ev.messageId, first)
      && r.report.calls == [RemoveReaction(t.bookmarks[first].channelId, first.messageId, BookmarkEmoji, ev.userId),
                            DeleteMessage(ev.channelId, ev.messageId)]
  {
    if ev.userId == botId then Unchanged(t, Ignored)
    else if io.channel.None? then Unchanged(t, Aborted)
    else if Classify(botId, Added, ev, io.channel.value.isDM) != RemoveViaCopy then Unchanged(t, Ignored)
    else if !io.lookupOk then Unchanged(t, Aborted)
    else if CopyMatches(t.bookmarks, ev.userId, ev.messageId) == {} then Unchanged(t, NotFound)
    else if !(io.beginOk && io.decrementOk && io.deleteOk && io.purgeOk && io.commitOk) then Unchanged(t, Aborted)
    else
      var t' := RemoveByCopyTx(t, ev.userId, ev.messageId, first);
      assert first !in t'.bookmarks;
      Transition(t', Report(Committed,
        [RemoveReaction(t.bookmarks[first].channelId, first.messageId, BookmarkEmoji, ev.userId),
         DeleteMessage(ev.channelId, ev.messageId)]))
  }

  /** reactionRemove: a 🔖 taken off in a guild channel. The bookmark is found by
      (user, message); after the transaction commits, the copy is deleted from the
      user's DM channel. */
  function OnReactionRemove(t: Tables, botId: Id, ev: ReactionEvent, io: RemoveIo): (r: Transition)
    ensures ev.userId == botId ==> r == Unchanged(t, Ignored)
    ensures UserKey(ev.userId, ev.messageId) !in t.bookmarks ==> r.tables == t && r.report.calls == []
    ensures && io.channel.Some? && Classify(botId, Removed, ev, io.channel.value.isDM) == RemoveInOrigin
            && io.lookupOk && UserKey(ev.userId, ev.messageId) in t.bookmarks && io.userOk && io.dmChannel.Some?
            && io.beginOk && io.decrementOk && io.deleteOk && io.purgeOk && io.commitOk
            ==> r.report.outcome == Committed
    ensures r.report.outcome == Committed <==> r.tables != t
    ensures r.report.outcome != Committed ==> r.report.calls == []
    ensures r.report.outcome == Committed ==>
      && io.channel.Some? && Classify(botId, Removed, ev, io.channel.value.isDM) == RemoveInOrigin
      && io.lookupOk && io.userOk && io.dmChannel.Some?
      && io.beginOk && io.decrementOk && io.deleteOk && io.purgeOk && io.commitOk
      && UserKey(ev.userId, ev.messageId) in t.bookmarks
      && r.tables == RemoveByMessageTx(t, ev.userId, ev.messageId)
      && r.report.calls == [DeleteMessage(io.dmChannel.value, t.bookmarks[UserKey(ev.userId, ev.messageId)].dmMessageId)]
  {
    var k := UserKey(ev.userId, ev.messageId);
    if ev.userId == botId then Unchanged(t, Ignored)
    else if io.channel.None? then Unchanged(t, Aborted)
    else if Classify(botId, Removed, ev, io.channel.value.isDM) != RemoveInOrigin then Unchanged(t, Ignored)
    else if !io.lookupOk then Unchanged(t, Aborted)
    else if k !in t.bookmarks then Unchanged(t, NotFound)
    else if !io.userOk || io.dmChannel.None? then Unchanged(t, Aborted)
    else if !(io.beginOk && io.decrementOk && io.deleteOk && io.purgeOk && io.commitOk) then Unchanged(t, Aborted)
    else
      var t' := RemoveByMessageTx(t, ev.userId, ev.messageId);
      assert k !in t'.bookmarks;
      Transition(t', Report(Committed, [DeleteMessage(io.dmChannel.value, t.bookmarks[k].dmMessageId)]))
  }

  /** A repeated 🔖 notification after a committed add sends no second copy and
      changes nothing, whatever Discord answers the second time. */
  lemma DuplicateAddIsNoop(t: Tables, botId: Id, ev: ReactionEvent, io1: AddIo, io2: AddIo)
    requires OnReactionAdd(t, botId, ev, io1).report.outcome == Committed
    ensures var t1 := OnReactionAdd(t, botId, ev, io1).tables;
      OnReactionAdd(t1, botId, ev, io2).tables == t1 && OnReactionAdd(t1, botId, ev, io2).report.calls == []
  {
  }

  /** A repeated ❌ on a copy whose removal committed finds nothing: no table
      changes and no Discord call. */
  lemma DuplicateCopyRemovalIsNoop(t: Tables, botId: Id, ev: ReactionEvent, io1: CopyIo, io2: CopyIo,
                                   first: UserKey, first2: UserKey)
    requires PickOk(t.bookmarks, ev.userId, ev.messageId, first)
    requires OnCopyReaction(t, botId, ev, io1, first).report.outcome == Committed
    ensures CopyMatches(OnCopyReaction(t, botId, ev, io1, first).tables.bookmarks, ev.userId, ev.messageId) == {}
    ensures var t1 := OnCopyReaction(t, botId, ev, io1, first).tables;
      OnCopyReaction(t1, botId, ev, io2, first2).tables == t1
      && OnCopyReaction(t1, botId, ev, io2, first2).report.calls == []
  {
    DeleteFirstLosesDecrement(t.bookmarks, t.messages, ev.userId, ev.messageId, first);
  }

  /** A repeated removal notification after a committed origin removal changes nothing. */
  lemma DuplicateRemoveIsNoop(t: Tables, botId: Id, ev: ReactionEvent, io1: RemoveIo, io2: RemoveIo)
    requires OnReactionRemove(t, botId, ev, io1).report.outcome == Committed
    ensures var t1 := OnReactionRemove(t, botId, ev, io1).tables;
      OnReactionRemove(t1, botId, ev, io2).tables == t1 && OnReactionRemove(t1, botId, ev, io2).report.calls == []
  {
  }

  /** Taking the 🔖 off the origin message makes Discord report a reaction removal
      by the same user; reactionRemove then finds no bookmark, so the echo of a
      committed removal through the copy changes nothing and calls nothing. */
  lemma UnreactEchoIsNoop(t: Tables, botId: Id, ev: ReactionEvent, io: CopyIo, first: UserKey, io2: RemoveIo)
    requires PickOk(t.bookmarks, ev.userId, ev.messageId, first)
    requires OnCopyReaction(t, botId, ev, io, first).report.outcome == Committed
    ensures var r := OnCopyReaction(t, botId, ev, io, first);
      var echo := ReactionEvent(ev.userId, r.report.calls[0].channelId, r.report.calls[0].messageId, BookmarkEmoji);
      OnReactionRemove(r.tables, botId, echo, io2).tables == r.tables
      && OnReactionRemove(r.tables, botId, echo, io2).report.calls == []
  {
    var r := OnCopyReaction(t, botId, ev, io, first);
    assert UserKey(ev.userId, first.messageId) == first;
    assert first !in r.tables.bookmarks;
  }

  /** The calls made after a commit are advisory: whether removing the 🔖, deleting
      the copy or adding the ❌ fails changes neither the tables nor the outcome. */
  lemma AdvisoryFailuresAreHarmless(t: Tables, botId: Id, ev: ReactionEvent,
                                    a: AddIo, c: CopyIo, first: UserKey, d: RemoveIo, x: bool, y: bool)
    requires PickOk(t.bookmarks, ev.userId, ev.messageId, first)
    ensures OnReactionAdd(t, botId, ev, a.(reactOk := x)) == OnReactionAdd(t, botId, ev, a)
    ensures OnCopyReaction(t, botId, ev, c.(unreactOk := x, deleteCopyOk := y), first)
         == OnCopyReaction(t, botId, ev, c, first)
    ensures OnReactionRemove(t, botId, ev, d.(deleteCopyOk := x)) == OnReactionRemove(t, botId, ev, d)
  {
  }

  /** The Discord guarantees an add relies on (see Store.FreshIds), for the ids this
      add would store. */
  ghost predicate AddFresh(t: Tables, ev: ReactionEvent, io: AddIo) {
    io.channel.Some? && io.sentId.Some? ==>
      FreshIds(t, io.channel.value.guildId, ev.userId, ev.messageId, io.sentId.value)
  }

  lemma AddHandlerKeepsConsistent(t: Tables, botId: Id, ev: ReactionEvent, io: AddIo)
    requires Consistent(t) && AddFresh(t, ev, io)
    ensures Consistent(OnReactionAdd(t, botId, ev, io).tables)
  {
    var r := OnReactionAdd(t, botId, ev, io);
    if r.report.outcome == Committed {
      var g := io.channel.value.guildId;
      var link := MessageLink(g, ev.channelId, ev.messageId);
      AddKeepsConsistent(t, UserKey(ev.userId, ev.messageId),
                         UserBookmark(g, ev.channelId, link, io.sentId.value), io.message.value.authorId);
    }
  }

  lemma CopyHandlerKeepsConsistent(t: Tables, botId: Id, ev: ReactionEvent, io: CopyIo, first: UserKey)
    requires Consistent(t) && PickOk(t.bookmarks, ev.userId, ev.messageId, first)
    ensures Consistent(OnCopyReaction(t, botId, ev, io, first).tables)
  {
    if OnCopyReaction(t, botId, ev, io, first).report.outcome == Committed {
      CopyRemovalKeepsConsistent(t, ev.userId, ev.messageId, first);
    }
  }

  lemma RemoveHandlerKeepsConsistent(t: Tables, botId: Id, ev: ReactionEvent, io: RemoveIo)
    requires Consistent(t)
    ensures Consistent(OnReactionRemove(t, botId, ev, io).tables)
  {
    if OnReactionRemove(t, botId, ev, io).report.outcome == Committed {
      RemoveKeepsConsistent(t, ev.userId, ev.messageId);
    }
  }

  /** One notification handled by one handler, with Discord's and the database's
      answers; for a copy reaction, `first` is the row the lookup returns. */
  datatype Delivery =
    | AddDelivery(ev: ReactionEvent, addIo: AddIo)
    | CopyDelivery(ev: ReactionEvent, copyIo: CopyIo, first: UserKey)
    | RemoveDelivery(ev: ReactionEvent, removeIo: RemoveIo)

  predicate Possible(t: Tables, d: Delivery) {
    d.CopyDelivery? ==> PickOk(t.bookmarks, d.ev.userId, d.ev.messageId, d.first)
  }

  function Deliver(t: Tables, botId: Id, d: Delivery): Transition
    requires Possible(t, d)
  {
    match d
    case AddDelivery(ev, io) => OnReactionAdd(t, botId, ev, io)
    case CopyDelivery(ev, io, first) => OnCopyReaction(t, botId, ev, io, first)
    case RemoveDelivery(ev, io) => OnReactionRemove(t, botId, ev, io)
  }

  /** Each delivery in turn is one Discord and SQLite can produce on the tables
      left by the previous ones. */
  ghost predicate Feasible(t: Tables, botId: Id, ds: seq<Delivery>)
    decreases |ds|
  {
    |ds| == 0 ||
    (&& Possible(t, ds[0])
     && (ds[0].AddDelivery? ==> AddFresh(t, ds[0].ev, ds[0].addIo))
     && Feasible(Deliver(t, botId, ds[0]).tables, botId, ds[1..]))
  }

  /** The tables after handling the deliveries one at a time, in order. */
  ghost function Run(t: Tables, botId: Id, ds: seq<Delivery>): Tables
    requires Feasible(t, botId, ds)
    decreases |ds|
  {
    if |ds| == 0 then t else Run(Deliver(t, botId, ds[0]).tables, botId, ds[1..])
  }

  /** However the notifications interleave and whichever calls fail, a consistent
      ledger stays consistent: every count equals the number of bookmarks of its
      message and none is zero or negative. */
  lemma {:induction false} RunKeepsConsistent(t: Tables, botId: Id, ds: seq<Delivery>)
    requires Consistent(t) && Feasible(t, botId, ds)
    ensures Consistent(Run(t, botId, ds))
    decreases |ds|
  {
    if |ds| > 0 {
      match ds[0] {
        case AddDelivery(ev, io) => AddHandlerKeepsConsistent(t, botId, ev, io);
        case CopyDelivery(ev, io, first) => CopyHandlerKeepsConsistent(t, botId, ev, io, first);
        case RemoveDelivery(ev, io) => RemoveHandlerKeepsConsistent(t, botId, ev, io);
      }
      RunKeepsConsistent(Deliver(t, botId, ds[0]).tables, botId, ds[1..]);
    }
  }

  /** From a new database, after any feasible run, each bookmarked_messages row
      counts exactly the user_bookmarks rows of its guild and message, and is positive. */
  lemma CountsAfterAnyRun(botId: Id, ds: seq<Delivery>)
    requires Feasible(Empty, botId, ds)
    ensures var t := Run(Empty, botId, ds);
      forall k :: k in t.messages ==>
        t.messages[k].count == |Holders(t.bookmarks, k.guildId, k.messageId)| && t.messages[k].count > 0
  {
    EmptyIsConsistent();
    RunKeepsConsistent(Empty, botId, ds);
  }
}
