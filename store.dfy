/** The bookmark ledger as a value: both tables, the consistency invariant the
    handlers maintain, and the effect of each committed transaction. */
module Store {
  import opened Types
  import opened Sql

  datatype Tables = Tables(bookmarks: Bookmarks, messages: Counts)

  /** A database created by CREATE TABLE IF NOT EXISTS on an empty file. */
  const Empty: Tables := Tables(map[], map[])

  /** The user_bookmarks rows that the bookmarked_messages row (guildId, messageId) counts. */
  ghost function Holders(r: Bookmarks, guildId: Id, messageId: Id): set<UserKey> {
    set k | k in r && k.messageId == messageId && r[k].guildId == guildId
  }

  /** Each stored count is the number of users holding that bookmark. */
  ghost predicate CountsMatch(t: Tables) {
    forall k :: k in t.messages ==>
      t.messages[k].count == |Holders(t.bookmarks, k.guildId, k.messageId)|
  }

  /** No stored count is zero or negative. */
  ghost predicate CountsPositive(t: Tables) {
    forall k :: k in t.messages ==> t.messages[k].count > 0
  }

  /** Every bookmark is counted by the row of its guild and message. */
  ghost predicate Counted(t: Tables) {
    forall k :: k in t.bookmarks ==> MessageKey(t.bookmarks[k].guildId, k.messageId) in t.messages
  }

  /** A message id has rows in one guild only (Discord message ids are global). */
  ghost predicate OneGuildPerMessage(t: Tables) {
    forall k1, k2 :: k1 in t.messages && k2 in t.messages && k1.messageId == k2.messageId ==> k1 == k2
  }

  /** No user has two bookmarks sharing one private copy. */
  ghost predicate CopiesDistinct(t: Tables) {
    forall k1, k2 ::
      (k1 in t.bookmarks && k2 in t.bookmarks && k1.userId == k2.userId
       && t.bookmarks[k1].dmMessageId == t.bookmarks[k2].dmMessageId) ==> k1 == k2
  }

  ghost predicate Consistent(t: Tables) {
    CountsMatch(t) && CountsPositive(t) && Counted(t) && OneGuildPerMessage(t) && CopiesDistinct(t)
  }

  /** What Discord guarantees about a new bookmark: the message is not already
      counted under another guild, and the copy just sent has an id no bookmark of
      that user carries. */
  ghost predicate FreshIds(t: Tables, guildId: Id, userId: Id, messageId: Id, dmMessageId: Id) {
    && (forall k :: k in t.messages && k.messageId == messageId ==> k.guildId == guildId)
    && CopyMatches(t.bookmarks, userId, dmMessageId) == {}
  }

  /** reactionAdd's transaction: insert the bookmark, then upsert the count. None
      when the insert violates the primary key, which rolls the transaction back. */
  function AddTx(t: Tables, k: UserKey, row: UserBookmark, authorId: Id): (r: Option<Tables>)
    ensures r.None? <==> k in t.bookmarks
  {
    match InsertBookmark(t.bookmarks, k, row)
    case None => None
    case Some(b) =>
      Some(Tables(b, UpsertCount(t.messages, MessageKey(row.guildId, k.messageId),
                                 row.channelId, authorId, row.messageLink)))
  }

  /** reactionRemove's transaction: decrement, delete, purge. */
  function RemoveByMessageTx(t: Tables, userId: Id, messageId: Id): Tables {
    Tables(DeleteByMessage(t.bookmarks, userId, messageId),
           PurgeZero(DecrementByMessage(t.messages, messageId)))
  }

  /** dmReactionAdd's transaction: decrement (through the subquery, while the
      bookmark is still there), delete, purge. */
  function RemoveByCopyTx(t: Tables, userId: Id, dmMessageId: Id, first: UserKey): Tables
    requires PickOk(t.bookmarks, userId, dmMessageId, first)
  {
    Tables(DeleteByCopy(t.bookmarks, userId, dmMessageId),
           PurgeZero(DecrementByCopy(t.bookmarks, t.messages, userId, dmMessageId, first)))
  }

  /** Every user_bookmarks row for messageId, whatever its guild. */
  ghost function MessageHolders(r: Bookmarks, messageId: Id): set<UserKey> {
    set k | k in r && k.messageId == messageId
  }

  /** In a consistent ledger the count of a message is the number of bookmarks of
      that message: the guild in the key adds nothing, since a message is counted
      in one guild only. */
  lemma CountIsBookmarksOfMessage(t: Tables)
    requires Consistent(t)
    ensures forall k :: k in t.messages ==>
      t.messages[k].count == |MessageHolders(t.bookmarks, k.messageId)|
  {
    forall k | k in t.messages
      ensures t.messages[k].count == |MessageHolders(t.bookmarks, k.messageId)|
    {
      forall b | b in MessageHolders(t.bookmarks, k.messageId)
        ensures b in Holders(t.bookmarks, k.guildId, k.messageId)
      {
        assert MessageKey(t.bookmarks[b].guildId, b.messageId) in t.messages;
      }
      assert Holders(t.bookmarks, k.guildId, k.messageId) == MessageHolders(t.bookmarks, k.messageId);
    }
  }

  lemma EmptyIsConsistent()
    ensures Consistent(Empty)
  {
  }

  lemma HoldersAfterInsert(r: Bookmarks, k: UserKey, row: UserBookmark, guildId: Id, messageId: Id)
    requires k !in r
    ensures Holders(r[k := row], guildId, messageId)
         == if row.guildId == guildId && k.messageId == messageId
            then Holders(r, guildId, messageId) + {k}
            else Holders(r, guildId, messageId)
  {
  }

  lemma HoldersAfterDelete(r: Bookmarks, key: UserKey, guildId: Id, messageId: Id)
    ensures Holders(r - {key}, guildId, messageId) == Holders(r, guildId, messageId) - {key}
  {
  }

  lemma AddKeepsCounts(t: Tables, k: UserKey, row: UserBookmark, authorId: Id)
    requires Consistent(t) && k !in t.bookmarks
    ensures AddTx(t, k, row, authorId).Some?
    ensures CountsMatch(AddTx(t, k, row, authorId).value)
    ensures CountsPositive(AddTx(t, k, row, authorId).value)
  {
    var t' := AddTx(t, k, row, authorId).value;
    var mk := MessageKey(row.guildId, k.messageId);
    assert t'.bookmarks == t.bookmarks[k := row];
    assert t'.messages == UpsertCount(t.messages, mk, row.channelId, authorId, row.messageLink);
    forall k' | k' in t'.messages
      ensures t'.messages[k'].count == |Holders(t'.bookmarks, k'.guildId, k'.messageId)|
    {
      HoldersAfterInsert(t.bookmarks, k, row, k'.guildId, k'.messageId);
      var before := Holders(t.bookmarks, k'.guildId, k'.messageId);
      if k' == mk {
        assert k !in before;
        if mk !in t.messages {
          assert before == {};
        }
      } else {
        assert k' in t.messages;
      }
    }
    forall k' | k' in t'.messages
      ensures t'.messages[k'].count > 0
    {
      if k' != mk {
        assert k' in t.messages;
      }
    }
  }

  lemma AddKeepsKeys(t: Tables, k: UserKey, row: UserBookmark, authorId: Id)
    requires Consistent(t) && k !in t.bookmarks
    requires FreshIds(t, row.guildId, k.userId, k.messageId, row.dmMessageId)
    ensures AddTx(t, k, row, authorId).Some?
    ensures Counted(AddTx(t, k, row, authorId).value)
    ensures OneGuildPerMessage(AddTx(t, k, row, authorId).value)
  {
    var t' := AddTx(t, k, row, authorId).value;
    var mk := MessageKey(row.guildId, k.messageId);
    assert t'.bookmarks == t.bookmarks[k := row];
    assert t'.messages == UpsertCount(t.messages, mk, row.channelId, authorId, row.messageLink);
  }

  lemma AddKeepsCopiesDistinct(t: Tables, k: UserKey, row: UserBookmark, authorId: Id)
    requires Consistent(t) && k !in t.bookmarks
    requires FreshIds(t, row.guildId, k.userId, k.messageId, row.dmMessageId)
    ensures AddTx(t, k, row, authorId).Some?
    ensures CopiesDistinct(AddTx(t, k, row, authorId).value)
  {
    var t' := AddTx(t, k, row, authorId).value;
    assert t'.bookmarks == t.bookmarks[k := row];
    assert forall k2 :: k2 in t.bookmarks && k2.userId == k.userId ==>
      k2 !in CopyMatches(t.bookmarks, k.userId, row.dmMessageId);
    forall k1, k2 | k1 in t'.bookmarks && k2 in t'.bookmarks && k1.userId == k2.userId
        && t'.bookmarks[k1].dmMessageId == t'.bookmarks[k2].dmMessageId
      ensures k1 == k2
    {
      assert k1 == k ==> k2 == k;
      assert k2 == k ==> k1 == k;
      if k1 != k {
        assert t'.bookmarks[k1] == t.bookmarks[k1] && t'.bookmarks[k2] == t.bookmarks[k2];
      }
    }
  }

  /** A committed add keeps the ledger consistent: the (guild, message) row is
      created with count 1 or raised by exactly 1, and no other row changes. */
  lemma AddKeepsConsistent(t: Tables, k: UserKey, row: UserBookmark, authorId: Id)
    requires Consistent(t) && k !in t.bookmarks
    requires FreshIds(t, row.guildId, k.userId, k.messageId, row.dmMessageId)
    ensures AddTx(t, k, row, authorId).Some?
    ensures Consistent(AddTx(t, k, row, authorId).value)
    ensures var t', mk := AddTx(t, k, row, authorId).value, MessageKey(row.guildId, k.messageId);
      && mk in t'.messages
      && t'.messages[mk].count == (if mk in t.messages then t.messages[mk].count + 1 else 1)
      && (forall k' :: k' in t.messages && k' != mk ==> k' in t'.messages && t'.messages[k'] == t.messages[k'])
  {
    AddKeepsCounts(t, k, row, authorId);
    AddKeepsKeys(t, k, row, authorId);
    AddKeepsCopiesDistinct(t, k, row, authorId);
  }

  lemma RemoveKeepsCounts(t: Tables, userId: Id, messageId: Id)
    requires Consistent(t) && UserKey(userId, messageId) in t.bookmarks
    ensures CountsMatch(RemoveByMessageTx(t, userId, messageId))
    ensures CountsPositive(RemoveByMessageTx(t, userId, messageId))
  {
    var key := UserKey(userId, messageId);
    var t' := RemoveByMessageTx(t, userId, messageId);
    var mk := MessageKey(t.bookmarks[key].guildId, messageId);
    assert t'.bookmarks == t.bookmarks - {key};
    assert t'.messages == PurgeZero(DecrementByMessage(t.messages, messageId));
    assert forall k' :: k' in t.messages && k'.messageId == messageId ==> k' == mk;
    assert key in Holders(t.bookmarks, mk.guildId, mk.messageId);
    forall k' | k' in t'.messages
      ensures t'.messages[k'].count == |Holders(t'.bookmarks, k'.guildId, k'.messageId)|
    {
      HoldersAfterDelete(t.bookmarks, key, k'.guildId, k'.messageId);
    }
  }

  lemma RemoveKeepsKeys(t: Tables, userId: Id, messageId: Id)
    requires Consistent(t) && UserKey(userId, messageId) in t.bookmarks
    ensures Counted(RemoveByMessageTx(t, userId, messageId))
  {
    var key := UserKey(userId, messageId);
    var t' := RemoveByMessageTx(t, userId, messageId);
    var mk := MessageKey(t.bookmarks[key].guildId, messageId);
    var dec := DecrementByMessage(t.messages, messageId);
    assert t'.bookmarks == t.bookmarks - {key};
    assert t'.messages == PurgeZero(dec);
    assert forall k' :: k' in t.messages && k'.messageId == messageId ==> k' == mk;
    forall h | h in t'.bookmarks
      ensures MessageKey(t'.bookmarks[h].guildId, h.messageId) in t'.messages
    {
      var hk := MessageKey(t.bookmarks[h].guildId, h.messageId);
      assert t'.bookmarks[h] == t.bookmarks[h];
      if hk == mk {
        var held := Holders(t.bookmarks, mk.guildId, mk.messageId);
        assert h in held && key in held && h != key;
        SubsetCard({h, key}, held);
        assert dec[mk].count == t.messages[mk].count - 1 >= 1;
      }
    }
  }

  lemma RemoveKeepsUniqueness(t: Tables, userId: Id, messageId: Id)
    requires Consistent(t)
    ensures OneGuildPerMessage(RemoveByMessageTx(t, userId, messageId))
    ensures CopiesDistinct(RemoveByMessageTx(t, userId, messageId))
  {
    var t' := RemoveByMessageTx(t, userId, messageId);
    assert t'.messages.Keys <= t.messages.Keys;
    assert t'.bookmarks == t.bookmarks - {UserKey(userId, messageId)};
  }

  /** A committed origin removal keeps the ledger consistent: the bookmark's row
      loses exactly 1 and is purged when that was its last holder; no other row
      changes. */
  lemma RemoveKeepsConsistent(t: Tables, userId: Id, messageId: Id)
    requires Consistent(t) && UserKey(userId, messageId) in t.bookmarks
    ensures Consistent(RemoveByMessageTx(t, userId, messageId))
    ensures var t', mk := RemoveByMessageTx(t, userId, messageId),
                          MessageKey(t.bookmarks[UserKey(userId, messageId)].guildId, messageId);
      && mk in t.messages
      && (if t.messages[mk].count > 1
          then mk in t'.messages && t'.messages[mk].count == t.messages[mk].count - 1
          else mk !in t'.messages)
      && (forall k' :: k' in t.messages && k' != mk ==> k' in t'.messages && t'.messages[k'] == t.messages[k'])
  {
    RemoveKeepsCounts(t, userId, messageId);
    RemoveKeepsKeys(t, userId, messageId);
    RemoveKeepsUniqueness(t, userId, messageId);
    var mk := MessageKey(t.bookmarks[UserKey(userId, messageId)].guildId, messageId);
    assert forall k' :: k' in t.messages && k'.messageId == messageId ==> k' == mk;
  }

  lemma SubsetCard<T>(a: set<T>, b: set<T>)
    requires a <= b
    ensures |a| <= |b|
  {
    assert b == a + (b - a);
  }

  /** In a consistent ledger a copy belongs to one bookmark, so removing through the
      copy is removing that bookmark from its origin message. */
  lemma CopyRemovalIsOriginRemoval(t: Tables, userId: Id, dmMessageId: Id, first: UserKey)
    requires Consistent(t) && first in CopyMatches(t.bookmarks, userId, dmMessageId)
    ensures first == UserKey(userId, first.messageId)
    ensures RemoveByCopyTx(t, userId, dmMessageId, first) == RemoveByMessageTx(t, userId, first.messageId)
  {
    assert CopyMatches(t.bookmarks, userId, dmMessageId) == {first};
    assert DeleteByCopy(t.bookmarks, userId, dmMessageId) == DeleteByMessage(t.bookmarks, userId, first.messageId);
  }

  /** A committed removal through the copy keeps the ledger consistent and
      decrements the origin message's count by exactly one. */
  lemma CopyRemovalKeepsConsistent(t: Tables, userId: Id, dmMessageId: Id, first: UserKey)
    requires Consistent(t) && first in CopyMatches(t.bookmarks, userId, dmMessageId)
    ensures Consistent(RemoveByCopyTx(t, userId, dmMessageId, first))
    ensures var t', mk := RemoveByCopyTx(t, userId, dmMessageId, first),
                          MessageKey(t.bookmarks[first].guildId, first.messageId);
      && mk in t.messages
      && (if t.messages[mk].count > 1
          then mk in t'.messages && t'.messages[mk].count == t.messages[mk].count - 1
          else mk !in t'.messages)
      && (forall k' :: k' in t.messages && k' != mk ==> k' in t'.messages && t'.messages[k'] == t.messages[k'])
  {
    CopyRemovalIsOriginRemoval(t, userId, dmMessageId, first);
    RemoveKeepsConsistent(t, userId, first.messageId);
  }

  /** Two users bookmark one message: its count is 2. The first then removes the
      bookmark from the origin channel: the count is 1 and only the second
      user's bookmark is left. */
  lemma TwoBookmarksOneRemoved(guildId: Id, channelId: Id, messageId: Id, authorId: Id, link: string,
                               u1: Id, u2: Id, dm1: Id, dm2: Id)
    requires u1 != u2
    ensures var row1, row2 := UserBookmark(guildId, channelId, link, dm1), UserBookmark(guildId, channelId, link, dm2);
      var mk := MessageKey(guildId, messageId);
      var t1 := AddTx(Empty, UserKey(u1, messageId), row1, authorId);
      && t1.Some?
      && var t2 := AddTx(t1.value, UserKey(u2, messageId), row2, authorId);
      && t2.Some?
      && mk in t2.value.messages && t2.value.messages[mk].count == 2
      && var t3 := RemoveByMessageTx(t2.value, u1, messageId);
      && mk in t3.messages && t3.messages[mk].count == 1
      && t3.bookmarks == map[UserKey(u2, messageId) := row2]
  {
    var row1, row2 := UserBookmark(guildId, channelId, link, dm1), UserBookmark(guildId, channelId, link, dm2);
    var t1 := AddTx(Empty, UserKey(u1, messageId), row1, authorId).value;
    var t2 := AddTx(t1, UserKey(u2, messageId), row2, authorId).value;
    assert t2.bookmarks == map[UserKey(u1, messageId) := row1, UserKey(u2, messageId) := row2];
  }

  /** One bookmark, removed through its copy: the bookmark is gone and the
      message's count row is purged. */
  lemma OneBookmarkRemovedByCopy(guildId: Id, channelId: Id, messageId: Id, authorId: Id, link: string,
                                 u: Id, dm: Id)
    ensures var key, row := UserKey(u, messageId), UserBookmark(guildId, channelId, link, dm);
      var t1 := AddTx(Empty, key, row, authorId);
      && t1.Some?
      && t1.value.messages[MessageKey(guildId, messageId)].count == 1
      && CopyMatches(t1.value.bookmarks, u, dm) == {key}
      && RemoveByCopyTx(t1.value, u, dm, key) == Empty
  {
    var key, row := UserKey(u, messageId), UserBookmark(guildId, channelId, link, dm);
    var t1 := AddTx(Empty, key, row, authorId).value;
    assert t1.bookmarks == map[key := row];
    assert CopyMatches(t1.bookmarks, u, dm) == {key};
    var t2 := RemoveByCopyTx(t1, u, dm, key);
    assert t2.bookmarks == map[];
    assert t2.messages == map[];
  }
}
