/** The meaning of each SQL statement in main.go, on the two tables held as maps.
    A statement that fails returns None; one that cannot fail returns the new table. */
module Sql {
  import opened Types

  type Bookmarks = map<UserKey, UserBookmark>
  type Counts = map<MessageKey, BookmarkedMessage>

  /** INSERT_USER_BOOKMARK_QUERY: refused when (user_id, message_id) is taken. */
  function InsertBookmark(r: Bookmarks, k: UserKey, row: UserBookmark): (r': Option<Bookmarks>)
    ensures r'.None? <==> k in r
    ensures r'.Some? ==> r'.value.Keys == r.Keys + {k} && r'.value[k] == row
    ensures r'.Some? ==> forall k' :: k' in r ==> r'.value[k'] == r[k']
  {
    if k in r then None else Some(r[k := row])
  }

  /** UPDATE_BOOKMARK_COUNT_QUERY: a new row with count 1, or, on a conflict on
      (guild_id, message_id), the old row with its count raised by one. */
  function UpsertCount(c: Counts, k: MessageKey, channelId: Id, authorId: Id, link: string): (c': Counts)
    ensures c'.Keys == c.Keys + {k}
    ensures k in c ==> c'[k] == c[k].(count := c[k].count + 1)
    ensures k !in c ==> c'[k] == BookmarkedMessage(channelId, authorId, link, 1)
    ensures forall k' :: k' in c && k' != k ==> c'[k'] == c[k']
  {
    if k in c then c[k := c[k].(count := c[k].count + 1)]
    else c[k := BookmarkedMessage(channelId, authorId, link, 1)]
  }

  /** UPDATE bookmarked_messages SET bookmark_count = bookmark_count - 1 WHERE message_id = ?:
      every row with that message id, whatever its guild. */
  function DecrementByMessage(c: Counts, messageId: Id): (c': Counts)
    ensures c'.Keys == c.Keys
    ensures forall k :: k in c && k.messageId == messageId ==> c'[k] == c[k].(count := c[k].count - 1)
    ensures forall k :: k in c && k.messageId != messageId ==> c'[k] == c[k]
  {
    map k | k in c :: if k.messageId == messageId then c[k].(count := c[k].count - 1) else c[k]
  }

  /** The user_bookmarks rows that match (user_id, dm_message_id). */
  function CopyMatches(r: Bookmarks, userId: Id, dmMessageId: Id): set<UserKey> {
    set k | k in r && k.userId == userId && r[k].dmMessageId == dmMessageId
  }

  /** `first` is a row the engine may return first for (user_id, dm_message_id). */
  predicate PickOk(r: Bookmarks, userId: Id, dmMessageId: Id, first: UserKey) {
    CopyMatches(r, userId, dmMessageId) != {} ==> first in CopyMatches(r, userId, dmMessageId)
  }

  /** DECREMENT_BOOKMARK_COUNT_QUERY. Its scalar subquery yields the message_id of the
      first matching row; with no matching row it yields NULL, which equals nothing. */
  function DecrementByCopy(r: Bookmarks, c: Counts, userId: Id, dmMessageId: Id, first: UserKey): (c': Counts)
    requires PickOk(r, userId, dmMessageId, first)
    ensures CopyMatches(r, userId, dmMessageId) != {} ==> c' == DecrementByMessage(c, first.messageId)
    ensures CopyMatches(r, userId, dmMessageId) == {} ==> c' == c
  {
    if first in CopyMatches(r, userId, dmMessageId) then DecrementByMessage(c, first.messageId) else c
  }

  /** DELETE_USER_BOOKMARK_QUERY: every row matching (user_id, dm_message_id). */
  function DeleteByCopy(r: Bookmarks, userId: Id, dmMessageId: Id): (r': Bookmarks)
    ensures r'.Keys == r.Keys - CopyMatches(r, userId, dmMessageId)
    ensures forall k :: k in r' ==> r'[k] == r[k]
  {
    map k | k in r && !(k.userId == userId && r[k].dmMessageId == dmMessageId) :: r[k]
  }

  /** DELETE FROM user_bookmarks WHERE user_id = ? AND message_id = ? */
  function DeleteByMessage(r: Bookmarks, userId: Id, messageId: Id): (r': Bookmarks)
    ensures r'.Keys == r.Keys - {UserKey(userId, messageId)}
    ensures forall k :: k in r' ==> r'[k] == r[k]
  {
    r - {UserKey(userId, messageId)}
  }

  /** DELETE_ZERO_BOOKMARKS_QUERY: drop every row whose count is not positive. */
  function PurgeZero(c: Counts): (c': Counts)
    ensures forall k :: k in c' <==> k in c && c[k].count > 0
    ensures forall k :: k in c' ==> c'[k] == c[k]
  {
    map k | k in c && c[k].count > 0 :: c[k]
  }

  /** Why dmReactionAdd decrements before it deletes: once the rows for the copy are
      gone, the decrement's subquery finds nothing and no count changes. */
  lemma DeleteFirstLosesDecrement(r: Bookmarks, c: Counts, userId: Id, dmMessageId: Id, first: UserKey)
    ensures CopyMatches(DeleteByCopy(r, userId, dmMessageId), userId, dmMessageId) == {}
    ensures DecrementByCopy(DeleteByCopy(r, userId, dmMessageId), c, userId, dmMessageId, first) == c
  {
    var r' := DeleteByCopy(r, userId, dmMessageId);
    assert forall k :: k in r' ==> k !in CopyMatches(r, userId, dmMessageId);
  }
}
