/** Shared vocabulary of the bookmark bot: ids, the two reaction glyphs, and the
    rows and keys of the two SQLite tables (user_bookmarks, bookmarked_messages). */
module Types {

  datatype Option<T> = None | Some(value: T)

  /** Discord snowflakes travel as strings and are stored in TEXT columns. */
  type Id = string

  /** The bookmark glyph U+1F516 and the delete glyph U+274C. */
  const BookmarkEmoji: string := "\U{1F516}"
  const DeleteEmoji: string := "\U{274C}"

  /** Primary key of user_bookmarks: (user_id, message_id). */
  datatype UserKey = UserKey(userId: Id, messageId: Id)

  /** The other columns of a user_bookmarks row (bookmark_time is a column
      default that nothing reads, so it is not modelled). */
  datatype UserBookmark = UserBookmark(guildId: Id, channelId: Id, messageLink: string, dmMessageId: Id)

  /** Primary key of bookmarked_messages: (guild_id, message_id). */
  datatype MessageKey = MessageKey(guildId: Id, messageId: Id)

  /** The other columns of a bookmarked_messages row; bookmark_count is an SQL INTEGER. */
  datatype BookmarkedMessage = BookmarkedMessage(channelId: Id, authorId: Id, messageLink: string, count: int)
}
