# Bookmark bot ledger: a Dafny model

This models the core of a Discord bot that bookmarks messages. A member reacts
with 🔖 on a message in a guild channel. The bot then sends that member a private
copy of the message as an embed and records the bookmark in SQLite. It also keeps
a per-message count of how many members bookmarked it. The bookmark is removed in
one of two ways: the member reacts with ❌ on the private copy, or takes the 🔖 off
the original message. Either way the count is decremented and the copy deleted.

The model has three parts.

- **The ledger.** The two tables, `user_bookmarks` keyed by (user, message) and
  `bookmarked_messages` keyed by (guild, message), are two map fields of the
  class `Bot.Ledger`. The three handlers `reactionAdd`, `dmReactionAdd` and
  `reactionRemove` are its methods. Every Discord or database call is an input:
  an `Option` for calls that return something, a `bool` for calls that only
  succeed or fail. A transaction works on copies of the tables, and returning
  before the final assignment is its rollback. Each method is proved equal to a
  pure transition (`Handlers.OnReactionAdd`, `OnCopyReaction`,
  `OnReactionRemove`). The transition gives the new tables and the mutating
  Discord calls and their order: send the copy, add ❌ under it, take 🔖 off,
  delete the copy. The SQL statements are functions on maps (module `Sql`).
  Module `Store` defines the ledger invariant `Consistent`. Every stored count
  equals the number of bookmarks it counts, and no count is zero or negative. It
  also holds two uniqueness facts that the schema alone does not enforce. The
  lemmas prove that every committed transaction keeps `Consistent`, and so does
  any sequence of handler runs (`Handlers.RunKeepsConsistent`).
- **Event filtering.** The guard clauses at the top of each handler are one
  pure classification, `Events.Classify`. It maps (actor, add or remove,
  channel type, glyph) to the handler that acts, or to `Ignore`.
- **The embed.** `createBookmarkEmbed` is a method with its two loops. The
  first loop searches for the first image attachment to use as the preview.
  The second is an indexed loop that appends "Attachment n" fields. The method
  is proved against `Embeds.BookmarkEmbed`, and lemmas show what the preview
  and the field list are. `Text.MessageLink` builds the jump link.

Assumptions the model makes explicit:

- Handlers run one at a time, and each run is atomic.
- Discord message ids are global. A message therefore has count rows in one
  guild only, and a newly sent copy has an id that none of the user's
  bookmarks carry. These are `Store.FreshIds` and `Handlers.AddFresh`. The
  invariant needs them because the decrement matches on `message_id` alone,
  and the copy lookup matches on (user, copy id), which is not a key.
- The lookup in `dmReactionAdd` and the subquery in its decrement return the
  same row. The model calls it `first`. When several rows match, SQLite may
  return any of them, so the model leaves the choice open with `Sql.PickOk`.

Three behaviours of the code that the model keeps as written:

- The copy is sent and ❌ added under it *before* the transaction begins
  (main.go:186-203). A failed transaction therefore leaves a delivered copy
  with no bookmark. `OnReactionAdd` reports those two calls with outcome
  `Aborted`. A later ❌ on such a copy finds no row and does nothing.
- Every attachment whose URL equals the preview's URL is skipped, not only the
  preview attachment itself (main.go:417). Numbering keeps the original
  positions.
- `reactionRemove` reads the origin `channel_id` into a variable named for the
  DM channel and never uses it. The copy is deleted from the channel that
  `UserChannelCreate` returns (main.go:326-347, 381).

## Model

| member | source | states |
|---|---|---|
| `Text.DecimalRoundTrip` | main.go:421 | reading back the `%d` rendering of n gives n, so attachment labels for different positions differ |
| `Text.DecimalInjective` | main.go:421 | two positions with the same label are the same position |
| `Text.MessageLinkShape` | main.go:184 | the link `Text.MessageLink` builds is `https://discord.com/channels/` then guild, `/`, channel, `/`, message, at the stated offsets |
| `Text.MessageLinkInjective` | main.go:184 | `Text.MessageLink` is injective: for ids without `/` (snowflakes), equal links have equal guild, channel and message |
| `Events.Classify` | main.go:138-324 | the guard chains of the three handlers (main.go:138-155, 233-250, 307-324) as one classification: the intent is AddInOrigin iff an add by a non-bot user, in a non-DM channel, with 🔖; RemoveViaCopy iff an add by a non-bot user, in a DM, with ❌; RemoveInOrigin iff a removal by a non-bot user, in a non-DM channel, with 🔖 |
| `Events.BotReactionsIgnored` | main.go:138-324 | reactions by the bot itself (the ❌ it adds under copies) reach no handler: each of the guard chains at main.go:138-155, 233-250 and 307-324 returns first on the bot's own id |
| `Events.OtherGlyphsIgnored` | main.go:138-324 | a glyph other than 🔖 and ❌ is ignored on every channel, by all three guard chains (main.go:138-155, 233-250, 307-324) |
| `Events.RemovalsOnlyInOrigin` | main.go:318-324 | a removal in a DM, or a removal of ❌, is ignored |
| `Embeds.FirstImage` | main.go:409-414 | the result is the index of an image attachment with no image before it, and None iff no attachment is an image |
| `Embeds.PreviewIsFirstImage` | main.go:409-414 | the preview URL is the URL of the first attachment whose content type starts with `image/`, and absent iff there is none |
| `Embeds.CreateBookmarkEmbed` | main.go:387-428 | the loops build exactly `BookmarkEmbed`: title `Bookmark from <guild>`, the content, the author, the colour, the footer, the first image as preview, and the `Source` field `[Jump to message](link)` followed by the attachment fields |
| `Embeds.AttachmentFieldsLayout` | main.go:416-425 | the attachment at 0-based position i gets a field `Attachment i+1` with value `[filename](url)` iff its URL is not the preview's (a skipped attachment has no such field); for kept attachments i < j the field of i comes before the field of j; there are no other fields |
| `Embeds.NoImageListsEverything` | main.go:416-425 | with no image attachment, field i is `Attachment i+1` for every attachment |
| `Sql.InsertBookmark` | main.go:45-47 | the insert fails iff (user_id, message_id) already exists (primary key at main.go:28); otherwise it adds exactly that row |
| `Sql.UpsertCount` | main.go:49-52 | a new (guild, message) row gets count 1; an existing row's count rises by exactly 1 and its other columns are kept; other rows are unchanged |
| `Sql.DecrementByMessage` | main.go:355 | every row with that message_id loses 1, whatever its guild; other rows are unchanged |
| `Sql.DecrementByCopy` | main.go:56-61 | the decrement targets the message of the row the subquery returns, and changes nothing when no row matches (the NULL case) |
| `Sql.DeleteByCopy` | main.go:53-54 | exactly the rows matching (user_id, dm_message_id) are deleted |
| `Sql.DeleteByMessage` | main.go:362 | exactly the (user_id, message_id) row is deleted |
| `Sql.PurgeZero` | main.go:63-64 | a row is kept iff its count is positive, with its values unchanged |
| `Sql.DeleteFirstLosesDecrement` | main.go:270-282 | deleting before decrementing would leave the subquery empty and the count unchanged, which is why the decrement comes first |
| `Store.AddTx` | main.go:205-230 | the add transaction rolls back iff the bookmark already exists |
| `Store.AddKeepsConsistent` | main.go:205-230 | a committed add keeps the ledger consistent; the (guild, message) count is created at 1 or rises by exactly 1; no other count row changes |
| `Store.RemoveKeepsConsistent` | main.go:349-379 | a committed origin removal (`Store.RemoveByMessageTx`) keeps the ledger consistent; the bookmark's count drops by exactly 1, or its row is purged if that was the last holder; no other row changes |
| `Store.CopyRemovalIsOriginRemoval` | main.go:264-294 | in a consistent ledger, removing through the copy (`Store.RemoveByCopyTx`) equals removing the bookmark (user, message) that owns the copy (`Store.RemoveByMessageTx`) |
| `Store.CopyRemovalKeepsConsistent` | main.go:264-294 | a committed removal through the copy (`Store.RemoveByCopyTx`) keeps the ledger consistent and decrements the origin message's count by exactly 1, purging it at zero |
| `Store.CountIsBookmarksOfMessage` | main.go:49-64 | in a consistent ledger every stored count equals the number of `user_bookmarks` rows for its message id, whatever their guild |
| `Store.EmptyIsConsistent` | main.go:104-109 | freshly created tables satisfy the invariant |
| `Store.TwoBookmarksOneRemoved` | main.go:211-224 | two users bookmark one message, giving count 2; one origin removal leaves count 1 and only the other user's bookmark |
| `Store.OneBookmarkRemovedByCopy` | main.go:270-289 | one bookmark removed through its copy leaves both tables empty |
| `Handlers.OnReactionAdd` | main.go:138-231 | the bot's reactions are ignored; an existing bookmark means no change and no call; no Discord call is made unless every guard and lookup passed and the DM channel opened, and then the calls are send-embed, followed by add-❌ iff the send returned an id, whatever the transaction does; the tables change iff the outcome is Committed. The outcome is Committed iff every guard and lookup passed, the bookmark is new, the DM channel opened, the send returned an id, and every transaction step succeeded; a failed add-❌ is only logged. The bookmark is then stored with the sent copy's id and the count is upserted |
| `Handlers.OnCopyReaction` | main.go:233-305 | the bot's reactions are ignored; an unknown copy means no change and no call; the tables change iff Committed. The outcome is Committed iff the guards passed, the lookup found the copy and every transaction step succeeded; the tables are the decrement-delete-purge result. Only then come removing 🔖 from the origin and deleting the copy, in that order |
| `Handlers.OnReactionRemove` | main.go:307-385 | the bot's reactions are ignored; no bookmark means no change and no call; the tables change iff Committed. The outcome is Committed iff the guards passed, the bookmark exists, the user and DM channel lookups succeeded and every transaction step succeeded; the tables are the decrement-delete-purge result; only then is the copy deleted from the user's DM channel |
| `Handlers.DuplicateAddIsNoop` | main.go:175-182 | a repeated 🔖 after a committed add changes nothing and sends no second copy |
| `Handlers.DuplicateCopyRemovalIsNoop` | main.go:252-262 | a repeated ❌ after a committed removal finds no row and does nothing |
| `Handlers.DuplicateRemoveIsNoop` | main.go:326-335 | a repeated removal after a committed origin removal does nothing |
| `Handlers.UnreactEchoIsNoop` | main.go:296-299 | the removal notification caused by taking 🔖 off the origin message finds no bookmark and does nothing |
| `Handlers.AdvisoryFailuresAreHarmless` | main.go:296-304 | failures of add-❌, remove-🔖 and delete-copy change neither the tables nor the outcome |
| `Handlers.AddHandlerKeepsConsistent` | main.go:205-230 | reactionAdd keeps the ledger consistent, under Discord's id guarantees |
| `Handlers.CopyHandlerKeepsConsistent` | main.go:264-294 | dmReactionAdd keeps the ledger consistent |
| `Handlers.RemoveHandlerKeepsConsistent` | main.go:349-379 | reactionRemove keeps the ledger consistent |
| `Handlers.RunKeepsConsistent` | main.go:49-64 | after any sequence of handler runs, with any failures, a consistent ledger stays consistent |
| `Handlers.CountsAfterAnyRun` | main.go:19-40 | from a new database, every count row equals the number of bookmarks of its guild and message and is positive, after any sequence of handler runs |
| `Bot.Ledger.constructor` | main.go:104-109 | a new ledger has both tables empty, and they are consistent |
| `Bot.Ledger.ReactionAdd` | main.go:138-231 | the in-place handler ends in exactly the tables and report of `OnReactionAdd`, and keeps the ledger consistent under Discord's id guarantees |
| `Bot.Ledger.DmReactionAdd` | main.go:233-305 | the in-place handler ends in exactly the tables and report of `OnCopyReaction` for the row its lookup returned, and keeps the ledger consistent |
| `Bot.Ledger.ReactionRemove` | main.go:307-385 | the in-place handler ends in exactly the tables and report of `OnReactionRemove`, and keeps the ledger consistent |

## Left out

- `main` (main.go:80-136) is startup I/O: log file, `.env`, token check, opening the database, creating the tables, opening the session and waiting for a signal. It is not modelled. The constructor of `Bot.Ledger` stands for the empty tables that table creation leaves.
- Logging is not modelled. Every logged failure is an `Aborted` outcome, or nothing for the advisory calls.
- The discordgo and SQL engine calls are not modelled. Their answers are the fields of `AddIo`, `CopyIo` and `RemoveIo`; the mutating Discord calls are recorded in `Report.calls`.
- Handlers running concurrently, and per-key serialisation, are not modelled. Each handler run is one atomic step, and `Handlers.Run` applies runs in order.
- Cosmetic embed content is opaque: the RFC 3339 timestamp text and the avatar URL are input strings. The `Inline` flag (always false) is dropped.
- The `bookmark_time` column is not modelled; nothing reads it.
- `s.User` is modelled only as success or failure; the returned user's id is taken to be the reacting user's id.
- `Handlers.AddHandlerKeepsConsistent`: this holds only under Discord's id guarantees (`Handlers.AddFresh`), since the code itself does not check them. `Bot.Ledger.ReactionAdd` requires them for the same reason.
- `Handlers.RunKeepsConsistent`: this covers the same guarantees, and it needs each copy lookup to return a matching row (`Handlers.Feasible`).
- Link parsing is not modelled: the bot stores the link and never parses it.
