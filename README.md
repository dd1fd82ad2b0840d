# Stamp card bot — verified model

A Dafny model of the core of a Discord bot that keeps a loyalty stamp card
per guild member (`index.js`). Members collect stamps on one of six card
designs. Managers add, remove and reset stamps. Reaching the goal
(`STAMP_GOAL`) posts a "completed" message and grants a reward role. A card
is shown as its template with one stamp glyph per filled slot. A leaderboard
ranks the guild's stored counts.

The model is one module per part of the core:

- `Cards` (`cards.dfy`): the catalogue `STAMP_CARDS`, the slot table
  `POSITIONS_BY_CARD` and the glyph table `STAMP_STYLE_BY_CARD`, as
  string-keyed constant maps, with their `||` fallbacks.
- `Render` (`render.dfy`): `renderStampCard` as a method that draws onto a
  `Canvas` object in a loop. It is proved to draw exactly the stamps of
  `Placement`, the first `min(count, slots)` slots in order.
- `Permissions` (`permissions.dfy`): `canManage`, the stricter `resetall`
  gate, and the parsing of `STAMP_MANAGER_ROLE_IDS` (split on commas, trim,
  drop empties), with a parse-after-join round trip.
- `Store` (`store.dfy`): the `stamps` and `user_cards` tables as two maps in
  a `ProgressStore` class. Each prepared statement is a method. The
  leaderboard query (`ORDER BY count DESC, updated_at ASC LIMIT ?`) repeatedly
  takes the first-ranked remaining row.
- `Progress` (`progress.dfy`): the pure decisions of add, remove and reset.
  These are card resolution, the amount default, the next count, the goal
  crossing and the reward-role sync.
- `Ranking` (`ranking.dfy`): the leaderboard loop, which skips rows whose
  member cannot be fetched and numbers the kept rows 1, 2, 3, ...
- `Bot` (`bot.dfy`): a `StampBot` class with one method per subcommand
  (`leaderboard`, `setcard`, `view`, `resetall`, `add`/`remove`, `reset`). Its
  state is the store, the reward role's holders, the role calls made and the
  channel posts made.

Abstractions:
- Discord is not modelled. The member fetch is a parameter: a boolean for
  the target of add, remove and reset, and a directory from user id to user
  name for the leaderboard.
- Role calls are recorded as `RoleChange` values and are assumed to succeed.
- Channel posts are recorded as `Post` values. A post's image is the
  rendered `CardImage` (template name and stamp rectangles), not PNG bytes.
- `Date.now()` is the `now` parameter of add and remove.
- The settings are constructor parameters. `STAMP_GOAL` is an `int`, and a
  channel id counts as set when it is not empty.

Behaviour the model pins down, as the code does it:
- A missing `amount` and an amount of 0 both count as 1 (`getInteger(...) || 1`).
  A missing row and a stored 0 both read as 0.
- A saved card id that is missing or empty resolves to `og`.
- The reward role is synchronised against the count on the member's
  *selected* card only. `reset` removes the role even when the member has
  reached the goal on another card. `resetall` removes no role and keeps
  every selection.
- The leaderboard's limit of 10 applies before the member-fetch skip, so a
  page may have fewer than 10 lines while more rows exist
  (`Ranking.SkippedRowsShortenPage`).

Two behaviours follow the code where a stricter rule might be expected:
- An amount of 0 or less is not rejected. A missing or zero amount becomes 1,
  and negative amounts are ruled out by the command option's minimum of 1,
  which the `nat` type models.
- Reward eligibility is not recomputed after a reset. `reset` removes the
  role unconditionally, whatever the goal.

## Model

| member | source | states |
|---|---|---|
| `Cards.CardNameOr` | index.js:458 | a catalogued card's display name, otherwise "Unknown Card" |
| `Cards.IsCard` | index.js:310-311 | a card id is known iff it is a key of the catalogue, the test `renderStampCard`, setcard, view and add/remove/reset make before using a card |
| `Cards.PositionsFor` | index.js:321 | the card's slot list, or the og slots when the card has no entry |
| `Cards.StyleFor` | index.js:322 | the card's glyph style, or 90×90 with no nudge when it has no entry |
| `Cards.CatalogueIds` | index.js:52-59 | the catalogue holds exactly og, pink, black, beige, marbled and tbp; og is one of them and "" is not |
| `Cards.TablesCoverCatalogue` | index.js:69-154 | every catalogued card has its own slots and style (no fallback is taken) and ten slots |
| `Cards.StylesAreSquare` | index.js:147-154 | every glyph is a positive square with zero nudge |
| `Render.Canvas.constructor` | index.js:316-319 | a new canvas shows the template and no stamps |
| `Render.Canvas.DrawStamp` | index.js:328-334 | drawing puts one more stamp on top of those already drawn |
| `Render.Canvas.Snapshot` | index.js:337 | the encoded image is the template plus the stamps drawn, in order |
| `Render.StampRect` | index.js:327-334 | a stamp has the card's glyph size and is centred on its slot moved by the nudge |
| `Render.Filled` | index.js:324 | the filled count is min(count, slots), and nothing is drawn for a count of 0 or less |
| `Render.Placement` | index.js:321-335 | the stamps of a card at a count: the first `Filled` slots of the card's slot list, each drawn with the card's style, in slot order |
| `Render.Rendered` | index.js:316-337 | the image of a catalogued card at a count: its template with the `Placement` stamps on top |
| `Render.RenderStampCard` | index.js:309-338 | an unknown card id fails; otherwise the image is the card's template with exactly the stamps of Placement |
| `Render.PlacementCount` | index.js:324-326 | exactly min(count, slots) stamps are drawn, none for a count of 0 or less |
| `Render.PlacementAt` | index.js:326-335 | stamp i is drawn on slot i with the card's style |
| `Render.PlacementMonotone` | index.js:326-335 | slots fill in one fixed order: a smaller count's stamps are a prefix of a larger count's, and counts past the last slot add nothing |
| `Render.RenderDeterministic` | index.js:309-338 | two counts that fill the same number of slots on a catalogued card give the same image |
| `Render.ElevenFillsTen` | index.js:324 | 11 stamps on a catalogued card draw all 10 slots, the same image as 10 stamps |
| `Render.PinkFive` | index.js:83-87 | pink with 5 stamps draws 128-pixel glyphs centred on slots 0 to 4 and nowhere else |
| `Render.TbpHalfPixel` | index.js:153 | the 135-pixel tbp glyph is placed on half-pixel corners |
| `Permissions.IsJsSpace` | index.js:25 | the characters `trim` removes: JavaScript's WhiteSpace (tab, vertical tab, form feed, space, no-break space, byte order mark and the Unicode space separators) and LineTerminator (line feed, carriage return, line and paragraph separators) |
| `Permissions.Split` | index.js:24 | split pieces contain no separator, there is one more piece than separators, and joining them gives the input back |
| `Permissions.TrimStart` | index.js:25 | only leading white space is removed, and the result starts with non-space |
| `Permissions.TrimEnd` | index.js:25 | only trailing white space is removed, and the result ends with non-space |
| `Permissions.Trim` | index.js:25 | neither end of the result is white space, it is no longer than the input, and a string already without white space at either end is its own trim |
| `Permissions.TrimRemovesOnlyEnds` | index.js:25 | the result is the stretch of the input between a white-space prefix and a white-space suffix, so only white space at the ends is removed |
| `Permissions.TrimAll` | index.js:25 | every piece is trimmed, in place |
| `Permissions.DropEmpty` | index.js:26 | exactly the non-empty pieces are kept, never more than were given |
| `Permissions.DropEmptyAppend` | index.js:26 | the filter works piece by piece: filtering a concatenation concatenates the filtered parts, so kept pieces stay in their order |
| `Permissions.ParseRoleIds` | index.js:23-26 | every parsed manager id is non-empty, trimmed and comma-free |
| `Permissions.SplitJoin` | index.js:24 | splitting undoes joining for comma-free pieces |
| `Permissions.ParseJoinedRoleIds` | index.js:23-26 | a list of clean role ids written comma-separated parses back to the same list, and the empty setting to no ids |
| `Permissions.EmptySettingNoIds` | index.js:23-26 | an unset STAMP_MANAGER_ROLE_IDS, read as the empty string, gives no manager ids |
| `Permissions.ParseRoleIdsMembers` | index.js:23-26 | a string is a manager id iff it is non-empty and is the trim of one of the setting's comma-separated pieces |
| `Permissions.CleanedMembers` | index.js:25-26 | after the trim and the filter, exactly the non-empty trims of the pieces remain |
| `Permissions.AnyHeld` | index.js:420 | true iff some configured manager id is among the caller's roles |
| `Permissions.IsOwner` | index.js:404 | the caller is the guild's owner when the owner id equals the caller's id, the test of both `canManage` and resetall (index.js:518) |
| `Permissions.CanManage` | index.js:403-423 | true iff owner, or admin, or MOD_ROLE_ID is set and held, or some manager role is held |
| `Permissions.CanResetAll` | index.js:517-528 | resetall is open only to the owner or an admin |
| `Permissions.ResetAllGateIsStricter` | index.js:517-528 | whoever may resetall may also manage stamps |
| `Permissions.RolesDoNotOpenResetAll` | index.js:418-423 | with neither owner nor admin, resetall is refused, and managing depends only on the moderator and manager roles |
| `Permissions.EmptyModRoleGrantsNothing` | index.js:419 | an unset MOD_ROLE_ID grants nothing |
| `Store.CountOf` | index.js:505-506 | a missing row reads as 0, and a present row reads as its count |
| `Store.GuildKeys` | index.js:201 | exactly the stored keys of the guild |
| `Store.WithoutGuild` | index.js:206 | exactly the rows of other guilds remain, each unchanged |
| `Store.FirstRanked` | index.js:202 | returns a row of the set that no other row of the set ranks before |
| `Store.RanksBefore` | index.js:202 | `ORDER BY count DESC, updated_at ASC`: a row ranks first when its count is higher, or equal with an earlier update |
| `Store.RanksBeforeStrictOrder` | index.js:202 | that order is irreflexive, asymmetric and transitive, and orders every two rows that differ in count or update time |
| `Store.IsTopRows` | index.js:198-204 | a valid answer to the leaderboard query: min(limit, rows of the guild) distinct rows of the guild with their stored counts, in query order, and no row left out ranks before a row taken |
| `Store.ProgressStore.constructor` | index.js:162-181 | both tables start empty |
| `Store.ProgressStore.GetCount` | index.js:183-185 | the stored count of the key, or none |
| `Store.ProgressStore.Upsert` | index.js:187-192 | the key's row is inserted or overwritten with both count and time; nothing else changes |
| `Store.ProgressStore.Delete` | index.js:194-196 | only the key's row is removed |
| `Store.ProgressStore.ResetGuild` | index.js:206 | every row of the guild is removed and no other; selections are kept |
| `Store.ProgressStore.GetCard` | index.js:208-210 | the saved selection of the member, or none |
| `Store.ProgressStore.SetCard` | index.js:212-217 | the member's selection is inserted or overwritten; stamps are kept |
| `Store.ProgressStore.Leaderboard` | index.js:198-204 | min(limit, rows of the guild) distinct guild rows with their counts, in ranking order, where every row that ranks before a taken row was taken earlier |
| `Store.TopRowsDescending` | index.js:202 | query rows come highest count first |
| `Store.TopRowsTieBreak` | index.js:202 | among equal counts, the row updated earlier comes first |
| `Store.DeleteReadsZero` | index.js:194-196 | after a delete the key reads 0 and every other key reads as before |
| `Store.UpsertReads` | index.js:187-192 | after an upsert the key reads the new count and every other key reads as before |
| `Store.ResetGuildReads` | index.js:206 | after a guild reset, that guild's keys read 0, other keys read as before, and the guild has no rows |
| `Store.ResetGuildIsolated` | index.js:206 | a guild reset leaves another guild's rows exactly as they were |
| `Progress.ResolveCard` | index.js:496 | a missing or empty saved id resolves to og, and any other saved id to itself |
| `Progress.SelectedCard` | index.js:565-566 | the member's saved card when it is set and non-empty, otherwise og; view (index.js:495-496) resolves the same way |
| `Progress.EffectiveAmount` | index.js:605 | a missing or zero amount is 1; any other amount is itself |
| `Progress.NextCount` | index.js:607-608 | add raises the count by the amount; remove lowers it by the amount, clamped at 0, never below 0 and never above the old count |
| `Progress.RewardEligible` | index.js:623-626 | the reward role is due when the count is at or above STAMP_GOAL |
| `Progress.Completes` | index.js:613 | the completed guard: an add that moves the count from below the goal to at least the goal |
| `Progress.SyncReward` | index.js:622-628 | afterwards the member holds the role iff eligible, and no other member changes; a role call is made iff the held state differed, a grant when due and absent, a removal when not due and present |
| `Progress.SyncRewardIdempotent` | index.js:622-628 | repeating the sync makes no call and changes nothing |
| `Progress.RemoveUndoesAdd` | index.js:607-608 | removing the amount just added restores the count |
| `Progress.AddUndoesRemove` | index.js:607-608 | adding back the amount removed restores the count iff the remove did not clamp at 0 |
| `Progress.CompletesExactly` | index.js:612-613 | the completed guard holds iff the step is an add with current < goal ≤ current + amount; never on remove, never from at or past the goal |
| `Progress.CrossingsExclusive` | index.js:612-628 | one step never crosses the goal both upward and downward |
| `Progress.SyncCallsOnCrossing` | index.js:612-628 | with the role in step before, the sync grants exactly on the completed crossing and removes exactly on a drop below the goal |
| `Progress.SelectedAfterSave` | index.js:212-217 | after a valid selection is saved, the member's commands use it and other members' selections are unchanged |
| `Progress.DefaultSelection` | index.js:566 | a member with no saved selection uses og, which is catalogued |
| `Ranking.Kept` | index.js:451-456 | keeps exactly the rows whose member is found, never more rows than the query returned (their order is stated by `Ranking.KeptInQueryOrder`) |
| `Ranking.KeptInQueryOrder` | index.js:445-456 | each kept row is the query row at its position, and the positions strictly increase, so the kept rows keep the query's order |
| `Ranking.Numbered` | index.js:448-465 | one line per kept row |
| `Ranking.RankLines` | index.js:448-465 | the lines are the kept rows, in query order, with ranks 1, 2, 3, ... |
| `Ranking.RanksConsecutive` | index.js:448-465 | line i has rank i + 1 and its row's count |
| `Ranking.KeptPreservesOrder` | index.js:451-465 | skipping rows keeps the query's count order |
| `Ranking.AllFoundKeepsAll` | index.js:451-456 | when every member is found, every row is kept |
| `Ranking.SkippedRowsShortenPage` | index.js:439-456 | one failed member fetch shortens the page below the query's row count, because the limit is applied before the skip |
| `Bot.CompletedPostExactly` | index.js:612-620 | an add or remove makes a completed post iff the channel is set and the add crossed the goal; that post comes first and shows the new count |
| `Bot.TranscriptShowsCount` | index.js:630-638 | every post of an add or remove reports the new count and its image has at most that many stamps |
| `Bot.AdjustPosts` | index.js:612-638 | the posts of an add or remove, in order: the completed post when its channel is set and the guard holds, then the transcript when the log channel is set, both with the card rendered at the new count |
| `Bot.LeaderboardPageOrdered` | index.js:438-473 | the page has at most 10 lines, ranked 1, 2, 3, ... and listed highest count first; line i shows the i-th kept row, and kept rows of equal count come earliest-updated first, as the query ordered them |
| `Bot.KeptKeepsTieOrder` | index.js:445-456 | of two kept rows with the same count, the one whose row was updated earlier comes first, as `ORDER BY count DESC, updated_at ASC` returned them |
| `Bot.StampBot.constructor` | index.js:22-31 | the settings are stored, with manager ids parsed; channels count as set when their ids are non-empty; both tables start empty |
| `Bot.StampBot.MayManage` | index.js:543 | the gate of add, remove and reset is `canManage` with the configured MOD_ROLE_ID and manager ids |
| `Bot.StampBot.LeaderboardCommand` | index.js:438-473 | "no stamps" iff the guild has no row; otherwise at most 10 numbered lines built from a correct top-10 query |
| `Bot.StampBot.SetCardCommand` | index.js:476-489 | an unknown id is refused with nothing saved; otherwise the caller's selection is saved; stamps are untouched |
| `Bot.StampBot.ViewCommand` | index.js:492-514 | a stale selection is refused; otherwise the reply gives the stored count (0 when missing) and the card rendered at that count |
| `Bot.StampBot.ResetAllCommand` | index.js:517-538 | non-owner non-admins are refused with nothing changed; otherwise the guild's rows are deleted and the reset is logged; selections are untouched |
| `Bot.StampBot.AdjustCommand` | index.js:541-643 | the gate, missing member and stale card refuse with nothing changed; otherwise the new count and time are stored for that one key, the role is synced against the new count, and the completed post and transcript are appended |
| `Bot.StampBot.ApplyAdjustment` | index.js:603-638 | the next count is add or clamped remove of the effective amount from the stored count (0 when missing); only that key is upserted with the new time; the role is synced against the new count; the completed post and transcript are appended |
| `Bot.StampBot.PostCompleted` | index.js:612-620 | the completed post is appended only on an upward crossing with the channel set |
| `Bot.StampBot.SyncRewardRole` | index.js:622-628 | the role holders and role calls become those of SyncReward |
| `Bot.StampBot.PostTranscript` | index.js:630-638 | the transcript, with action, amount, old and new count and image, is appended when the log channel is set |
| `Bot.StampBot.ResetCommand` | index.js:575-600 | after the same refusals as add, only the row of the selected card is deleted, the role is removed if held, and the reset is logged with the previous count and an empty card |
| `Bot.StampBot.ApplyReset` | index.js:578-595 | only the selected card's row is deleted, the role is removed if held, and the transcript records the previous count with an empty card |

## Left out

- The Discord client, the slash-command definitions and their registration (index.js:222-304): network and user-interface plumbing.
- The text of replies and posts (index.js:350-398 and the reply strings): formatting only. Replies and posts are data.
- The channel fetch in `sendToChannel` (index.js:343-348): a post is recorded whenever its channel id is set. The source silently drops the post when the channel cannot be fetched or is not text-based; the model assumes every configured channel is a reachable text channel.
- The dispatch on the command and subcommand name and the "Unknown subcommand" reply (index.js:430-435, 645): each subcommand is its own method.
- An existing database file: `CREATE TABLE IF NOT EXISTS` (index.js:162-181) keeps the rows of an earlier run of `stamps.sqlite`, while the model starts from a new database file, with both tables empty.
- SQLite (index.js:159-217) is replaced by two maps. Integer width is not modelled: counts are unbounded, not SQLite 64-bit values or JavaScript doubles.
- Image loading, canvas drawing and PNG encoding (`loadImage`, `createCanvas`, `toBuffer`) are foreign library calls. Only the template name and the stamp rectangles are modelled. A failing asset load is not modelled.
- Reading the environment and the startup exit (index.js:2, 18-47). `Number(...)` parsing of `STAMP_GOAL` and NaN are not modelled; the goal is an integer parameter.
- The catch-all error reply (index.js:646-657) and the swallowed failures of role calls: role calls are assumed to succeed.
- JavaScript property lookup on `STAMP_CARDS` also finds inherited names such as "constructor". The model treats a card id as known only when it is a key of the catalogue.
- The three ways `canManage` finds the caller's role ids (role cache, role array, none) are one given list of role ids.
- Concurrency between interactions: the handler runs one interaction at a time.
- `Date.now()` in post timestamps is not modelled, nor is the time in the transcript text.
