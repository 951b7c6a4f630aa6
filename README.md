# gator: command dispatch, feed normalisation and the follow table

A Dafny model of the core of `gator`, a command-line RSS aggregator written
in Go. Three pieces are modelled:

- **Commands** (`commands.dfy`, from `main.go`): the `command` record, the
  `commands` registry (a name-to-handler map that stays nil until the first
  `register`), `run` (dispatch by name), the split of the argument vector in
  `main`, the registration of the seven built-in commands, and the
  argument-count guards of `handlerLogin`, `handlerRegister`,
  `handlerAddFeed` and the unguarded `arguments[0]` of `handlerAgg`.
  A handler is a total function from an abstract program state and a
  command to an `Outcome`: it either returns (nil or an error) or stops the
  process with an exit status (`os.Exit`, or status 2 for a Go runtime
  panic). What a handler does after its guard is passed in (`Bodies`).
- **Feed normalisation** (`rss.dfy`, from `fetchFeed` in `main.go`): after
  the XML is decoded, the channel's title, link and description and each
  item's title, link and description are overwritten in place by their
  HTML-unescaped text, over the item array. The unescaping function is a
  parameter, so nothing about it (not even idempotence) is assumed.
- **Follow table** (`feed_follows.dfy`, from
  `internal/database/feed_follows.sql.go`): the SQL meaning of
  `CreateFeedFollow`, `GetFeedFollowsForUser` and `Unfollow` over an
  in-memory `feed_follows` table (a sequence of rows, duplicates allowed)
  and the `feeds` and `users` tables as id-to-name maps, including the Go
  scan loop of `GetFeedFollowsForUser` with its early error returns.
  `wrappers.dfy` holds the shared `Option` type.

Notes on what the code does:

- `agg` fetches the one URL it is given, once, and returns;
- the queries themselves enforce no uniqueness of (user, feed) and the Go
  code has no duplicate error; if the database schema refuses an insert,
  that refusal is the `fault` of `CreateFeedFollow`, and the model itself
  refuses none, so two accepted `CreateFeedFollow` calls for one pair leave
  two rows, and `Unfollow` deletes all of them;
- `Unfollow` of a pair nobody follows is not an error; the row count is
  never read.

Modelling decisions:

- Driver failures are explicit parameters: `fault` for `CreateFeedFollow`
  and `Unfollow` (a failed statement changes nothing), and `Faults` for
  `GetFeedFollowsForUser` (query error, the rows on which `Scan` fails, the
  call of `Next` that fails, a `Close` error).
- `CreateFeedFollow` inserts inside a WITH clause, which always runs; when
  the feed or the user is missing the join is empty and `Scan` reports
  `sql: no rows in result set`; when the insert is accepted (no `fault`),
  the row stays inserted even then.
- The SELECT of `GetFeedFollowsForUser` has no ORDER BY; the model returns
  rows in table order, one of the orders Postgres may produce.
- `handlerAgg` with no arguments is modelled as the Go panic it causes
  (exit status 2), not as a precondition.
- A Go nil slice and an empty slice are both the empty sequence.

## Model

| member | source | states |
|---|---|---|
| `Commands.Commands.constructor` | main.go:223 | `commands{}` starts with a nil registry |
| `Commands.Commands.Table` | main.go:47-49 | a nil registry reads as the empty map, an allocated one as its contents |
| `Commands.Commands.Register` | main.go:51-56 | the registry is allocated afterwards; `name` maps to `f`, replacing any earlier handler; every other name keeps its entry and no name is added or removed; afterwards `Run` on `name` runs `f` and `Run` on any other name behaves as before |
| `Commands.Commands.Run` | main.go:58-68 | an unregistered name (also on a nil registry) gives the not-registered error and leaves the state unchanged; a registered name gives exactly its handler's outcome on that state and command, so the error is nil iff the handler's is |
| `Commands.SplitArgs` | main.go:231-239 | a vector shorter than 2 is rejected; otherwise program name, command name and arguments reassemble the vector, i.e. name is `args[1]` and arguments are `args[2:]` |
| `Commands.SplitArgsOfCommand` | main.go:237-239 | splitting `[program, name] + arguments` gives back exactly that command |
| `Commands.GuardedBy` | main.go:71-73 | no contract of its own: the guard shape shared by `login`, `register` and `addfeed` — fewer than `minArgs` arguments returns the given error with the state unchanged, otherwise the handler is exactly its rest |
| `Commands.LoginHandler` | main.go:70-73 | with no arguments `login` returns its usage error and changes nothing; otherwise it is exactly the rest of the handler |
| `Commands.RegisterHandler` | main.go:86-89 | with no arguments `register` returns its usage error and changes nothing; otherwise it is exactly the rest of the handler |
| `Commands.AddFeedHandler` | main.go:141-144 | with fewer than 2 arguments `addfeed` returns "Insufficient number of arguments" and changes nothing; otherwise it is exactly the rest |
| `Commands.AggHandler` | main.go:132-139 | with no arguments `agg` panics (index out of range, exit status 2); otherwise it fetches its first argument |
| `Commands.BuiltIn` | main.go:224-230 | the registry built by `main` has exactly the names login, register, reset, users, agg, addfeed, feeds, with the guarded handlers above |
| `Commands.ExitStatus` | main.go:240-243 | a nil error ends with status 0, a returned error with 1, a halt with its own status |
| `Commands.Gator` | main.go:223-243 | fewer than 2 arguments ends with status 1 and no state change; a name outside the seven (e.g. `follow`) ends with status 1, no state change and the not-registered error; otherwise the outcome and status are those of the named handler run on `command{args[1], args[2:]}` |
| `Rss.Feed.constructor` | main.go:21-35 | a decoded feed holds the given channel fields and item array |
| `Rss.UnescapeItem` | main.go:205-207 | no contract of its own: one item with title, link and description unescaped and pubDate kept, by definition; characterised through `UnescapeItemsAt` |
| `Rss.UnescapeItems` | main.go:204-208 | no contract of its own: the item list after the loop, defined by recursion item by item; characterised by `UnescapeItemsAt` and `UnescapeItemsLength` |
| `Rss.UnescapeItemsAt` | main.go:204-208 | after normalisation each item is the one decoded at that position with title, link and description unescaped and the same pubDate |
| `Rss.UnescapeItemsLength` | main.go:204 | normalisation keeps the number of items |
| `Rss.Normalize` | main.go:200-208 | in place: the channel's title, link and description are unescaped, the same item array now holds the normalised items in the same order |
| `FeedFollows.Join` | internal/database/feed_follows.sql.go:27-33 | a follow row joins iff its feed and its user exist, and the joined row carries the follow's columns and their names |
| `FeedFollows.Matches` | internal/database/feed_follows.sql.go:126 | no contract of its own: the WHERE condition `user_id = $1 AND feed_id = $2`, used by `Unfollowed` and its lemmas |
| `FeedFollows.Unfollowed` | internal/database/feed_follows.sql.go:124-127 | no contract of its own: the table after the DELETE, defined by recursion over the rows; characterised by `UnfollowedCount`, `UnfollowedNoMatch` and `UnfollowedAppend` |
| `FeedFollows.UnfollowedCount` | internal/database/feed_follows.sql.go:124-127 | the DELETE leaves no copy of a row matching (user_id, feed_id) and every copy of every other row |
| `FeedFollows.UnfollowedNoMatch` | internal/database/feed_follows.sql.go:124-127 | a DELETE that matches no row leaves the table unchanged |
| `FeedFollows.UnfollowedAppend` | internal/database/feed_follows.sql.go:124-127 | the DELETE acts on two parts of the table separately |
| `FeedFollows.UnfollowAfterCreate` | internal/database/feed_follows.sql.go:124-127 | unfollowing a pair right after inserting a follow of it gives the table the DELETE alone would give |
| `FeedFollows.UnfollowUndoesCreate` | internal/database/feed_follows.sql.go:124-127 | when the pair was not followed before, inserting a follow of it and then unfollowing it gives back the old table |
| `FeedFollows.FollowsForUser` | internal/database/feed_follows.sql.go:75-81 | no contract of its own: the rows of the SELECT, defined by recursion over the table; characterised by `FollowsForUserSound`, `FollowsForUserComplete` and `FollowsForUserAppend` |
| `FeedFollows.FollowsForUserSound` | internal/database/feed_follows.sql.go:75-81 | every listed row has user_id equal to the asked id and is the join of a row of the table, so its feed and user exist and the names match |
| `FeedFollows.FollowsForUserComplete` | internal/database/feed_follows.sql.go:75-81 | every follow of the user whose feed and user exist is listed with both names (inner join) |
| `FeedFollows.FollowsForUserAppend` | internal/database/feed_follows.sql.go:75-81 | after a row is inserted the user's list is the old list plus, at the end, the new row's join when it is the user's and joinable |
| `FeedFollows.ListAfterUnfollow` | internal/database/feed_follows.sql.go:124-127 | after unfollowing a feed, the user's list shows no row of that feed |
| `FeedFollows.Delivered` | internal/database/feed_follows.sql.go:100 | `rows.Next` hands out all rows unless one of its calls before the end fails, and then exactly those before it |
| `FeedFollows.FirstScanFailure` | internal/database/feed_follows.sql.go:100-112 | finds the first row in a range on which `Scan` fails, or proves there is none |
| `FeedFollows.ReadError` | internal/database/feed_follows.sql.go:93-121 | the read succeeds iff the query, every scan of a delivered row, the close and every `Next` call succeed; a query error is returned as is |
| `FeedFollows.Queries.constructor` | main.go:221 | a database holding the given tables |
| `FeedFollows.Queries.CreateFeedFollow` | internal/database/feed_follows.sql.go:15-73 | a successful statement appends exactly the given row and changes nothing else; the result is that row joined with its feed and user names, or no-rows when either is missing; a failed statement changes nothing |
| `FeedFollows.Queries.Unfollow` | internal/database/feed_follows.sql.go:124-137 | the table becomes the DELETE's result; no error unless the statement fails, whatever the number of rows removed |
| `FeedFollows.Queries.GetFeedFollowsForUser` | internal/database/feed_follows.sql.go:93-122 | the loop appends each produced row once, in order: without failure the result is exactly the query's rows (all for the asked user), with any failure no rows and the first failure met |

## Left out

- `internal/config/config.go` (reading and writing the JSON config file) is not part of this model.
- The HTTP request, reading the body and XML decoding in `fetchFeed`: network I/O and a library decoder; only the step after decoding is modelled.
- HTML unescaping itself: a function parameter with no properties.
- Everything the handlers do after their guards (user and feed queries, `uuid.New`, `time.Now`, config writes, printing, `os.Exit` in handlers): passed in as abstract handler bodies.
- Opening the config and the database connection in `main`, and its `log.Panic` calls.
- Printing of messages and errors.
- Timestamps are treated as exact instants, although Postgres stores `created_at` and `updated_at` to microseconds, so the row it inserts and returns may differ from the Go `time.Time` passed in; time-zone handling is not modelled either.
- Uniqueness, foreign-key and cascade constraints on `feed_follows`, since the schema is not available: no insert is refused.
- `feeds.id` and `users.id` are taken to be keys (one name per id), as the id-to-name maps encode; duplicate ids, which would make the inner joins return a row per match (and `CreateFeedFollow`'s single-row read take the first), are not modelled.
- `Faults.close` covers a path the program cannot reach: in `database/sql` a `rows.Next` that returns false has already closed the rows and dropped any close error, so the explicit `rows.Close()` after the loop returns nil whenever the loop ends normally. The model allows a close error on purpose; it only adds behaviours.
