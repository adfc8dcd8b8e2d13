# Post queue of the channel-posting bot

This project models the core of a Telegram bot that posts prepared
content to one channel: the post queue in `bot.py`. It covers the rows
fetched from the "Posts" worksheet and how they are turned into posts
(`fetch_posts_from_sheets`). It covers the `Queue` object, which holds the
post list and a cursor saved to a JSON state file: `reload` chooses the
sheet or the local posts file and rereads the cursor, and `next_post` picks
the post at `index % len(posts)`, stores one past it and saves. It also
covers `parse_time`, which reads the `"HH:MM"` posting time, and the text
that `send_post` sends.

Modules:

- `Wrappers` (wrappers.dfy): `Option` and `Result`.
- `Text` (text.dfy): Python's `str.split`/`str.join` with a one-character
  separator, and `int()` applied to a decimal string.
- `Schedule` (schedule.dfy): `parse_time`, including the range checks
  `datetime.time` makes.
- `Posts` (posts.dfy): rows, posts, the row-to-post mapping, the fetch loop
  and the text `send_post` uses.
- `PostQueue` (queue.dfy): a pure model of the cursor (`Pick`, `Advance`,
  and `Run` for consecutive calls) with lemmas about it. It also holds the
  `Queue` class, whose fields are the post list, the cursor, the state file
  on disk and the unused `random` flag.
- `Scenarios` (scenarios.dfy): whole-queue behaviours on `Queue` objects.

Inputs the bot reads from outside become parameters:
- the sheet becomes a `SheetSource`: not configured, raising, or a list of
  records;
- the local posts file is `Option<seq<Post>>`, where `None` means the file
  is absent;
- the state file is the `saved` field, of type `StateFile`.

Behaviours of `bot.py` the model keeps on purpose:

- **Sheet errors are not caught.** `fetch_posts_from_sheets` and
  `get_gs_client` catch nothing. A raising `from_json_keyfile_name`,
  `gspread.authorize`, `open_by_key`, `worksheet` or `get_all_records`
  propagates out of `reload`, and out of `Queue(...)` at import time. So
  `Queue.Reload` and `CreateQueue` fail with `SheetError` and change nothing.
  The local posts file is used when the sheet yields no posts: when no
  client is configured (no spreadsheet id, or no credentials file), or when
  the sheet has no row with a text.
- **Saved cursor.** `next_post` stores `idx + 1`, which lies in
  `[1, len]`. After `len` calls from 0 it holds `len`, not 0. `AdvanceNAt`
  states that the cursor is congruent to the number of calls modulo the
  length.
- **Text filter.** Only sheet rows are filtered. Posts from the local file
  are installed as they are, which is why `Post.text` is an `Option` and
  `send_post` falls back to `""`.
- **Unused flag.** `random_order` is stored and never read.
- **Post type.** `row.get("type", "text")` defaults only when the column is
  missing. An empty `type` cell gives the type `""`.

## Model

| member | source | states |
|---|---|---|
| `Text.Split` | bot.py:99 | `str.split(";")` yields at least one piece and no piece contains the separator |
| `Text.JoinSplit` | bot.py:99 | joining the pieces of a split with the separator gives back the original string |
| `Text.SplitJoin` | bot.py:99 | splitting the join of one or more separator-free pieces gives back exactly those pieces |
| `Text.ParseInt` | bot.py:74 | `int()` accepts exactly one or more digits, optionally after one sign, with only space, tab, newline, carriage return, vertical tab or form feed around them, and returns the digits' value, negated after `-` |
| `Text.ParseShow` | bot.py:74 | `int()` on the decimal spelling of any integer, negative ones included, returns that integer |
| `Schedule.ParseAll` | bot.py:74 | the list comprehension succeeds exactly when every piece is an integer, and then gives each piece's value in order; otherwise it fails on a piece `int()` rejects |
| `Schedule.ParseTime` | bot.py:73-75 | succeeds exactly when the setting splits on `:` into two integers with hour in [0, 24) and minute in [0, 60), and then returns those two values; any other number of pieces is an error |
| `Schedule.ParseFormatTime` | bot.py:73-75 | every valid time written as zero-padded `"HH:MM"` parses back to the same hour and minute |
| `Posts.ToPost` | bot.py:95-102 | text is the row's text; type is the row's `type` or `"text"` when the column is missing; options joined with `;` give back the options cell (empty when missing) and none contains `;`; slides are absent exactly when the cell is empty |
| `Posts.NormalizeRows` | bot.py:91-104 | the filter-map the fetch loop computes: at most one post per row, each with a present, non-empty text |
| `Posts.NormalizeLength` | bot.py:91-104 | the sheet yields exactly one post per row whose text is present and non-empty |
| `Posts.NormalizeKeeps` | bot.py:92-103 | a row with text becomes the post at position "number of rows with text before it", so every such row is kept and row order is preserved |
| `Posts.NormalizeSource` | bot.py:92-103 | every post comes from a row with non-empty text, at that row's ordered position, so no row without text appears |
| `Posts.FetchPostsFromSheet` | bot.py:85-104 | no client gives `[]`; a raising gspread call raises; otherwise the loop returns exactly the normalised rows |
| `Posts.MessageText` | bot.py:166 | `send_post` sends the post's text, or `""` when the post has no text |
| `Posts.SheetMessagesNotEmpty` | bot.py:166-167 | `send_post` sends every sheet post with its source row's text, which is never empty |
| `PostQueue.LoadIndex` | bot.py:124-126 | the reloaded cursor is the saved integer (`True`/`False` as 1/0); a missing file, a missing index or a non-integer gives 0 |
| `PostQueue.ChoosePosts` | bot.py:119-123 | the sheet's posts when there are any, else the posts file's, else `[]` when the file is absent |
| `PostQueue.Slot` | bot.py:134 | `index % len(posts)` lies in `[0, len)` for any integer cursor, negative ones included |
| `PostQueue.Pick` | bot.py:131-135 | `next_post` returns nothing exactly when the list is empty, and otherwise an element of the list |
| `PostQueue.Advance` | bot.py:134-136 | the stored cursor is unchanged on an empty list; otherwise it lies in `[1, len]` and is one past the picked slot |
| `PostQueue.RunAt` | bot.py:134-136 | call j+1 of consecutive calls from cursor i returns `posts[(i + j) mod len]`, so the queue is cyclic |
| `PostQueue.RunFullCycle` | bot.py:134-136 | from cursor 0, `len` calls return every post exactly once, in list order |
| `PostQueue.RunRotation` | bot.py:134-136 | from any cursor, `len` calls return the list rotated to the cursor's slot, a permutation of the list |
| `PostQueue.AdvanceNAt` | bot.py:134-136 | after k calls the cursor has moved k places modulo `len`, and after at least one call it lies in `[1, len]` |
| `PostQueue.RunResumes` | bot.py:124-137 | saving the cursor after a calls and reading it back continues the same sequence of posts |
| `PostQueue.Queue.constructor` | bot.py:110-115 | `__init__` before its reload: no posts, cursor 0, the random flag stored |
| `PostQueue.Queue.Reload` | bot.py:118-126 | a raising sheet fetch changes nothing; otherwise the posts are the sheet's when it has any, else the posts file's, else none; the cursor is the saved integer, or 0 for a missing file, a missing index or a non-integer |
| `PostQueue.Queue.Save` | bot.py:128-129 | the state file afterwards holds the in-memory cursor |
| `PostQueue.Queue.NextPost` | bot.py:131-138 | on an empty list, returns nothing and changes nothing; otherwise returns the post at `index mod len`, stores one past that slot and saves it; the list never changes |
| `PostQueue.CreateQueue` | bot.py:110-116 | constructing the queue raises exactly when the sheet fetch does; otherwise it holds the chosen posts, the state file's cursor and the random flag |
| `Scenarios.RestartReturnsSamePost` | bot.py:118-138 | a restart between two calls does not change what the next call returns |
| `Scenarios.EmptyTextRowSkipped` | bot.py:92-138 | rows with texts "x" and "" yield the single post "x", which two calls both return |

## Left out

- Google Sheets access: credentials (`from_json_keyfile_name`), `gspread.authorize`, `open_by_key`, `worksheet("Posts")` and `get_all_records` are network and authentication calls. Their outcome is the `SheetSource` parameter.
- JSON file input and output (`load_json`, `save_json`) is file I/O. The posts file is a parameter. The state file is the `saved` field, and `Save` assigns to it. Malformed JSON in either file, and a state file that is not a JSON object, would raise in the code; the model does not represent them.
- `PostQueue.ChoosePosts` takes the posts file as a list of posts. A file that holds something other than a list of objects is not represented.
- `Posts.MessageText` takes a post's text as a string or absent. A stored `"text"` that is `null` or not a string is not represented; there `post.get("text", "")` returns the stored value, not `""`.
- `PostQueue.Queue.Save` writes only the index. The code writes back the whole state dictionary, including any other keys read from the file.
- `Posts.ToPost` does not decode the `slides` cell. It keeps the cell text, because `json.loads` is library code, so a malformed cell (which raises in the code) is not modelled. Sheet cells are modelled as strings; numeric cells, for which `get_all_records` returns numbers, are not.
- `Text.ParseInt`, and with it `Text.ParseShow` and `Schedule.ParseTime`, model `int()` for ASCII whitespace, an optional sign and ASCII digits. They reject `_` between digits and non-ASCII digits and spaces, which Python's `int()` accepts. They also accept strings of any length, while CPython 3.11 and later (and the 3.10.7 and 3.9.14 security releases) by default raise `ValueError` for more than 4300 digits.
- `parse_time` attaches a `zoneinfo` time zone. Time-zone handling is library code and is not modelled.
- `file_id_handler` (bot.py:145-159) replies to Telegram messages asynchronously, which is framework plumbing.
- Flask, the webhook setup, the `/status` reply and the handler wiring in `main` are transport code. The `/next` command (bot.py:176) passes `next_post()`'s result straight to `send_post`. On an empty queue that result is `None`, and `post.get` raises `AttributeError`. The model keeps `NextPost` returning `None`, and `MessageText` takes only a real post.
- config.py (reading environment variables) and check_env.py (printing them) are configuration and I/O.
