# ICeLAN points bot: a Dafny model of its core

The ICeLAN Telegram bot keeps a points table for the animations (events) of
a LAN party. Players earn points in animations, and organisers enter those
points through a guided chat conversation. This project models the three
pieces of `icelanim.py` that hold logic, and proves what they do:

- **The points table** (`Storage`). It is a Python dict from animation to a
  dict from player to points. `write` overwrites one cell in place and
  swallows the `KeyError` for an unknown animation. `read` answers four
  kinds of query, depending on which of `anim` and `player` are given.
  `dummy` builds a fixed 10 × 10 table of zeros.
- **`build_menu`**. It lays buttons out in rows of `n_cols`, with an
  optional header row and an optional footer row.
- **The points-entry conversation**. It has the five state constants, the
  per-user `user_data` map, one step function per handler, and the routing
  that the `ConversationHandler` in `main` sets up.

Python dicts remember the order in which keys were inserted, and `read`
returns lists in that order. So `Dicts.Dict` keeps a key sequence next to
the map. Assigning to an existing key keeps its place; a new key goes last.

Modules:

- `Wrappers` holds `Option` (Python's `None`-or-a-value).
- `Dicts` models dict item assignment, `values()` and a dict comprehension
  that gives every key the same value.
- `Ints` models `str(n)` and `int(s)` (surrounding white space, a sign,
  underscores between digits).
- `Storage` holds the table functions and the `Storage` class.
- `Menu` holds `build_menu`.
- `Conversation` holds the handlers, the routing, and the `Chat` class,
  which applies one update at a time to `user_data` and the shared storage.

What the conversation does as written, and what the model proves about it:

- `pick_anim_reply` is never registered, so `user_data['animation']` is
  never set. `enter_points` therefore always ends the conversation.
  `POINTS_REPLY` is never reached, and every run leaves the table unchanged
  (`Conversation.WiredRunInert`, `Conversation.PointsNeverRecorded`).
- Even if `animation` were set, `storage.write(**user_data, points=n)`
  would raise `TypeError`. The session key is `animation`, but the
  parameter is named `anim`. The bare `except` swallows the error
  (`Conversation.AnimationKeyBreaksWrite`). The call only binds when
  `user_data` holds exactly `anim` and `player`
  (`Conversation.BindWrite`, `Conversation.EnterPointsReplyWrites`).
- The two `reply_text` calls in `enter_points` are not awaited, so neither
  message is ever delivered. The model gives that handler no replies.
- `Storage.dummy` names its outer loop variable `p` and its inner one `a`.
  But `read` and `write` index the table as `storage[anim][player]`, so the
  table's animations are `"0"`..`"9"` and its players are `"10"`..`"19"`.

`enter_points_reply` returns `END` on a non-integer reply; it does not ask again.
`write` overwrites a cell; it does not add to the points already there.

## Model

| member | source | states |
|---|---|---|
| Dicts.Put | icelanim.py:40 | `d[k] = v`: key `k` now maps to `v`, every other key keeps its value, an existing key keeps its place in the order, and a new key goes last |
| Dicts.Values | icelanim.py:52 | `list(d.values())`: one value per key, in key order |
| Dicts.Uniform | icelanim.py:59-62 | a dict comprehension over distinct keys: those keys in that order, every one mapped to the same value |
| Ints.NatStr | icelanim.py:60-61 | `str(n)`: a non-empty run of decimal digits with no leading zero |
| Ints.NatStrInjective | icelanim.py:60-61 | different numbers have different `str` forms, so the dummy table's keys are distinct |
| Ints.ParseInt | icelanim.py:136 | `int(reply)`: an accepted reply, once stripped of white space, starts with a digit or a sign and ends with a digit, and a negative result needs a leading `-` |
| Ints.SeparatorNotStripped | icelanim.py:136 | `int()` does not skip the ASCII separators U+001C..U+001F: `int("\x1c5")` fails |
| Ints.ParseIntStr | icelanim.py:136 | `int(reply)` reads back any integer written by `str`, with white space `int()` skips (C-locale ASCII white space, U+0085, U+00A0) around it |
| Ints.ParseIntNeedsDigit | icelanim.py:136 | `int(reply)` fails on every reply without a decimal digit |
| Storage.Written | icelanim.py:38-42 | `write`: with an unknown animation the table is unchanged; otherwise the cell `(anim, player)` holds the new points, no other cell changes, every other animation's row stays exactly as it was (players, their order, their points), no animation is added or reordered, and a new player goes last in that animation's row |
| Storage.Storage.Write | icelanim.py:38-42 | the in-place `write` leaves the table described by `Written` and keeps it well formed |
| Storage.ReadAfterWrite | icelanim.py:38-54 | after `write(a, p, n)` on a known animation `a`, `read(a, p)` returns `n`, whether or not `p` was there before |
| Storage.WriteFrame | icelanim.py:38-54 | a write changes the answer for no other cell, `read(a)` for any other animation `a` returns the same list as before, and so does `read()` |
| Storage.WriteUnknownAnim | icelanim.py:38-42 | a write to an unknown animation leaves every query's answer unchanged; the error is caught, not raised |
| Storage.AnimsWith | icelanim.py:49 | the filter comprehension returns exactly the animations whose row contains the player, without duplicates, in table order |
| Storage.Read | icelanim.py:44-54 | `read()` lists exactly the animations, once each, in table order; `read(player=p)` lists exactly the animations whose row contains `p`, in table order; `read(a)` gives one point value per player of `a`, in row order; `read(a, p)` gives the cell; a missing animation, or a missing player in mode four, gives `KeyError` for that key |
| Storage.Numbers | icelanim.py:60-61 | `[str(i) for i in range(from, from + count)]` |
| Storage.DummyRow | icelanim.py:60 | the inner comprehension is a well-formed row |
| Storage.DummyTable | icelanim.py:59-62 | the nested comprehension is a well-formed table |
| Storage.DummyContents | icelanim.py:56-63 | `dummy()`: `read()` returns `"0"`..`"9"` in order, every row's players are `"10"`..`"19"` in order, and every cell holds 0 |
| Storage.Storage.Dummy | icelanim.py:56-63 | the object `dummy()` returns holds that table |
| Menu.RowOf | icelanim.py:77 | a given header or footer becomes a non-empty row: a list as it is, a single button wrapped as `[b]` |
| Menu.StartInRange | icelanim.py:75 | every start `i * n_cols` of `range(0, len(buttons), n_cols)` is an index of `buttons` |
| Menu.Chunks | icelanim.py:75 | the chunking comprehension; a negative `n_cols` gives no rows |
| Menu.ChunksSplit | icelanim.py:75 | after the first row of `n_cols` buttons, the remaining rows are the chunking of the rest |
| Menu.ChunksFlatten | icelanim.py:75 | for `n_cols > 0`, joining the rows gives back `buttons` in order |
| Menu.ChunksRows | icelanim.py:75 | every row is non-empty with at most `n_cols` buttons, and every row but the last has exactly `n_cols` |
| Menu.Menu | icelanim.py:69-80 | the header row (if given) is row 0, the footer row (if given) is last, and the chunk rows sit untouched between them |
| Menu.MenuFlatten | icelanim.py:75-79 | for `n_cols > 0`, the menu's buttons read back as header, then `buttons`, then footer |
| Menu.BuildMenu | icelanim.py:69-80 | the list built in place by `insert(0, …)` and `append(…)` equals `Menu` |
| Conversation.PickPlayer | icelanim.py:100-103 | `pick_player` sends the username prompt, with no keyboard, and returns `PLAYER_REPLY`; the user data and the table stay as they are |
| Conversation.PickPlayerReply | icelanim.py:118-122 | `pick_player_reply` sets `user_data['player']` to the message text, keeps every other key and value, sends nothing, and returns `ANIM` |
| Conversation.PickAnim | icelanim.py:106-115 | `pick_anim` sends one message with the animation prompt and returns `POINTS`; the user data and the table stay as they are (its keyboard is stated by `PickAnimKeyboard`) |
| Conversation.AnimButtons | icelanim.py:107-110 | one button per animation, labelled by it and carrying it as callback data, in order |
| Conversation.PickAnimKeyboard | icelanim.py:106-115 | `pick_anim` sends one message whose keyboard lists every animation of the table once, in order, two buttons to a row except the last, which holds one or two |
| Conversation.PickAnimReply | icelanim.py:125-130 | `pick_anim_reply` stores under `animation` the result of `query.answer()`, which is never a text value; every other key keeps its value, nothing is sent, the table is untouched, and it moves to `POINTS` |
| Conversation.EnterPoints | icelanim.py:87-97 | `enter_points` ends the conversation exactly when `player` or `animation` is missing, goes to `POINTS_REPLY` otherwise, and delivers no message |
| Conversation.BindWrite | icelanim.py:137 | `write(**user_data, points=n)` binds exactly when the user data's keys are `anim` and `player`; otherwise it raises `TypeError` |
| Conversation.Perform | icelanim.py:137 | the bound call acts on the table as `write`, and keeps the table well formed |
| Conversation.EnterPointsReply | icelanim.py:133-141 | `enter_points_reply` ends the conversation on every input, and changes the table only for an integer reply with user data keyed exactly `anim` and `player` |
| Conversation.EnterPointsReplyWrites | icelanim.py:133-141 | with user data `{anim: a, player: p}` and reply `int` `n`, the table becomes `write(a, p, n)` |
| Conversation.AnimationKeyBreaksWrite | icelanim.py:137-141 | once `animation` is in the user data, `enter_points_reply` never changes the table |
| Conversation.Route | icelanim.py:170-179 | outside a conversation only `/start` opens one, and it runs `pick_player`; only text messages are handled; `pick_anim_reply` is never chosen |
| Conversation.Invoke | icelanim.py:170-179 | running any handler keeps the table well formed |
| Conversation.Deliver | icelanim.py:170-179 | one update through the conversation handler keeps the table well formed |
| Conversation.Run | icelanim.py:170-179 | a sequence of updates keeps the table well formed |
| Conversation.DeliverInert | icelanim.py:170-179 | no step adds `animation` or `anim` to the user data, none changes the table, and none enters `POINTS_REPLY` |
| Conversation.WiredRunInert | icelanim.py:170-179 | over any sequence of updates: the table never changes, `animation` and `anim` never appear, and `POINTS_REPLY` is never entered |
| Conversation.PointsNeverRecorded | icelanim.py:66 | from a user's first contact, no sequence of updates changes the dummy table or reaches `POINTS_REPLY` |
| Conversation.DeliverStart | icelanim.py:100-103 | `/start` runs `pick_player`: it asks for the username and waits in `PLAYER_REPLY` |
| Conversation.DeliverAtPlayerReply | icelanim.py:118-122 | in `PLAYER_REPLY`, any text becomes `user_data['player']` and the conversation moves to `ANIM` |
| Conversation.DeliverAtAnim | icelanim.py:106-115 | in `ANIM`, any text runs `pick_anim` and moves to `POINTS` |
| Conversation.DeliverAtPoints | icelanim.py:87-93 | in `POINTS` without `animation`, any text ends the conversation, with no message and no change |
| Conversation.RunFirst | icelanim.py:170-179 | a run is its first update followed by the rest |
| Conversation.Walkthrough | icelanim.py:100-141 | `/start`, a username, any text, then the points: the bot asks for the username, shows the animation keyboard, and ends with only `player` stored and the table unchanged |
| Conversation.Chat.Handle | icelanim.py:87-141 | each handler updates `user_data` and the storage in place, as its step function says |
| Conversation.Chat.Receive | icelanim.py:170-179 | one update changes the session and the storage as `Deliver` says, and keeps the storage valid |

## Left out

- Telegram transport is left out: `Update` objects, `reply_text`, `InlineKeyboardMarkup` rendering, `callback_query.answer`, `async`/`await` and `run_polling` (icelanim.py:4-12, 168-182). These are a foreign library. Updates are an input datatype, and sent messages are output values.
- Route: `/start@<bot name>`, case-insensitive command matching and Telegram's command entities are not modelled. A `/start` is the exact text `/start`, optionally followed by a character that cannot continue a command.
- Route: an empty message text is routed like any other, while `filters.TEXT` rejects it. Telegram never delivers a message with empty text, so nothing depends on this.
- Route: edited messages, channel posts, and several users or chats are not modelled. One user in one chat is modelled; that user's `user_data` lasts across conversations, as in the library.
- Conversation.EnterPointsReply: the source defines this handler as a plain function, not a coroutine. The library awaits what a handler's callback returns, and awaiting the `int` `END` would raise `TypeError` after the write has happened, before the conversation records `END`; the running bot would then stay in `POINTS_REPLY`. The model records the `END` the function returns. The flow never reaches `POINTS_REPLY`, so the wired flow is unaffected.
- Conversation.Perform: with a text `anim` and a non-text `player`, Python would insert a non-string key. The model leaves the table unchanged instead. No handler ever sets `anim`, so this case cannot arise.
- Menu.Chunks: `n_cols == 0` is excluded by a requires; there `range(0, len(buttons), 0)` raises `ValueError`, which the model does not represent. The only caller passes 2.
- Ints.ParseInt: CPython's 4300-digit limit on int/str conversion is not modelled; a message text has at most 4096 characters, so icelanim.py:136 never reaches it. The same limit on `str(n)` is not modelled in Ints.NatStr, which the model only applies to 0..19.
- Ints.ParseInt: non-ASCII decimal digits, and non-ASCII white space outside Latin-1 (U+1680, U+2000..U+200A, U+2028, U+2029, U+202F, U+205F, U+3000), are not modelled; `int()` accepts them, the model refuses them.
- Loading the keys from `.keys` (icelanim.py:14) and the logging setup and `logger.error` calls (icelanim.py:17-20, 42, 139) are left out. They are file I/O and side effects.
- `Storage.__init__` and `Storage.save` (icelanim.py:27-36) are left out. They are file I/O stubs marked TODO that store a file handle. `Storage.Storage.Dummy` does not model the file open that `dummy()` does before it replaces the table.
- The `help` handler (icelanim.py:83-84) is left out. It only sends a fixed text, and `main` never registers it.
- `list_anims`, `list_points` and `list_players` (icelanim.py:144-164) are left out. They format reply strings and are not registered in `main`.
- `nfc_payload.py` is not part of this model. It is a command-line script that base64-encodes a username and a code from `.keys` and prints a link.
- Registering and removing players, the CSV snapshot format and point accumulation are left out. No code in the source implements them.
