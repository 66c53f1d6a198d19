# Telegram chat-membership tracker and yes/no conversation, in Dafny

This project models the logic of two small Telegram bots written with
python-telegram-bot.

- **Membership tracker** (`main3.py`). `extract_status_change` turns the old
  and new status of a chat member into a pair (was a member, is a member).
  `track_chats` uses that pair to add or remove the chat's identifier in one
  of three sets kept in `context.bot_data`: "user_ids", "group_ids" or
  "channel_ids". `start_private_chat` records a private chat on its first
  message that none of the bot's command handlers (`/show_chats`, `/call`,
  `/help`, `/show_admins`) takes. `greet_chat_members` picks a welcome, a
  farewell or silence. `show_admins` builds one HTML link per
  administrator. Each link's label is the administrator's custom title
  followed by an emoji taken from a 100-entry table at `admin_id % 100`.
- **Conversation** (`main2.py`). Each handler returns the next conversation
  state: GENDER (0), ADRESS (1) or the library's END (-1). The
  `ConversationHandler` declaration says which handler each state accepts.

Modules:

- `Telegram`: statuses, chat types, chats and `Option`.
- `Membership`: `extract_status_change` and the greeting choice.
- `ChatTracker`: `bot_data` as a class whose `data` field is a map from key
  to set. It holds the handlers that update the map in place, and the pure
  functions that specify them.
- `Decimal`: Python's `str` of an integer, with its inverse.
- `AdminList`: the emoji table, the link text and the `show_admins` loop.
  The link functions and the loop take the emoji table as a parameter with at
  least 100 entries. `ShowAdmins` passes the source's table, `Emojis`.
- `Conversation`: the handlers' return values and the routing table.

The emoji table at main3.py:43 has 100 entries, and the code indexes it with
`% 100`. With a positive divisor, Python's `%` and Dafny's `%` both give a
result in 0..99, negative identifiers included.

The docstring of `extract_status_change` (main3.py:48-49) says it returns
`None` when the status did not change. The code (main3.py:51-55) returns
`None` exactly when the difference has no "status" entry, and the model
follows the code. When both sides count the same, `track_chats` and
`greet_chat_members` do nothing either way.

## Model

| member | source | states |
|---|---|---|
| Membership.ExtractStatusChange | main3.py:46-69 | None exactly when the difference has no "status" entry. Otherwise both sides follow one table: member, owner and administrator count; left and banned never count; restricted counts exactly when its `is_member` flag is True, so None and False do not count |
| Membership.GreetChatMembers | main3.py:192-211 | a welcome exactly on (False, True), a farewell exactly on (True, False), silence when the status did not change |
| Membership.WelcomeIffJoined | main3.py:194-206 | a welcome is posted exactly when the old status is not membership and the new one is |
| ChatTracker.KeyFor | main3.py:84-107 | private chats go to "user_ids"; groups and supergroups go to "group_ids"; every other type goes to "channel_ids" (each an if-and-only-if) |
| ChatTracker.WithAdded | main3.py:91 | `setdefault(k, set()).add(id)` creates the key if needed, adds the id, and leaves every other key as it was |
| ChatTracker.WithDiscarded | main3.py:94 | `setdefault(k, set()).discard(id)` removes the id, never fails, and leaves the set unchanged when the id was absent |
| ChatTracker.AfterTrackChats | main3.py:72-107 | the state is unchanged when there is no status change or the membership did not flip. A join adds the chat to exactly the set for its type; a leave removes it; no other key changes |
| ChatTracker.AfterStartPrivateChat | main3.py:214-225 | a private chat not yet in "user_ids" is added to it, and nothing else changes |
| ChatTracker.WithAllKeys | main3.py:115-117 | `show_chats` creates the three keys and changes no set |
| ChatTracker.TrackChatsIdempotent | main3.py:84-107 | applying the same update twice has the same effect as applying it once |
| ChatTracker.JoinThenLeave | main3.py:84-107 | after a join and then a leave, the chat is out of its set, other keys are unchanged, and a chat that was untracked before leaves the set as it was |
| ChatTracker.StartPrivateChatIdempotent | main3.py:221-225 | starting the same private chat twice has the same effect as starting it once |
| ChatTracker.StartAfterPrivateJoin | main3.py:84-91 | after an unblock in a private chat, `start_private_chat` finds the chat recorded and changes nothing |
| ChatTracker.Bot.SetDefaultAdd | main3.py:91 | the map becomes `WithAdded` of the old map |
| ChatTracker.Bot.SetDefaultDiscard | main3.py:94 | the map becomes `WithDiscarded` of the old map |
| ChatTracker.Bot.TrackChats | main3.py:72-107 | the map becomes `AfterTrackChats` of the old map |
| ChatTracker.Bot.StartPrivateChat | main3.py:214-229 | the map becomes `AfterStartPrivateChat` of the old map; the welcome is sent exactly for a private chat not yet in "user_ids" |
| ChatTracker.Bot.ShowChats | main3.py:110-117 | the map becomes `WithAllKeys` of the old map |
| AdminList.EmojisSize | main3.py:43 | the emoji table has exactly 100 entries |
| AdminList.EmojiIndex | main3.py:171 | the emoji index is in 0..99 and is the id's residue modulo 100, negative ids included |
| AdminList.IndexInBoundsIff | main3.py:43 | indexing by `id % 100` is in bounds for every id exactly when the table has at least 100 entries |
| AdminList.EmojiPeriodic | main3.py:171-174 | ids 100 apart get the same emoji |
| AdminList.AdminLinkTarget | main3.py:171-174 | each link's href reads back as the id of the administrator it was written for |
| AdminList.AdminLinksAppend | main3.py:168-174 | the text for a concatenated list is the concatenation of the texts, so the administrators' order is kept |
| AdminList.AdminLinksAround | main3.py:168-174 | each administrator's newline-terminated link sits between the links of those listed before it and those listed after it |
| AdminList.ShowAdminsWith | main3.py:168-174 | the loop builds exactly `AdminLinks(table, admins)`: one link per administrator, in order, labelled with the title plus the emoji, or the emoji alone |
| AdminList.ShowAdmins | main3.py:158-176 | the text sent is `AdminLinks(Emojis, admins)`, built with the 100-entry table |
| Decimal.NatToString | main3.py:171 | the rendered id is at least one digit, all digits, with no leading zero |
| Decimal.IntToString | main3.py:171 | the rendered id starts with '-' exactly for a negative id; the rest is digits |
| Decimal.IntToStringRoundTrip | main3.py:171 | reading the rendered id back gives the same id |
| Decimal.IntToStringInjective | main3.py:171 | two different ids never render the same |
| Conversation.MatchesYesNoIff | main2.py:117 | the GENDER filter (a regular expression anchored at both ends) accepts exactly "Да", "Нет" and each of them followed by one newline |
| Conversation.EntryHandler | main2.py:115 | only `/start` opens the conversation, and it goes to `start` |
| Conversation.StateHandler | main2.py:116-119 | in GENDER, only text the filter accepts goes to `gender`. In ADRESS, text that is not a command goes to `adress`, `/skip` goes to `skip_adress`, and other commands go nowhere. Other states have no handlers |
| Conversation.FallbackHandler | main2.py:120 | only `/cancel` is a fallback, and it goes to `cancel` |
| Conversation.Run | main2.py:36-106 | `start` returns GENDER. `gender` returns ADRESS exactly on the text "Да". Every other handler and answer returns END |
| Conversation.AdressAlwaysEnds | main2.py:76-120 | from ADRESS, every accepted message and `/cancel` end the conversation |
| Conversation.GenderAnswers | main2.py:59-74 | "Да" leads on to ADRESS; "Нет", and "Да" followed by a newline, both pass the filter and end the conversation |
| Conversation.CommandsAreNotAnswers | main2.py:117 | no command passes the GENDER filter |

## Left out

- Telegram I/O is not modelled: `send_message`, `reply_text`, `get_administrators`, `mention_html` and the polling loop. `show_admins` takes the administrator list as a parameter and returns the text it would send. `greet_chat_members` returns which message it would post. `start_private_chat` returns whether it would reply.
- `ChatMemberUpdated.difference()` is library code and is not part of this model. Its "status" and "is_member" entries are the input datatype `Membership.Difference`.
- Which message reaches which handler (`filters.TEXT`, `filters.COMMAND`, `CommandHandler` parsing) is library code. A message is modelled as a command name or as non-command text.
- `ConversationHandler` dispatch is not modelled: the precedence of state handlers over fallbacks, what END does to stored state, and the per-user state store. Only the declared table and the handlers' return values are.
- `call` (main3.py:127-150) is not modelled. It is I/O-driven, and its loop refers to an undefined name `user_id`, which raises NameError.
- The reply text of `show_chats` is not modelled, because it lists set elements in Python's unspecified iteration order. Only its `setdefault` side effect is.
- `help`, both `main()` functions, logging, `print`, the Russian reply wording and the HTML markup beyond the link shape are not modelled. They are fixed text or setup code.
- `bot_data` keys other than the three the handlers use are not modelled.
- ChatTracker.Bot.StartPrivateChat: an update with no effective user, such as a post in a channel the bot is in, makes `start_private_chat` raise at main3.py:219 before any test. The model treats that case as "no change, no welcome", which matches the state the source leaves behind, but not the exception.
- Handlers are assumed to run one at a time, as the single-threaded event loop runs them.
