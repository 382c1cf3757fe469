# pytgpt-bot: the chat settings store, callback payloads and handler gate

pytgpt-bot is a Telegram bot. It relays chat text to a text-generation
provider, turns text into images or speech, and keeps one settings record per
chat: intro, provider, voice, history and an active flag. This project
models the part of the bot that decides and stores things:

- the record store behind `User(...)`, which gets a record or creates it with
  the column defaults, and the table of pending regenerate actions (`Temp`)
  (`db.py`, `models.py`);
- the custom filters that decide whether a handler runs (`filters.py`);
- `handler_formatter`, the wrapper around every command handler. It strips
  the command, refuses missing text and contains exceptions (`main.py`);
- the handlers that change a record:
  - `/intro`, `/voice`, `/provider` and `/awesome`, together with their
    picker callbacks;
  - `/suspend`, `/resume`, `/reset` and `/clear`;
  - the text chat, which overwrites the history;
- the media commands with their regenerate and delete buttons. This covers
  the payload strings those buttons carry (`media:{user}:{token}`,
  `delete:{chat}:{message}`, `{value}:{user}`), how the callbacks split those
  strings back into fields, and which callback handler a payload reaches.

Modules, one file each:

| file | module | what it holds |
|---|---|---|
| `wrappers.dfy` | `Wrappers` | `Option` and `Result` |
| `text.dfy` | `Text` | Python's `str.split(sep)` and `sep.join`, `str(int)` and its inverse, and the command helpers `extract_command` and `extract_arguments` |
| `models.dfy` | `Models` | `Config`, the `Chat` and `Temp` records, `NewChat` with the column defaults, the validity predicates, `Message`, and the replies and actions the handlers produce |
| `db.dfy` | `Db` | key resolution; `WithRecord` and `Upsert`, which specify the store updates; class `Store`, whose tables are `map` fields updated in place |
| `filters.dfy` | `Filters` | the five filters |
| `gate.dfy` | `Gate` | `handler_formatter` as a function over an abstract handler body |
| `payload.dfy` | `Payload` | building and unpacking the button payloads, and routing callbacks |
| `settings.dfy` | `Settings` | `/intro`, the three pickers and their callbacks |
| `lifecycle.dfy` | `Lifecycle` | `/suspend`, `/resume`, `/reset`, `/clear` |
| `media.dfy` | `Media` | regenerate and delete buttons, media commands and callbacks, and the text chat |

The handlers are methods on a `Store`. Each method returns the actions it
takes, in order: replies by kind, and message deletions. Its contract ties
the new tables to `WithRecord` or `Upsert` applied to the old ones. Three
things become parameters:

- A generation provider's result is a parameter: `generated`, or `respond`
  for the chat.
- A fresh `uuid4()` token is a parameter that must not already be filed.
- The configuration (default intro, provider and voice, admin ids, voices,
  g4f providers, awesome prompts) is a `Config` value.

Where the source files disagree with each other, the model follows
`main.py`, the code that runs:

- The record has the `is_active` column that `main.py` reads and writes
  (pytgpt_bot/main.py:565, 576). `models.py` has no such column. The model
  gives it the default `True`, because the active filter lets a new record
  through.
- The pending-action table `Temp(uuid, provider, prompt)` is modelled as
  `main.py` uses it (pytgpt_bot/main.py:231-237). `models.py` does not
  define it.
- The owner filter reads `admin_ids`, a set of strings. `is_admin` reads
  the single `admin_id`. `config.py` defines only `admin_id` and has no
  default provider. Both values come from `Config`.
- `get_user_id`, `make_delete_markup` and `get_g4f_providers` are imported
  from `utils.py`, which does not define them:
  - `get_user_id(message)` is taken to be `str(message.from_user.id)`;
  - the g4f provider list is part of `Config`;
  - the delete button on ordinary replies is not modelled.
- The `/intro` refusal says the intro "must be at least 10 characters
  long", but the code refuses any intro that is not longer than 10
  (pytgpt_bot/main.py:278). The model follows the code: an intro of exactly
  ten characters is refused.

Store keys are integers (`id` is an `Integer` primary key). Some handlers pass
a user id as text, for example one taken from a callback payload. A text id
is filed under the integer it spells in decimal. Text that is not a decimal
integer is refused with `BadKey`, as SQLite refuses a non-integer value for
an integer primary key.

## Model

| member | source | states |
|---|---|---|
| Models.NewChat | pytgpt_bot/models.py:26-32 | a new record has the given id, the configured default intro, provider and voice, an empty history, and is active; it passes validation |
| Models.Providers | pytgpt_bot/main.py:347 | a provider may be chosen exactly when it is in `provider_keys` or the g4f providers |
| Text.Split | pytgpt_bot/main.py:327 | `str.split(sep)` always yields at least one field; the first field is a prefix of the text, followed by the separator when it is not all of it; no field holds the separator |
| Text.SplitJoin | pytgpt_bot/main.py:239 | splitting fields joined by a separator they do not contain gives the fields back |
| Text.JoinSplit | pytgpt_bot/main.py:327 | joining the fields of a split gives the text back |
| Text.SplitField | pytgpt_bot/main.py:722 | a text starting with a separator-free field and the separator splits into that field followed by the split of the rest |
| Text.SplitPrefix | pytgpt_bot/filters.py:84 | a separator-free prefix extends the first field of the split and leaves the other fields alone |
| Text.NatToDecimal | pytgpt_bot/filters.py:26 | `str(n)` of a natural number is non-empty, all digits, and has no leading zero |
| Text.IntToDecimal | pytgpt_bot/filters.py:26 | `str(n)` is non-empty and holds only digits after an optional leading minus |
| Text.ParseInt | pytgpt_bot/db.py:18 | a text that reads as an integer id is non-empty, and without a leading minus it reads as a non-negative id |
| Text.DigitsValueOfDecimal | pytgpt_bot/filters.py:26 | the digits of `str(n)` read back as `n` |
| Text.ParseIntToDecimal | pytgpt_bot/main.py:330 | an id printed with `str` and read back is the same integer |
| Text.DecimalInjective | pytgpt_bot/filters.py:26 | two ids print the same exactly when they are equal |
| Text.DecimalHasNoSeparator | pytgpt_bot/main.py:239 | a printed id contains no character other than digits and the minus sign, so no `:` or space |
| Text.ExtractCommand | pytgpt_bot/filters.py:95 | defined exactly for text starting with `/`; the command is everything after the `/` up to the first space or `@` (or the end), and holds neither |
| Text.ExtractArguments | pytgpt_bot/main.py:130 | defined exactly for command text; the argument is a strict suffix of the text; when the text holds a space it is everything after the first space; it is empty when the text has no space |
| Db.IsAdmin | pytgpt_bot/db.py:28-31 | `is_admin` holds exactly when the record's id prints as the configured `admin_id` does, that is, when the two ids are equal |
| Db.KeyOf | pytgpt_bot/models.py:28 | an integer id is its own key; only a text id can be refused, and then with `BadKey` |
| Db.KeyOfIdText | pytgpt_bot/db.py:18 | an id and its text form are filed under the same key |
| Db.ResolveKey | pytgpt_bot/db.py:17-18 | construction fails with `MissingIdentity` exactly when there is no message and no truthy user id; a truthy user id takes precedence over the sender's id |
| Db.ResolvePrintedId | pytgpt_bot/main.py:298-301 | the sender's id, printed and passed back as `user_id`, resolves to the sender's key |
| Db.WithRecord | pytgpt_bot/db.py:19-26 | get-or-create keeps every existing row unchanged and adds the key; a missing key gets exactly one new default row, so the table grows by one |
| Db.WithRecordIdempotent | pytgpt_bot/db.py:19-26 | get-or-create twice on the same key is get-or-create once |
| Db.Upsert | pytgpt_bot/main.py:284-285 | changing one field of the caller's record touches no other record, and applies the change to the existing row or to a new default row |
| Db.UpsertKeepsTablesOk | pytgpt_bot/main.py:300-301 | a validated change keeps every record valid and filed under its own id |
| Db.Store.constructor | pytgpt_bot/models.py:45 | the store starts with both tables empty |
| Db.Store.GetOrCreate | pytgpt_bot/db.py:10-26 | `User(message, user_id)` resolves the key or fails as `ResolveKey` does; an existing row is returned unchanged; otherwise one default row is inserted; the pending table is untouched |
| Db.Store.Update | pytgpt_bot/main.py:285 | `user.chat.<field> = value` changes only that record, and only with a validated value |
| Db.Store.Delete | pytgpt_bot/db.py:33-35 | `delete` removes that record and nothing else |
| Db.Store.AddTemp | pytgpt_bot/main.py:231-237 | a pending action is filed under its fresh token and the chat table is untouched |
| Db.Store.FindTemp | pytgpt_bot/main.py:730 | the lookup finds a pending action exactly when its token is filed, and the action it finds carries that token |
| Db.Store.Clear | pytgpt_bot/main.py:586-587 | both tables end up empty |
| Filters.IsChatAdmin | pytgpt_bot/filters.py:45-54 | the admin filter holds for every chat type |
| Filters.IsBotTagged | pytgpt_bot/filters.py:82-86 | the tagged filter fails without text, and holds only for text longer than the username |
| Filters.BotTaggedIff | pytgpt_bot/filters.py:82-86 | the bot is tagged exactly when the text starts with `@` and the username, and the tag is followed by a space or by nothing |
| Filters.IsChatCommand | pytgpt_bot/filters.py:94-96 | the chat-command filter fails exactly on a command whose name is non-empty and is not `chat` |
| Filters.IsActive | pytgpt_bot/filters.py:14-17 | the active filter returns the active flag of the sender's record (for a button press, the sender of the carrying message), and creates a default active record when it is missing |
| Filters.IsBotOwner | pytgpt_bot/filters.py:25-26 | the owner filter holds exactly when the printed id is an admin id, and creates the sender's record when it is missing |
| Filters.OwnerFilterMatchesIsAdmin | pytgpt_bot/db.py:28-31 | when the admin ids are just the printed `admin_id`, the owner filter agrees with `is_admin` (`chat.id == admin_id`) on every record |
| Gate.Argument | pytgpt_bot/main.py:129-130 | without `preserve` the handler sees only the command's argument, which is strictly shorter than the text, and sees nothing when the text is no command; with `preserve` it sees the whole text |
| Gate.Run | pytgpt_bot/main.py:109-154 | the handler runs unless text is required and missing; a refused call makes one "text is required" reply; a handler that raises has its actions followed by one generic error reply and nothing is raised further |
| Gate.ErrorRepliesAppend | pytgpt_bot/main.py:146-150 | generic error replies in two action lists add up |
| Gate.ThrowRepliedOnce | pytgpt_bot/main.py:140-150 | a handler that raises costs exactly one generic error reply, and that reply is the last action |
| Gate.TextRequiredShortCircuit | pytgpt_bot/main.py:132-137 | with text required and an empty argument, the outcome does not depend on the handler body and is exactly one "text is required" reply |
| Payload.PickPayload | pytgpt_bot/main.py:310 | a picker button carries `{value}:{user_id}` |
| Payload.MediaPayload | pytgpt_bot/main.py:239 | a regenerate button carries `media:{user_id}:{token}` |
| Payload.DeletePayload | pytgpt_bot/main.py:242 | a delete button carries `delete:{chat_id}:{message_id}` with both ids printed in decimal |
| Payload.PickerPayloads | pytgpt_bot/main.py:309-312 | a picker has one button per offered value, in order, each carrying `{value}:{user_id}` |
| Payload.Unpack2 | pytgpt_bot/main.py:327 | two-name unpacking succeeds exactly on two fields, otherwise fails with a mismatch; the first field is the tag and the fields join back to the payload |
| Payload.Unpack3 | pytgpt_bot/main.py:727 | three-name unpacking succeeds exactly on three fields, otherwise fails with a mismatch; the fields join back to the payload |
| Payload.PickRoundTrip | pytgpt_bot/main.py:309-310 | a picker payload unpacks to its value and user id |
| Payload.MediaRoundTrip | pytgpt_bot/main.py:238-240 | a regenerate payload unpacks to `media`, the user id and the token |
| Payload.DeleteRoundTrip | pytgpt_bot/main.py:241-243 | a delete payload unpacks to `delete` and the two printed ids, which read back as the ids |
| Payload.RouteCallback | pytgpt_bot/main.py:321-323 | callback handlers are tried in registration order: voices, then providers, then awesome prompts (each on the payload's first field), then the `media:` prefix, then the `delete:` prefix; a payload whose first field no value set claims reaches the media handler exactly when it starts with `media:`, the delete handler exactly when it starts with `delete:` and not `media:`, and no handler otherwise |
| Payload.PickerRoutes | pytgpt_bot/main.py:367-369 | a picker button reaches the handler of the first value set its value belongs to |
| Payload.MediaPayloadRoutes | pytgpt_bot/main.py:722 | a regenerate button reaches the media handler unless `media` is also a voice, provider or awesome-prompt name |
| Payload.DeletePayloadRoutes | pytgpt_bot/main.py:795 | a delete button reaches the delete handler unless `delete` is also a voice, provider or awesome-prompt name |
| Settings.IntroToStore | pytgpt_bot/main.py:277-285 | an intro is stored exactly when the handler confirms it; a stored intro is longer than ten characters and valid |
| Settings.IntroCases | pytgpt_bot/main.py:277-283 | an awesome-prompt name stands for its prompt; an intro of ten characters or fewer is refused with its own reply and nothing is stored |
| Settings.SetChatIntro | pytgpt_bot/main.py:272-290 | `/intro` replies as the gate and the intro body decide; only a stored intro changes the record |
| Settings.PatchFor | pytgpt_bot/main.py:301 | a value chosen from a picker's offer always passes validation |
| Settings.Chosen | pytgpt_bot/main.py:299-300 | a value is chosen exactly when the argument is non-empty and one of the offered values |
| Settings.PickSetting | pytgpt_bot/main.py:298-318 | a valid argument is stored and confirmed; anything else deletes the command, shows the picker, and changes no record |
| Settings.SetNewSpeechVoice | pytgpt_bot/main.py:293-318 | a voice is stored only when it is one of the voices; otherwise no record changes and the picker is shown |
| Settings.SetNewChatProvider | pytgpt_bot/main.py:340-364 | a provider is stored only when it is in `provider_keys` or the g4f providers; otherwise no record changes and the picker is shown |
| Settings.SetAwesomeIntro | pytgpt_bot/main.py:386-411 | behind the active filter, an awesome-prompt name sets the intro to that prompt; an inactive chat gets nothing |
| Settings.PickTarget | pytgpt_bot/main.py:327-330 | a picker payload resolves to its first field and a record key |
| Settings.PickTargetRoundTrip | pytgpt_bot/main.py:309-310 | a picker button reaches back to the record of the sender it was shown to, with the button's value |
| Settings.PickCallback | pytgpt_bot/main.py:324-337 | a picker callback deletes the picker and then confirms and stores the value, or raises with the record untouched |
| Settings.VoiceCallback | pytgpt_bot/main.py:321-337 | the voice callback stores the pressed voice on the record the payload names |
| Settings.ProviderCallback | pytgpt_bot/main.py:367-383 | the provider callback stores the pressed provider on the record the payload names |
| Settings.AwesomeCallback | pytgpt_bot/main.py:414-430 | the awesome callback sets the named record's intro to the pressed prompt |
| Lifecycle.Suspend | pytgpt_bot/main.py:560-568 | suspend runs only for an active chat, sets its flag to false, and changes nothing else |
| Lifecycle.Resume | pytgpt_bot/main.py:571-579 | resume runs whatever the flag is and sets it to true |
| Lifecycle.Reset | pytgpt_bot/main.py:546-557 | reset runs only for an active chat and deletes exactly the caller's record |
| Lifecycle.DropAfterLookup | pytgpt_bot/main.py:551-552 | deleting the record just looked up leaves the table as it was, minus that record |
| Lifecycle.ClearChats | pytgpt_bot/main.py:582-595 | an owner empties both tables; anyone else gets no reply and only the filter's record |
| Lifecycle.SuspendBlocksResumeUnblocks | pytgpt_bot/main.py:565-576 | after suspend the active filter refuses the chat; after resume it lets the chat through |
| Lifecycle.SuspendThenResume | pytgpt_bot/main.py:560-579 | suspending an active chat and resuming it restores the table |
| Lifecycle.ResetRestoresDefaults | pytgpt_bot/main.py:552 | after a reset the next lookup finds a default, active record |
| Media.KindOfTag | pytgpt_bot/main.py:734-741 | exactly `default`, `prodia` and `speech` name a kind of media, each naming the kind that records it |
| Media.KindOfProviderTag | pytgpt_bot/main.py:481-531 | every kind is recovered from the provider name it records |
| Media.Caption | pytgpt_bot/main.py:479-529 | the caption starts with the prompt; a speech clip's caption is the prompt alone, and an image's is the prompt followed by its provider's name in parentheses, ` (default)` or ` (prodia)` |
| Media.MakeRegenerateAndDeleteMarkup | pytgpt_bot/main.py:216-245 | the pending action is filed under the fresh token, and the buttons carry `media:{user}:{token}` and `delete:{chat}:{message}` |
| Media.MediaButtonsRoundTrip | pytgpt_bot/main.py:230-243 | produced media has one reply whose buttons unpack to the sender and token, and to the message's ids; speech is voiced with the sender's stored voice |
| Media.ProduceMedia | pytgpt_bot/main.py:467-535 | media follows `MediaOutcome`; speech looks the sender's record up first; a failed lookup or generation leaves no pending action behind |
| Media.MediaCommand | pytgpt_bot/main.py:486-543 | behind the active filter, a media command needs a non-empty argument, uses it as the prompt, and files a pending action only for media actually sent |
| Media.Regeneration | pytgpt_bot/main.py:727-730 | a regenerate payload yields the user id and finds the pending action exactly when its token is filed |
| Media.RegenerateRoundTrip | pytgpt_bot/main.py:230-239 | a regenerate button finds the user and the pending action it was made with |
| Media.RegeneratePressed | pytgpt_bot/main.py:727-741 | pressing a regenerate button whose action is filed produces the same kind of media from the same prompt, for the button's user |
| Media.UnknownTokenClears | pytgpt_bot/main.py:742-747 | a button whose action was cleared gets exactly one "cache cleared" reply |
| Media.UnknownProviderIgnored | pytgpt_bot/main.py:732-741 | a pending action naming none of the three providers does nothing |
| Media.MediaCallback | pytgpt_bot/main.py:722-747 | the regenerate callback follows `RegenerateOutcome`; no filed action is removed or changed; a new one is filed only for media actually sent |
| Media.DeleteCallback | pytgpt_bot/main.py:795-808 | the delete callback succeeds exactly on a three-field payload and otherwise raises the unpacking mismatch with nothing done; it deletes the message the last two fields name, then the message carrying the button |
| Media.DeleteButtonRoundTrip | pytgpt_bot/main.py:795-808 | a delete button deletes the message it was made for, then the message carrying it |
| Media.ChatPrompt | pytgpt_bot/main.py:692-693 | the prompt is the whole text, or the argument when the text is a named command |
| Media.TextChat | pytgpt_bot/main.py:683-719 | behind the active and chat-command filters, a reply overwrites only the caller's history; a failed provider changes nothing |

## Left out

- Telegram I/O is left out: sending, replying, photos, audio, `send_chat_action`, polling, and async scheduling. Each handler returns the replies and deletions it makes, by kind. The wording of replies and the random emoji are not modelled.
- `send_long_text` and `smart_split` are left out. A long chat reply is one `ChatResponse`, not several parts.
- Delete buttons on ordinary replies (`make_delete_markup`) are left out. That helper is not part of this model. Only the delete button under media is modelled.
- The generation providers are left out (`Conversation`, `AsyncImager`, `AsyncProdia`, `Audio`, `AsyncGPT4FREE`, `provider_map`). They are foreign libraries. Their success is a parameter (`generated`, `respond`), and the chat history is an opaque string that a reply overwrites.
- `uuid4()` is a token parameter, under the assumption that it is fresh.
- SQLAlchemy, the session, AUTOCOMMIT and `create_all`/`drop_all` are replaced by two in-memory maps. Column widths (`String(20)`, `String(30)`) are not enforced.
- Logging, `/start`, `/myid`, `/check`, `/history`, `/total`, `/drop`, `/sql` and `/logs` are left out. Their replies are reads of the store, file I/O or raw SQL. `/start`, `/check` and `/history` still look the sender up through `User(message)` (pytgpt_bot/main.py:255, 438, 458), so they create a default record when there is none; that effect is the get-or-create that `Db.Store.GetOrCreate` models. `/drop` drops and recreates both tables (pytgpt_bot/main.py:626-627), which leaves them empty as `Db.Store.Clear` does.
- The inline query handler and the `any_other_action` fallback are left out. The inline handler looks the sender up through `User(user_id=...)` (pytgpt_bot/main.py:757), which creates a default record when there is none, as `Db.Store.GetOrCreate` models; otherwise both only reply.
- The channel-post registrations are left out. Channel posts reach the same handlers through the same bodies. The channel variant of the text chat is registered with `commands=["chat"]` instead of the chat-command filter.
- Telegram's 64-byte callback payload limit is not modelled.
- Filter order is fixed as the registrations list the filters: a command matches first, then the admin filter, then the active filter.
- Text.ExtractArguments: telebot's `extract_arguments` skips every whitespace character after the command. Here only the first space is dropped, and the argument is the text after it, or the empty string when there is no space.
- Text.ExtractCommand: telebot's `extract_command` is `text.split()[0].split('@')[0][1:]`, and `split()` breaks on any whitespace. Here the first token ends only at a space, so a tab or newline right after the command is not a boundary.
- Media.MediaCallback: the `message.from_user.id = user_id` assignment is modelled only through the id the speech lookup and the new regenerate button use.
- Media.TextChat: the provider-class choice (`provider_map` or g4f) and `max_tokens` are inside `respond`.
