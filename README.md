# Personal-brain bot core in Dafny

This project models the logic at the centre of a small personal-assistant
service. The service is a Telegram bot backed by SQLite and a Chroma vector
store. The project proves properties of that model.

- **Reminders** (`reminders.dfy`): the `reminders` table as a class over a
  sequence of rows.
  - `_ensure_schema` is an additive migration, one `ALTER TABLE` per missing
    column.
  - `add_reminder` is an insert.
  - One iteration of the `start_reminders` loop: select the rows that are
    unsent, due and have a chat, then send and mark them one by one.
  - The first send that raises ends the iteration.
  - The clock is a parameter. `due_at` is compared as text, the way SQLite
    compares two strings.
  - Over any sequence of inserts and passes, no reminder is delivered twice,
    and rows without a chat id are never touched.
- **Namespaces** (`links.dfy`): the `chat_links` table as a class over a map
  from `str(chat_id)` to a link code.
  - Operations: resolve, create (the code is the first ten characters of
    `uuid4().hex`, passed in as a parameter), join (overwrite) and unlink.
- **Memory** (`memory.dfy`): the Chroma collection as a sequence of
  `(id, document, metadata)` records.
  - `add_memory` numbers ids from the current count.
  - `query_memory` flattens the nested `documents` value.
  - The similarity search itself is given as the ranked positions of its
    hits.
- **Telegram front end** (`telegram_bot.dfy`):
  - the `/remind` parser;
  - the command router `_handle_commands`, as a class whose methods drive the
    link store and an outbox of sent messages;
  - one pass of the polling loop in `start_telegram`, with its
    `_last_update_id` offset rule.
- **Python built-ins** (`pytext.dfy`): the built-ins the code relies on.
  - `str.isspace`, `strip`, `split(maxsplit=k)` as CPython's
    `split_whitespace` does it, and `lower`;
  - `int()` and `str()` on base-10 integers, and `repr` of a string.
- **Argument binding** (`pycall.dfy`): how CPython binds a call's arguments
  to a plain function's parameters, and the `TypeError` text it raises when
  they do not fit.

Two calls in the bot do not fit the functions they call. Both are modelled
as the code is written:

- **`add_reminder(msg, due_at)`.** The call at `telegram_bot.py:109` passes
  two arguments. The function at `reminders.py:69` requires three.
  - CPython raises `add_reminder() missing 1 required positional argument:
    'due_at'`.
  - The `except` at line 112 replies "Could not set reminder. …".
  - So no `/remind` command ever stores a reminder (`RemindNeverSets`).
- **`query_memory(..., namespace=...)`.** `_build_prompt` passes the keyword
  `namespace=`, which the signature at `memory.py:11` lacks.
  - CPython raises `query_memory() got an unexpected keyword argument
    'namespace'`.
  - That happens for every text that is not a command.
  - The exception leaves the `for` loop of the polling pass. The updates
    after it in the batch are fetched again by the next `getUpdates`
    (`OffsetSplitsBatch`).

Randomness, the clock and the network are parameters of the model:

- `uuid4().hex` and `utcnow()` are an `Ambient` value per update.
- A delivery pass takes the clock text, whether a bot token is set, and the
  set of rows whose HTTP post raises.
- A polling pass takes the list of updates `getUpdates` returned.

## Model

| member | source | states |
|---|---|---|
| PyText.LStrip | telegram_bot.py:175 | the result has no leading whitespace and is no longer than the input |
| PyText.RStrip | telegram_bot.py:56 | the result is a prefix of the input, all of what it drops is whitespace, and it does not end in whitespace |
| PyText.Word | telegram_bot.py:52 | the first word holds no whitespace |
| PyText.AfterWord | telegram_bot.py:52 | what follows the first word is strictly shorter than the input |
| PyText.Split | telegram_bot.py:52 | every part of `split(maxsplit=k)` is non-empty and starts with a non-space character |
| PyText.LStripSuffix | telegram_bot.py:175 | `lstrip` keeps a suffix and drops only whitespace |
| PyText.WordPrefix | telegram_bot.py:52 | the first word is a prefix followed by whitespace or the end of the string |
| PyText.LStripDrops | telegram_bot.py:175 | `lstrip` drops exactly the leading whitespace run |
| PyText.WordEndsAt | telegram_bot.py:52 | the first word ends at the first whitespace character |
| PyText.SplitCount | telegram_bot.py:52-53 | `len(s.split(maxsplit=k))` is the number of fields, capped at `k + 1` |
| PyText.SplitAgreesWithFields | telegram_bot.py:52-55 | the first `k` parts of `split(maxsplit=k)` are the first `k` fields of `split()` |
| PyText.SplitWord | telegram_bot.py:52 | whitespace, a word, then whitespace or the end: the word is the first part and the split continues after it |
| PyText.SplitRemainder | telegram_bot.py:52 | once the split limit is reached, the rest after its leading whitespace, trailing whitespace included, is the last part |
| PyText.StrippedEnds | telegram_bot.py:56 | a string that `strip` leaves unchanged starts and ends with a non-space character |
| PyText.StripOfTrimmed | telegram_bot.py:86 | a string that starts and ends with a non-space character is left unchanged by `strip` |
| PyText.LStripEmpty | telegram_bot.py:124 | `lstrip` gives the empty string exactly when the string is all whitespace |
| PyText.StripTrims | telegram_bot.py:175 | `strip` keeps a middle slice of its input; the runs it drops at both ends are all whitespace, and what it keeps starts and ends with a non-space character |
| PyText.LowerKeepsSpace | telegram_bot.py:86 | lower-casing turns no character into whitespace and no whitespace into anything else |
| PyText.DigitValue | telegram_bot.py:55 | a decimal digit's value is below ten, and writing that value as a digit gives the same character back |
| PyText.NatToString | links.py:21 | `str(n)` is a non-empty run of digits with no leading zero for positive `n` |
| PyText.IntToString | links.py:17 | `str(n)` is non-empty, starts with `-` exactly for negative `n`, and is decimal digits otherwise |
| PyText.ParseInt | telegram_bot.py:55 | `int()` accepts only text that is not blank, and never text holding one of U+001C to U+001F, which `str.isspace` counts as whitespace but `int()` does not skip |
| PyText.DigitsValueOfNatToString | telegram_bot.py:55 | the digits of `str(n)` read back as `n` |
| PyText.NatToStringNoSpace | telegram_bot.py:55 | `str(n)` is a digit run with no whitespace |
| PyText.StripOfWord | telegram_bot.py:56 | `strip` leaves a string without whitespace unchanged |
| PyText.ParseIntOfDigits | telegram_bot.py:55 | `int()` of a digit run, with or without a minus sign, is its value |
| PyText.ParseIntOfIntToString | telegram_bot.py:55 | `int(str(n)) == n` for every integer |
| PyText.ParseIntOfNatToString | telegram_bot.py:55 | `int()` of the decimal form of a natural number, with or without a minus sign, gives that number back, negated for the minus sign |
| PyText.IntToStringInjective | links.py:17 | distinct integers render as distinct strings, so `str(chat_id)` identifies a chat |
| PyText.Repr | telegram_bot.py:55 | `repr(s)` is at least two characters longer than `s` and starts and ends with the same quote: a double quote when `s` holds a single quote and no double quote, a single quote otherwise |
| PyText.ReprPlain | telegram_bot.py:55 | text with no quote, backslash, newline, carriage return or tab is written as it is between single quotes |
| PyCall.Missing | reminders.py:69 | the missing names are exactly the required parameters past the positionals that no keyword names |
| PyCall.JoinNames | reminders.py:69 | the list of missing names starts with the first name quoted and ends with the last; two names are joined by ` and `, and with three or more the last is preceded by `, and `, as CPython writes them |
| PyCall.KeywordError | memory.py:11 | a call's keywords pass CPython's check exactly when each names a parameter past the positionals |
| PyCall.CountDefaults | memory.py:11 | a signature has no defaults exactly when every parameter is required, and only defaults exactly when none is; this picks CPython's "takes N" or "from M to N" wording |
| PyCall.Bind | telegram_bot.py:109 | a call that binds passes no more positionals than there are parameters and leaves no required parameter unfilled |
| PyCall.BindsIff | telegram_bot.py:109 | a call binds exactly when every keyword names a parameter not filled positionally, the positionals fit, and every required parameter is filled |
| PyCall.MissingEmptyIff | reminders.py:69 | nothing is missing exactly when every required parameter past the positionals is named by a keyword |
| Links.ResolvePrivate | links.py:19-21 | a chat with no row, or with an empty link id, resolves to `tg:` + its id |
| Links.ResolveLinked | links.py:19-20 | a chat with a non-empty link id resolves to `link:` + that id |
| Links.PrivateNamespacesDistinct | links.py:21 | two different unlinked chats never share a namespace |
| Links.PrivateIsNotLinked | links.py:20-21 | a private namespace never starts with `link:` |
| Links.LinkedNeverPrivate | links.py:20-21 | a linked namespace is never any chat's private namespace |
| Links.OtherChatsUnaffected | links.py:24-44 | changing or deleting one chat's row leaves every other chat's namespace unchanged |
| Links.SameCodeSameNamespace | links.py:16-21 | chats that joined the same non-empty code resolve to the same `link:` namespace |
| Links.Namespace | links.py:16-21 | the namespace is `link:` + the link id exactly when the chat has a row with a non-empty link id, and `tg:` + the chat id otherwise |
| Links.LinkStore.constructor | links.py:7-12 | `CREATE TABLE IF NOT EXISTS` keeps the rows the table already holds |
| Links.LinkStore.Resolve | links.py:16-21 | the namespace is `link:`-prefixed exactly when the chat has a non-empty link id, and is `tg:` + the chat id otherwise |
| Links.LinkStore.CreateLink | links.py:24-31 | the code is 10 lower-case hex characters, the first ten of the uuid; the chat's row is set to it and the chat then resolves to `link:` + code |
| Links.LinkStore.JoinLink | links.py:34-39 | the chat's row is overwritten with any code, checked or not; afterwards the chat resolves to `link:` + code, or to its private namespace for an empty code |
| Links.LinkStore.Unlink | links.py:42-44 | the chat's row is deleted and the chat resolves to its private namespace |
| Links.UnlinkIdempotent | links.py:42-44 | unlinking twice is unlinking once, and leaves the chat private |
| Memory.MemIdInjective | memory.py:9 | different counts give different `mem_` ids |
| Memory.NumberedIdsDistinct | memory.py:9 | a collection written only by `add_memory` has no duplicate ids |
| Memory.Collection.constructor | memory.py:6 | a new collection is empty |
| Memory.Collection.AddMemory | memory.py:8-9 | exactly one record is appended, with the document, the metadata and the id `mem_` + (count + 1); the numbering is kept |
| Memory.QueryFlattensNested | memory.py:14-16 | a nested `[[d1, ...], ...]` result returns the first inner list |
| Memory.QueryKeepsFlat | memory.py:17 | a flat list of documents is returned unchanged |
| Memory.QueryWithoutDocuments | memory.py:13 | a result without `documents` gives the empty list |
| Memory.QueryReturnsHitDocuments | memory.py:11-17 | a search returns the hit documents in rank order |
| Memory.QueryIgnoresMetadata | memory.py:11-12 | metadata, and so namespace, never changes what a query returns |
| Memory.QueryMemory | memory.py:11-17 | without `documents` the result is `[]`; otherwise it is the `documents` value itself or its first element, and a list value always gives a list |
| Reminders.WidenKeepsRows | reminders.py:50-62 | `ADD COLUMN` keeps every row, its rowid and its old cells, and gives each row the added columns with their defaults |
| Reminders.WidenNothing | reminders.py:46-63 | adding no columns changes no row |
| Reminders.WidenTwice | reminders.py:48-63 | two `ALTER TABLE`s in a row add the union of their columns |
| Reminders.AbsentInOrder | reminders.py:49-63 | the four checks, in their order, add exactly the required columns that were absent |
| Reminders.MigrateEstablishes | reminders.py:27-63 | after migration the table exists with `chat_id`, `text`, `due_at` and `sent`; no column is removed or redefined; every row keeps its values; the table stays well formed |
| Reminders.MigrateIdempotent | reminders.py:33-63 | a second migration adds no column and creates no table |
| Reminders.Migrate | reminders.py:27-63 | the result exists and has every required column; an existing table keeps all its columns and all its rows |
| Reminders.InsertAppends | reminders.py:74-77 | the insert appends one row under a fresh rowid, holding `str(chat_id)`, the text, the due time and `sent = 0`; other rows and the schema are unchanged |
| Reminders.InsertFreshId | reminders.py:74-77 | every existing rowid is below the rowid the next insert receives |
| Reminders.InsertKeepsValid | reminders.py:74-77 | an insert into a well-formed, migrated table leaves it well formed and migrated |
| Reminders.Insert | reminders.py:74-77 | the schema is unchanged and exactly one row with `sent = 0` is appended after the old rows |
| Reminders.Batch | reminders.py:104-109 | the fetched rows are exactly the rows that are unsent, due and have a chat id |
| Reminders.Delivered | reminders.py:111-117 | the rows a pass gets through are the batch's longest prefix whose sends return; the next send raises |
| Reminders.SendEffect | reminders.py:81-90 | without a token the send only prints and never raises; with one it posts `int(chat_id)` with exactly `⏰ Reminder: ` followed by the row's text, and raises exactly when `int()` fails or the post raises |
| Reminders.IdsOfSnoc | reminders.py:113 | the rowids of one more row are the old ones plus its rowid |
| Reminders.MarkSentEffect | reminders.py:113 | rows whose rowid is not listed are unchanged; a listed row keeps its rowid and every other cell and reads `sent = 1` |
| Reminders.MarkSentTwice | reminders.py:113 | two updates mark the union of their rowids |
| Reminders.Pass | reminders.py:99-117 | a pass keeps the schema, the number of rows and every rowid |
| Reminders.MarkOneMore | reminders.py:111-114 | marking the batch's rows one at a time marks the prefix done so far |
| Reminders.PassEffect | reminders.py:99-117 | a pass marks only the delivered rows, which are due; every other row and the schema are unchanged; if a send raised, it raised on the first undelivered row |
| Reminders.UniqueIds | reminders.py:36 | increasing rowids are unique |
| Reminders.IdMembership | reminders.py:113 | with increasing rowids, marking by rowid marks exactly the delivered rows |
| Reminders.NoTokenDeliversAll | reminders.py:82-84 | without a bot token every due row is delivered, and only printed |
| Reminders.LegacyRowNeverDue | reminders.py:103-106 | a row with no chat id is never fetched |
| Reminders.DeliveredIsPrefixUpTo | reminders.py:111-117 | the delivered rows are the batch up to the first send that raises |
| Reminders.BatchIdsIncrease | reminders.py:104-109 | the batch is in increasing rowid order |
| Reminders.InsertStep | reminders.py:74-78 | an insert keeps the table well formed and migrated, changes no row and unmarks nothing |
| Reminders.PassKeepsValid | reminders.py:111-114 | a pass keeps the table well formed and migrated |
| Reminders.PassKeepsDone | reminders.py:113 | a pass never unmarks a row |
| Reminders.PassMarksDelivered | reminders.py:111-114 | every delivered row was unmarked before the pass and is marked after it |
| Reminders.DeliveredIdsDistinct | reminders.py:104-114 | a pass delivers no row twice |
| Reminders.PassStep | reminders.py:99-117 | the preceding four pass properties together |
| Reminders.StepProperties | reminders.py:69-117 | an insert or a pass keeps the table well formed, unmarks nothing, and delivers only distinct rows that were unmarked |
| Reminders.AtMostOnce | reminders.py:106-113 | over any run of inserts and passes, no reminder is delivered twice, and none already marked before the run is delivered |
| Reminders.LegacyRowUntouched | reminders.py:103-113 | a row without a chat id stays exactly as it is over any run |
| Reminders.ReminderStore.Open | reminders.py:13-14 | opening the database sees the table as it is |
| Reminders.ReminderStore.AddColumn | reminders.py:50 | one `ALTER TABLE ... ADD COLUMN` adds the column with its default to the schema and to every row |
| Reminders.ReminderStore.EnsureSchema | reminders.py:27-63 | the table after `_ensure_schema` is the migration of the table before, and is well formed and migrated |
| Reminders.ReminderStore.AddIfMissing | reminders.py:49-63 | one check adds its column exactly when the columns read at the start lacked it |
| Reminders.ReminderStore.AddReminder | reminders.py:69-78 | the table after `add_reminder` is the insert into the table before, and stays well formed and migrated |
| Reminders.ReminderStore.DeliveryPass | reminders.py:99-117 | the table after one loop iteration is the pass of the table before, and the sends are the pass's notices in batch order |
| Reminders.ReminderStore.SendBatch | reminders.py:111-114 | the `for` loop marks sent exactly the rows whose message went out, in batch order, stopping at the first failed send, and leaves the schema alone |
| TelegramBot.ParseRemindCommand | telegram_bot.py:47-61 | an accepted command has a positive count that is `int()` of the second of three parts, and a non-empty message that is the stripped third part; a non-integer is reported with its text |
| TelegramBot.StripStartingWord | telegram_bot.py:56 | a part starting with a non-space character strips to a non-empty string |
| TelegramBot.UsageIff | telegram_bot.py:52-54 | the usage error is raised exactly when the text has fewer than three fields |
| TelegramBot.EmptyMessageNeverRaised | telegram_bot.py:59-60 | the empty-message error is never raised, because the third part always starts with a non-space character |
| TelegramBot.ParsedSecondsIsSecondField | telegram_bot.py:55 | the count of an accepted command is `int()` of its second field |
| TelegramBot.ParseOutcomes | telegram_bot.py:52-61 | with three or more fields, the command is rejected as non-integer, rejected as non-positive, or accepted, exactly as the second field is not an integer, is `<= 0`, or is `> 0` |
| TelegramBot.RemindRoundTrip | telegram_bot.py:47-61 | `/remind <n> <message>` parses back to `n` and the message, whitespace inside the message included |
| TelegramBot.ErrorText | telegram_bot.py:113 | `str(e)` of the `int()` error is its fixed prefix and at most 200 characters of the token's `repr`; a raised `TypeError` shows its own message |
| TelegramBot.TryRemind | telegram_bot.py:103-110 | a parse error is reported as it is; then the C-int check on the day count, the `timedelta` day bound and the `datetime` range fail in that order; a reminder is set only for a parsed command whose due time is representable |
| TelegramBot.SplitRemindText | telegram_bot.py:52 | `/remind <n> <message>` with a space-free count and a message starting with a non-space character splits into `/remind`, the count and the whole message |
| TelegramBot.AddReminderCallFails | telegram_bot.py:109 | the two-argument call to the three-parameter `add_reminder` raises the missing-`due_at` `TypeError` |
| TelegramBot.RemindNeverSets | telegram_bot.py:102-114 | every `/remind` ends in the `except`; the reply is exactly "Could not set reminder. ", the error text, a newline and the usage text |
| TelegramBot.RemindReportsArity | telegram_bot.py:104-113 | a well-formed command whose due time is representable fails with exactly that `TypeError` |
| TelegramBot.ReactIff | telegram_bot.py:82-137 | `_handle_commands` returns `False` exactly for text that matches no command; a handled text changes at most its own chat's link row |
| TelegramBot.React | telegram_bot.py:82-137 | after `/link` the chat resolves to `link:` + the new code, after `/join` to `link:` + the code given, after `/unlink` to its private namespace; help, `/remind` and the `/join` usage reply leave the links alone |
| TelegramBot.Classify | telegram_bot.py:122-127 | a `/join` code is non-empty and has no whitespace at either end |
| TelegramBot.ClassifyIff | telegram_bot.py:86-135 | `help`/`/help`, any `/remind` prefix, exactly `/link`, `/join ` with a code, exactly `/unlink`: each branch is taken exactly when its test on the lowered, stripped text holds |
| TelegramBot.RemindPrefixHandled | telegram_bot.py:102-114 | any text whose lowered form starts with `/remind` is handled, changes no link, fails to set a reminder, and replies exactly with the `/remind` failure text |
| TelegramBot.LowerOfJoin | telegram_bot.py:86 | `/join` in any case, a space and a code that does not end in whitespace lowers and strips to a text starting with `/join ` |
| TelegramBot.ClassifyJoinPrefix | telegram_bot.py:122-130 | such a text takes the `/join` branch, whose code is the stripped second part of the original text |
| TelegramBot.JoinRoundTrip | telegram_bot.py:122-130 | `/join` in any case, a space and a stripped code joins that code exactly as typed |
| TelegramBot.SplitJoinText | telegram_bot.py:123 | `/join` in any case, a space and a code that starts with a non-space character splits into the command word and the whole code |
| TelegramBot.JoinUsageNeverArises | telegram_bot.py:124-126 | the `Usage: /join <code>` reply is unreachable |
| TelegramBot.JoinShape | telegram_bot.py:122-123 | a `/join ` text has leading whitespace, a five-character word, a space, and a later non-space character |
| TelegramBot.StrippedJoinShape | telegram_bot.py:86 | a text that strips to one starting with `/join ` has whitespace before it and a non-space character after the space |
| TelegramBot.JoinHasCode | telegram_bot.py:123-124 | such a text splits into two parts, the second not blank |
| TelegramBot.PromptCallFails | telegram_bot.py:65 | the call in `_build_prompt` raises the unexpected-`namespace` `TypeError` |
| TelegramBot.AddMemoryCallBinds | telegram_bot.py:203-204 | the two `add_memory` calls would bind |
| TelegramBot.Deliver | telegram_bot.py:158-190 | every update records its id, when it has one, before anything else |
| TelegramBot.DeliverAborts | telegram_bot.py:183-190 | only a text that is not a command ends the pass, exactly when the `_build_prompt` call fails to bind, and then nothing is sent and no link changes |
| TelegramBot.Processed | telegram_bot.py:158-209 | a pass over a non-empty batch gets through at least one update and at most all of them |
| TelegramBot.DrainLast | telegram_bot.py:159 | after a pass, the last update id is the last id among the updates it got through, skipped ones included |
| TelegramBot.LastIdOfIncreasing | telegram_bot.py:159 | for increasing ids, that is the id of the last one |
| TelegramBot.OffsetSplitsBatch | telegram_bot.py:152-159 | the next offset is above every update the pass got through and at most every update it did not reach |
| TelegramBot.NextOffset | telegram_bot.py:152-153 | an offset is sent exactly when an update id has been recorded |
| TelegramBot.SkippedIffBlank | telegram_bot.py:161-177 | a message with a chat and a text is skipped exactly when the text is empty or all whitespace |
| TelegramBot.SkippedBatchOnlyAdvances | telegram_bot.py:158-177 | a batch whose every update is skipped only moves the offset |
| TelegramBot.NonCommandEndsPass | telegram_bot.py:183-190 | a text that is not a command ends the pass, with nothing sent and no link changed, because `query_memory` rejects the `namespace` keyword |
| TelegramBot.Bot.constructor | telegram_bot.py:36 | the bot starts with no last update id and nothing sent |
| TelegramBot.Bot.HandleCommands | telegram_bot.py:82-137 | returns whether the text was handled; a handled text sends its one reply and updates the link table as the command says; an unhandled text changes nothing |
| TelegramBot.Bot.ProcessUpdate | telegram_bot.py:158-190 | one update changes the bot's state exactly as `Deliver` says, and reports whether the pass is aborted |
| TelegramBot.Bot.PollStep | telegram_bot.py:150-209 | one poll iteration leaves the state that the whole pass over the batch gives |

## Left out

- HTTP: the bodies of `send_message`, `getUpdates` and the Telegram post in
  `_send_telegram`.
  - A failed `getUpdates` raises before the loop and so behaves like an
    empty batch.
  - A failing `send_message` inside `_handle_commands` is not modelled.
  - Status codes are not looked at by the code.
- OpenAI chat completions, lines 192-206 of `telegram_bot.py`. They are
  unreachable as written, because `_build_prompt` always raises first.
- `print`, logging and `time.sleep`.
- The real SQLite engine and Chroma's embedding search.
  - Tables are sequences and maps.
  - A search is the list of ranked hit positions, so `n_results` and
    `MAX_MEMORY_SNIPPETS` do not appear.
- Concurrency: the module-level cursors shared by the threads that run both
  loops.
- The `NOT NULL` constraints of a freshly created table. A legacy table is
  assumed to have an `id` rowid column.
- Column order, and the 64-bit rowid limit. Rowids are one past the largest,
  as SQLite assigns them while nothing is deleted.
- An `update_id` key present with the value `null`. The model treats that as
  a missing key.
- PyText.Lower: only ASCII capitals and the Kelvin sign are lowered. These
  are the only characters whose lower case can affect a comparison with the
  ASCII command names. Other characters are kept as they are.
- PyText.ParseInt: non-ASCII decimal digits and the 4300-digit limit on
  `int()` are not modelled.
- PyText.Repr: escapes the backslash, the chosen quote, `\n`, `\r` and `\t`.
  Other non-printable characters are kept as they are.
- The `datetime` value of the due time, and the `isoformat` text built from
  it. The reminder is never stored, so only the overflow checks on the way
  there are modelled. The current time is a microsecond count.
