# Tarot bot: entitlement ledger, reading transaction and onboarding

A Dafny model of the core of a Telegram tarot bot (`tarot_bot.py`). A user
gets one free reading and then pays 299 per reading out of a balance that
`/topup` credits. A reading draws three distinct cards, gets an answer text
(a fixed template when no backend token is configured) and is logged in an
append-only history. New users go through a short conversation that asks for
a name, an age and a gender.

Modules, one per part of the program:

- `Wrappers` (`wrappers.dfy`): `Option`, for the nullable columns and the
  per-user dictionary.
- `Text` (`text.dfy`): the string handling the bot uses. `str.isdigit` on
  ASCII digits, `int`, `str`, `str.strip` with Python's whitespace set, and
  `join` on a one-character separator. The bot never splits a string.
  `Split` and `IndexOf` are there only as the inverse of `join`, for the
  round-trip lemmas. Round trips are proved: `int(str(n)) == n`, and split
  undoes join.
- `Cards` (`cards.dfy`): cards, the draw of three catalog positions, the
  `cards` history column, the no-token answer template and `generate_answer`.
  The backend's behaviour is a parameter.
- `Ledger` (`ledger.dfy`): the database as a class `Store`. The users table
  is a `map<int, User>` and the history table is a `seq<HistoryEntry>`. Each
  SQL statement is a method. Each method's new state is given by a pure
  function of the old table (`WithUser`, `Credit`, `MarkFreeUsed`,
  `WithProfile`). The resting invariant `Solvent` says every balance is ≥ 0
  and every free flag is 0 or 1. The module also has the `stats` aggregates
  (row count and `SUM(balance)`) and the administrator check.
- `Bot` (`bot.dfy`): `/read` and `/topup`. `Entitle` is the entitlement
  decision and `Charge`/`Settle` the charge. The `Read` method follows the
  handler's steps in order. The module ends with the command sequences the
  bot is expected to handle: a fresh user's free reading, a refusal at 100,
  a paid reading at 500, a backend failure, and `/topup abc` then `/topup 50`.
- `Onboarding` (`onboarding.dfy`): the class `Conversation` holds the
  conversation state (`End` when no conversation runs) and the per-user
  dictionary. The handlers `Start`, `NameHandler`, `AgeHandler` and
  `GenderHandler` each return the next state. The routing methods `OnStart`,
  `OnText` and `OnChoice` stand for the conversation handler's wiring.

Behaviours of the code that a reader might not expect, all kept in the model:

- `generate_answer` does not catch transport errors, and it does not catch a
  200 reply whose body lacks the completion text. Either exception leaves
  `read` after `get_user` has run and before anything is charged or logged.
  The model's reply for this case is `Raised`.
- `/topup` accepts any all-digit amount, including `0`.
- `/topup` does not create the user's row. For an unknown id the `UPDATE`
  matches nothing, yet the reply still says the balance was credited
  (`Bot.Topup`).
- The gender is whatever the button press carries. The code does not check
  it against the two offered values.
- `free_used` is an integer compared with `FREE_READING` (`>= 1`); it is not a
  boolean.
- The code does not check the catalog for duplicate names. So the three drawn
  cards are distinct positions, and distinct cards only when the catalog has
  no repeats (`Cards.Drawn`).
## Model

| member | source | states |
|---|---|---|
| `Text.IsDigits` | tarot_bot.py:179 | the digit test accepts a non-empty text of ASCII digits only, so no sign and no whitespace pass; every `str(n)` passes (`Text.ShowNat`) |
| `Text.Join` | tarot_bot.py:269 | the joined text starts with the first piece and, when no piece contains the separator, holds exactly one separator fewer than there are pieces; `Text.SplitJoin` proves splitting undoes it |
| `Text.ParseDigits` | tarot_bot.py:182 | `int(s)` of an all-digit text is a natural number with no more decimal places than the text has characters |
| `Text.ShowNat` | tarot_bot.py:319 | `str(n)` is a non-empty digit string with no leading zero |
| `Text.ShowInt` | tarot_bot.py:319 | `str(i)` starts with '-' exactly when `i` is negative |
| `Text.ParseShowNat` | tarot_bot.py:319 | parsing what `str` wrote gives the number back |
| `Text.ShowIntInjective` | tarot_bot.py:319 | two ids with the same decimal text are the same id |
| `Text.Strip` | tarot_bot.py:173 | `strip()` returns a slice of its input, removes only whitespace at both ends, and leaves neither end on whitespace |
| `Text.StripIdempotent` | tarot_bot.py:173 | stripping the stored name again changes nothing |
| `Text.SplitJoin` | tarot_bot.py:269 | when no argument contains a space, splitting the question on spaces gives back the command's arguments, in order |
| `Cards.Drawn` | tarot_bot.py:278 | a draw is three cards, all from the catalog, pairwise distinct when the catalog has no repeats |
| `Cards.Names` | tarot_bot.py:110 | the name list has one entry per card, the k-th card's name at position k |
| `Cards.CardsColumn` | tarot_bot.py:110-112 | the `cards` column starts with the first card's name and, when no name contains a comma, holds exactly one comma fewer than there are cards; `Cards.CardsColumnRoundTrip` recovers the names |
| `Cards.CardsColumnRoundTrip` | tarot_bot.py:110-112 | when no card name contains a comma, the history's `cards` column splits back into the drawn names in draw order |
| `Cards.FallbackAnswer` | tarot_bot.py:125-130 | with no token the answer quotes the question right after the fixed opening and names all three drawn cards |
| `Cards.GenerateAnswer` | tarot_bot.py:123-155 | it raises exactly when the request fails or a 200 reply lacks the text; with no token it always answers, mentioning the question and the cards; a non-200 status gives the fixed failure text |
| `Ledger.NewUser` | tarot_bot.py:81-83 | the inserted row has the given handle, balance 0, free flag 0 and no name, age or gender, so it is solvent on its own |
| `Ledger.WithUser` | tarot_bot.py:76-86 | get-or-create: a known id leaves the table as it is; every existing row keeps its value; an unseen id gains one row with balance 0, free flag 0, no name/age/gender and the given handle |
| `Ledger.WithUserIdempotent` | tarot_bot.py:76-86 | calling get-or-create twice for an id leaves the same table as calling it once |
| `Ledger.Credit` | tarot_bot.py:96-99 | the balance update adds the amount to that row's balance only; other fields, other rows and the key set stay the same, and an unknown id changes nothing |
| `Ledger.MarkFreeUsed` | tarot_bot.py:102-105 | sets that row's free flag to 1 and nothing else; an unknown id changes nothing |
| `Ledger.WithProfile` | tarot_bot.py:89-93 | writes name, age and gender of that row together and keeps its handle, balance and free flag; an unknown id changes nothing |
| `Ledger.WithUserSolvent` | tarot_bot.py:81-83 | inserting a fresh row keeps every balance non-negative |
| `Ledger.CreditSolvent` | tarot_bot.py:96-99 | a credit that leaves the row's balance non-negative keeps the table solvent |
| `Ledger.EntriesOf` | tarot_bot.py:116-120 | one user's history holds exactly the logged rows with that user id |
| `Ledger.EntriesOfAppend` | tarot_bot.py:108-113 | appending a row extends its own user's history by that row and leaves every other user's history unchanged |
| `Ledger.SumBalance` | tarot_bot.py:324-325 | `SUM(balance) or 0`: an empty table, or one whose balances are all zero, sums to 0; its meaning is fixed by `Ledger.SumBalanceRemove` and `Ledger.SumBalanceUpdate` |
| `Ledger.SumBalanceRemove` | tarot_bot.py:324-325 | the summed balance is one row's balance plus the sum over the others, for any row |
| `Ledger.SumBalanceUpdate` | tarot_bot.py:324-325 | replacing or inserting a row moves the sum by exactly that row's change in balance |
| `Ledger.SumBalanceNonNegative` | tarot_bot.py:324-325 | in a solvent table the summed balance is non-negative |
| `Ledger.WithUserTotals` | tarot_bot.py:76-86 | get-or-create leaves the summed balance unchanged |
| `Ledger.CreditTotals` | tarot_bot.py:96-99 | a balance update moves the summed balance by the amount when the row exists, and not at all otherwise |
| `Ledger.AdminText` | tarot_bot.py:318-319 | `str(admin_id)` is the configured text when set; when unset it is a text that no rendered id equals |
| `Ledger.IsAdmin` | tarot_bot.py:319 | a caller passes the administrator check only when an administrator is configured; `Ledger.AdminIsUnique` shows at most one caller passes |
| `Ledger.AdminIsUnique` | tarot_bot.py:318-320 | at most one caller id passes the administrator check, and none when no administrator is configured |
| `Ledger.Stats` | tarot_bot.py:317-329 | reports only to the administrator; then the user count and the summed balance |
| `Ledger.StatsSolvent` | tarot_bot.py:324-325 | the reported total of a solvent table is not negative |
| `Ledger.Store.constructor` | tarot_bot.py:50-73 | a new database has no users and no history, and is solvent |
| `Ledger.Store.GetUser` | tarot_bot.py:76-86 | returns the stored row, inserting it first for an unseen id; history untouched; solvency kept |
| `Ledger.Store.UpdateProfile` | tarot_bot.py:89-93 | the users table becomes `WithProfile` of the old one; history untouched; solvency kept |
| `Ledger.Store.UpdateBalance` | tarot_bot.py:96-99 | the users table becomes `Credit` of the old one; solvency kept when the new balance is not negative |
| `Ledger.Store.SetFreeUsed` | tarot_bot.py:102-105 | the users table becomes `MarkFreeUsed` of the old one; solvency kept |
| `Ledger.Store.AddHistory` | tarot_bot.py:108-113 | appends exactly one row (id, question, names joined by ',', answer); users untouched |
| `Ledger.Store.GetHistory` | tarot_bot.py:116-120 | returns exactly the history rows of that user |
| `Bot.Entitle` | tarot_bot.py:274-284 | free exactly when the free reading is unused; paid exactly when it is used and the balance is at least 299; refused exactly otherwise |
| `Bot.Charge` | tarot_bot.py:281-284 | the charged row differs from the old one only in balance and free flag: a free reading sets the flag to 1 and keeps the balance, a paid one keeps the flag and takes 299 off the balance |
| `Bot.Settle` | tarot_bot.py:281-284 | the charge's update replaces the user's row by its charged version and changes nothing for an unknown id |
| `Bot.ChargeConsumesOne` | tarot_bot.py:281-284 | a granted reading consumes exactly one entitlement (the free flag, or 299 of balance), changes no other field, keeps a non-negative balance non-negative and leaves no second free reading |
| `Bot.SettleCharges` | tarot_bot.py:281-284 | the two updates of the charge replace the user's row by its charged version only, and keep the table solvent |
| `Bot.SettleTotals` | tarot_bot.py:281-284 | a paid reading lowers the summed balance by 299, a free one leaves it |
| `Bot.Read` | tarot_bot.py:263-293 | no question: usage reply, nothing changes; refused: only the get-or-create insert; backend raised: only that insert; granted: the row charged once and one history row (user, space-joined question, comma-joined cards in draw order, answer) appended; solvency kept |
| `Bot.Topup` | tarot_bot.py:296-304 | a missing or non-digit amount changes nothing; a digit amount is credited to an existing row (an unknown id changes nothing but is still told it was credited); solvency kept |
| `Bot.FreshUserReadsFree` | tarot_bot.py:263-286 | a never-seen user's first question with no token is granted free: balance 0, free flag 1, one history row, answer quoting the question |
| `Bot.SpentFreeReading` | tarot_bot.py:274-284 | free reading spent: a balance of 100 is refused and kept with no row written; 500 pays and leaves 201 with one row |
| `Bot.BackendFailureStillCharges` | tarot_bot.py:152-153 | a non-200 backend status still completes the reading with the fixed failure text, and the free reading is consumed |
| `Bot.TopupScenario` | tarot_bot.py:299-303 | `/topup abc` is refused; `/topup 50` raises the balance by exactly 50 |
| `Onboarding.Conversation.constructor` | tarot_bot.py:342-350 | before any conversation: no state and nothing collected |
| `Onboarding.Conversation.Start` | tarot_bot.py:158-169 | get-or-create the row; ask for a name exactly when the row has none (always for a new user), else enter no conversation |
| `Onboarding.Conversation.NameHandler` | tarot_bot.py:172-175 | keeps the stripped text as the name and moves to the age question |
| `Onboarding.Conversation.AgeHandler` | tarot_bot.py:178-185 | a text that is not all digits stays at the age question and keeps nothing; a digit text keeps its value and moves to the gender question |
| `Onboarding.Conversation.GenderHandler` | tarot_bot.py:188-200 | keeps the choice, writes name, age and gender in one update and ends the conversation |
| `Onboarding.Conversation.OnStart` | tarot_bot.py:342-343 | `/start` opens a conversation only when none runs, at the name question exactly when the row has no name |
| `Onboarding.Conversation.OnText` | tarot_bot.py:344-346 | a text goes to the name or age handler by state; every state past a step keeps that step's answer |
| `Onboarding.Conversation.OnChoice` | tarot_bot.py:347 | a button press is the gender choice only at the gender question, and then persists the collected name and age with it |
| `Onboarding.FirstConversation` | tarot_bot.py:158-200 | a new user's name, a refused age, a valid age and a gender leave one row with the stripped name, the number and the choice, balance and free flag 0 |

## Left out

- Telegram transport and rendering are not modelled: `menu`, `menu_action`,
  `help_command`, the reply texts of `profile`, `history` and `balance`, the
  photos and the HTML markup. The row that `profile` and `balance` create
  through `get_user` is the same insert that `Ledger.Store.GetUser` models.
- The framework's message filters (plain text that is not a command, the
  `^menu_` pattern) and its re-entry rules are not modelled. The routing
  methods take the input already classified.
- SQL text, the aiosqlite connections and errors raised by the store are not
  modelled. The tables are a map and a sequence, and every statement succeeds.
- `Bot.Topup`: does not model the 64-bit limit of SQLite integers. An amount
  above 2^63 - 1 makes the sqlite3 binding raise `OverflowError` in
  `update_balance`, so nothing is credited and no reply is sent. The model
  credits the amount and replies `Credited`.
- `Onboarding.Conversation.GenderHandler`: does not model the 64-bit limit
  either. An age above 2^63 - 1 makes `update_profile` raise. The profile is
  then never written and the conversation stays at the gender question. The
  model writes the profile and ends the conversation; `OnChoice` and
  `FirstConversation` inherit this.
- Sums past 2^63 - 1 are not modelled. SQLite turns an overflowing
  `balance + ?` into a floating-point value, while the model's balances and
  `Ledger.SumBalance` are unbounded integers.
- The history row's store-assigned id and timestamp are not modelled.
- `Ledger.Store.GetHistory`: returns the user's rows oldest first, in the order
  they were written. `get_history` sorts by `timestamp DESC`, so rows with
  different timestamps come out newest first, the reverse of the model. Only
  rows with equal timestamps have no defined order in the source.
- The configured branch of `generate_answer` is not modelled in detail: the
  prompt built from the profile and the cards' descriptions, the HTTP POST and
  the JSON parsing. It is the parameter `Backend`: no token, a status with
  the completion text if the body has it, or a request that raised. A 200
  reply whose `content` is JSON `null` is not expressible. There
  `generate_answer` returns `None` without raising, and `read` then charges
  the reading and logs it with a NULL answer. In the model a missing text
  always means the call raised and nothing was charged.
- Reading the environment (`PROXYAPI_TOKEN`, `ADMIN_USER_ID`,
  `TELEGRAM_BOT_TOKEN`), loading `cards.json` and the `main` wiring are not
  modelled. The catalog, the token's presence and the administrator id are
  inputs.
- `random.sample` is not modelled. The draw is a parameter: three distinct
  catalog positions.
- Concurrency is not modelled. The model has a single sequential caller, and
  so does the program as `main` wires it. The application is built without
  concurrent update processing, so each update's handler runs to completion,
  `await`s included, before the next update is taken. `read` itself has no
  atomicity between its balance check and its charge. Two `/read` commands of
  one user could both pass the check only if concurrent update processing
  were turned on, which `main` does not do.
- `str.isdigit` is modelled for ASCII digits only. Other Unicode digits
  (which `int` may then reject) are not modelled.
