# Homework-status notifier: a Dafny model of its decision logic

The program polls a homework-review API at a fixed interval. When the review
status of the latest submission changes, it tells the user through a chat
bot. This project models the decisions it makes and proves them in Dafny:

- **ConfigGate** (`config_gate.dfy`). `check_tokens` scans the three
  credentials in a fixed order and stops at the first one that is `None`. The
  process exit becomes a `Missing(key)` result.
- **ApiClient** (`api_client.dfy`). `get_api_answer` maps the HTTP library's
  reply to a decoded answer or to the error that leaves it. The reply is an
  input, so there is no network.
- **ResponseValidator** (`response_validator.dfy`). `check_response` runs four
  ordered shape checks over a JSON value (`PyValues.Json`, in
  `py_values.dfy`). The results are `Ok`, `TypeErr` and the benign `NoData`.
- **StatusFormatter** (`status_formatter.dfy`). `parse_status` and the
  three-entry verdict table build the notification text. `ReadStatusText`
  reads a notification back into its name and status, which shows that the
  template loses nothing.
- **PollLoop** (`poll_loop.dfy`). One cycle of `main`'s `while True` loop.
  `Step` and `Run` are its pure specification. The class `Poller` is the loop
  itself: the two "last sent" slots, the fixed poll window, the sent messages
  (`outbox`) and the window each fetch asked for (`fetches`), all updated in
  place. Each cycle takes the API reply and whether the bot delivers the send.
- **PollProperties** (`poll_properties.dfy`). What the loop promises across
  cycles:
  - one slot for status messages and one slot shared by both error kinds;
  - the same payload twice is sent once;
  - a success in between does not reset the error slot;
  - an exception that escapes leaves every slot as it was;
  - the window never moves;
  - no message ever reaches the user twice in a row.

Python values follow Python's rules. Truthiness decides the `homeworks` and
`homework_name` checks. `dict.get` gives `None` for a missing key. An
unhashable (list or dict) `status` makes the `in HOMEWORK_VERDICTS` test
raise `TypeError`, not `KeyError`.

Two consequences of the code are worth stating plainly:
- `parse_status` runs in the `else` branch, and `send_message` runs inside
  both handlers and the `else` branch (homework.py:126, 133, 136, 140). No
  handler of the cycle catches their exceptions, so a formatter error or a
  failed send ends `main`. The model returns either one as a `Fault`, and
  `Run`/`Poll` stop there.
- `check_tokens` rejects only `None` (homework.py:40), so a credential that
  is set to the empty string passes the gate.

One long constant, `Greeting`, is written as two literals joined with `+`. This
does not change its value. The verifier cannot look inside a single string
literal longer than about forty characters.

## Model

| member | source | states |
|---|---|---|
| PyValues.FalsyValues | homework.py:82 | `bool(x)` is false exactly for None, False, 0, "", [] and {}, the values that count as "no homeworks" |
| PyValues.NatDigits | homework.py:101 | `str(n)` of a natural number is non-empty, all decimal digits, and begins with "0" only when it is 0 itself, so there is never a leading zero |
| PyValues.NatDigitsRoundTrip | homework.py:101 | the digits an integer homework name is rendered with read back as that integer |
| ConfigGate.FirstMissing | homework.py:39-44 | the scan passes iff every entry is set; otherwise it names an unset entry with every earlier entry set |
| ConfigGate.CheckTokens | homework.py:32-45 | the loop over `env_variables` stops at the first None variable and returns exactly the first-missing verdict |
| ConfigGate.CheckTokensReportsFirstMissing | homework.py:35-44 | the gate passes iff all three variables are set (an empty string is set); otherwise it names the first unset one in the order PRACTICUM_TOKEN, TELEGRAM_TOKEN, TELEGRAM_CHAT_ID |
| ApiClient.GetApiAnswer | homework.py:59-74 | only a 200 reply with a decodable body yields a document; every other status is one fixed connection error whatever the code or body; a raised request error is wrapped with its text; a 200 reply whose body does not decode yields exactly the decoding error with its own text, unwrapped |
| ResponseValidator.CheckResponse | homework.py:77-87 | success iff the answer is a dict whose `homeworks` is a non-empty list with a dict at its head; a non-dict is always the dict type error; on a dict, a missing or falsy `homeworks` is the no-data error and never a type error; a truthy non-list is the list type error |
| ResponseValidator.OnlyFirstHomeworkInspected | homework.py:84-87 | elements after the first never change the verdict or the record handed on |
| StatusFormatter.ParseStatus | homework.py:90-101 | a falsy or missing name fails with the key error before the status is looked at; success iff the name is truthy and the status is one of the three table keys; the text gives the name first and the table's verdict after it; an unknown status is the key error, a list or dict status a type error |
| StatusFormatter.ReadStatusTextRoundTrip | homework.py:25-29 | reading a notification back gives the name and the status it was built from, for every name and every table key |
| StatusFormatter.SameTextSameHomework | homework.py:97-101 | two records give the same notification iff they have the same rendered name and the same status, so deduplicating texts deduplicates (name, status) pairs |
| PollLoop.TryBlock | homework.py:117-134 | the `else` branch runs exactly on a 200 reply whose document passes validation, and receives the head of the homework list; the no-data message arises from the validator's no-data error and nothing else; each caught error becomes its handler's lead followed by the exception's own text (connection, decoding and type errors under the program-failure lead) |
| PollLoop.FailureText | homework.py:129-130 | a program-failure message starts with its own lead and can never equal a no-data message |
| PollLoop.Step | homework.py:117-141 | the specification of one cycle: it fetches once with the unchanged window, sends at most one message after the earlier ones, a sent message is what its slot then holds, an escaping cycle sends nothing and writes no slot, a head record `parse_status` rejects escapes with the formatter's error, and a Telegram escape happens only on an undelivered send; `StatusCycle`, `ErrorCycle`, `FormatErrorEscapes` and `EscapeChangesNothing` give its full behaviour per branch |
| PollLoop.Run | homework.py:116-145 | the specification of a finite run: the window never moves, messages and fetches are only appended, and each cycle adds at most one message; `RunStopsAtFault`, `RunKeepsWindow` and `RunKeepsInv` state the rest |
| PollLoop.Poller.constructor | homework.py:109-114 | the loop starts with the window one retry period before now, both slots empty and the greeting sent |
| PollLoop.Poller.SendMessage | homework.py:48-56 | a send reports success iff the bot delivers; only a delivered text joins the outbox, and nothing else changes |
| PollLoop.Poller.Cycle | homework.py:117-141 | one loop body changes the state exactly as `Step` says and asks for the unchanged window |
| PollLoop.Poller.Poll | homework.py:116-145 | running the loop over a sequence of replies changes the state exactly as `Run` says, stopping at the first escape |
| PollProperties.StatusCycle | homework.py:135-141 | after a successful fetch the status text is sent iff it differs from the status slot; a delivered send sets the slot to it; a failed send escapes with the slot unchanged; the error slot is untouched |
| PollProperties.RepeatedStatusSentOnce | homework.py:137-141 | two consecutive cycles with the same payload send its text at most once, and the slot then holds it |
| PollProperties.ErrorCycle | homework.py:122-134 | both handlers' messages are sent iff they differ from the one shared error slot, which then holds them; the status slot is untouched |
| PollProperties.RepeatedErrorSentOnce | homework.py:122-134 | the same error on two consecutive cycles is sent at most once, and the shared slot then holds it |
| PollProperties.ErrorSuppressedAcrossSuccess | homework.py:122-141 | error A, then a successful status cycle, then error A again: the second A is suppressed |
| PollProperties.DistinctErrorsBothSent | homework.py:129-134 | error A followed by a different error B sends B too |
| PollProperties.EscapeChangesNothing | homework.py:126-141 | when a formatter error or a failed send escapes a cycle, the slots and the outbox are as before; only the fetch happened |
| PollProperties.FormatErrorEscapes | homework.py:135-136 | a head record that `parse_status` rejects escapes the cycle with exactly that error, whether or not the bot would deliver: only the fetch happened, nothing is sent, no slot is written, and no later cycle runs |
| PollProperties.RunStopsAtFault | homework.py:116-145 | once a cycle escapes, no later cycle runs |
| PollProperties.RunKeepsWindow | homework.py:109-118 | every fetch of every cycle asks for the window fixed at start-up, one fetch per cycle run |
| PollProperties.StepKeepsInv | homework.py:122-141 | a cycle never sends the message sent last, keeps each slot empty or of its own kind, and adds at most one message |
| PollProperties.RunKeepsInv | homework.py:116-145 | the cycle invariant holds after any number of cycles, and earlier messages are never changed |
| PollProperties.NoMessageTwiceInARow | homework.py:104-145 | from start-up on, whatever the API and the bot do: the greeting comes first, no message reaches the user twice in a row, and every fetch uses the start-up window |
| PollProperties.ScenarioSameAnswerTwice | homework.py:135-141 | a "reviewing" answer for `hw1` sends `Изменился статус проверки работы "hw1". Работа взята на проверку ревьюером.` once, and the same answer on the next cycle sends nothing |
| PollProperties.ScenarioServerError | homework.py:65-69 | an HTTP 500 is reported as `Сбой в работе программы: Ошибка связи с Эндпойнт.` and the loop goes on |
| PollProperties.ScenarioNoHomeworks | homework.py:82-83 | an empty homework list is reported as `Работа пока не на проверке: Нет данных о домашке.` and the loop goes on |

## Left out

- The HTTP request (`requests.get`, headers, the `from_date` parameter) is not performed. Its outcome is the `HttpReply` input of each cycle. The window it would carry is recorded in `fetches`.
- Telegram delivery is not modelled. `send_message` appends to `outbox` when the cycle's `delivered` flag is true. Otherwise it raises the unified Telegram error.
- Reading the environment and `.env` and building the headers are not modelled. The three credential values are parameters of `CheckTokens`.
- `time.time()` and `time.sleep(RETRY_PERIOD)` are not modelled. The start time is the constructor's `now`, and the pause between cycles has no effect on state.
- Logging calls and the logger configuration are left out. They do not affect any result.
- The endless `while True` is modelled as finite sequences of cycles (`Run`, `Poll`), not as non-termination.
- The start of `main` is only partly modelled. `check_tokens` is its own operation, and the constructor stands for a start-up whose greeting was delivered. A failed greeting send and the process exit are not modelled.
- Request exception texts and JSON decoding error texts are inputs (`Raised.detail`, `Unparsable.detail`), not derived. The fixed texts in the code are kept literally.
- `exceptions.py` is not part of this model. The text of its exceptions is taken to be the message they are constructed with.
- PyValues.PyStr: a list- or dict-valued `homework_name` is rendered by a fixed placeholder, not by Python's `repr`. Two different such names therefore give the same text.
- JSON floats are not modelled. The `Json` value has null, booleans, integers, strings, lists and objects.
