# draft-emails-agent, modelled in Dafny

draft-emails-agent is a set of Python scripts that read a Gmail inbox and ask an OpenAI model whether each
unread message needs a reply. When the model says yes, the scripts leave a reply draft on the message's
thread. There are three scripts:

- `agent.py` is a stand-alone loop:
  - it lists unread ids and fetches each message (headers and the first `text/plain` body part);
  - it asks the model for a `{needs_reply, reply_draft}` record, parsing the answer with one level of
    nested unwrapping and a raw-text fallback;
  - it creates a draft `Re: (auto) <date>` when a reply is needed, then marks the message read;
  - the first exception ends the run.
- `modal_email_agent.py` is the scheduled variant:
  - its `draft_reply` may make one calendar tool round: it queries the next seven days, formats a schedule
    text and makes a second model call;
  - `create_draft` reports API failures instead of raising;
  - `process_email` turns the decision into a draft `Re: <subject>`;
  - the batch catches every exception for each message, so a failing message is skipped and stays unread.
- `spam.py` moves spam addressed to the owner's personal address out of spam. A message is moved when that
  address is a substring of its lower-cased `To` header. Moved messages are labelled IMPORTANT instead of
  SPAM and counted.

The Dafny modules follow that structure:

- `PyValues` (`py_values.dfy`) holds the Python values the scripts handle:
  - an optional value;
  - the outcome of a call that may raise (`Ok(v)` or `Raised`);
  - decoded JSON;
  - truthiness, `dict.get`, `dict[key]`, and the fallback dict `{"needs_reply": ..., "reply_draft": ...}`.
- `Text` (`text.dfy`) holds `str.strip()` over Python's whitespace set, ASCII `str.lower()` and substring
  `in`.
- `Gmail` (`gmail.dfy`) holds the mail provider:
  - messages as stored (headers and parts);
  - the headers dict and its `""` defaults;
  - the scan for the first `text/plain` part;
  - a `Mailbox` class whose label map and draft list the scripts change, with `messages().modify` and
    `drafts().create` as its methods.
- `Agent` (`agent.dfy`) models `agent.py`: `draft_reply`'s post-processing, the per-id plan and step, and
  `agent_loop` as a method proved against the fold `AgentRun`.
- `ModalAgent` (`modal_agent.dfy`) models `modal_email_agent.py`:
  - the tool dispatch;
  - the schedule text, as a `+=` loop proved against its function;
  - the parse with its fallback;
  - `create_draft` and `process_email`;
  - `check_emails_periodically`'s per-message loop, proved against the fold `CheckAll`.
- `Spam` (`spam.dfy`) models `spam.py`: the filter and relabelling, and `main`'s counting loop proved
  against the fold `SpamRun`.

External services are parameters:

- the model's answers (`chat`, `chatWithTool`);
- `json.loads` (`parse`, partial);
- base64 plus utf-8 decoding (`decode`: lenient in `agent.py`, strict in the Modal variant);
- the calendar listing (`calendar`, None when it raises);
- `fromisoformat` plus `strftime` (`render`);
- the clock (`now`, `today`);
- the drafts the API refuses (`Server.rejects`).

An exception is the outcome `Raised`.

## Model

| member | source | states |
|---|---|---|
| PyValues.Get | agent.py:84 | `x.get(k)` raises on a non-dict; on a dict it gives the value or None when the key is absent |
| PyValues.Index | modal_email_agent.py:210 | `x[k]` succeeds exactly on a dict holding the key and gives that value |
| PyValues.Decision | agent.py:95-98 | the fallback record is a dict with exactly the two keys, `needs_reply` true and `reply_draft` the text |
| Text.Strip | agent.py:82 | `strip()` leaves no leading or trailing whitespace, removes only whitespace, and an all-whitespace string becomes empty |
| Text.Lower | spam.py:45 | `lower()` keeps the length and maps every character to its lower case |
| Text.LowerHasNoUpper | spam.py:45 | lower-cased text holds no capital letter, the fact behind `UpperNeverInLower` |
| Text.ContainsIff | spam.py:45 | `needle in hay` holds exactly when the needle occurs at some offset of the haystack |
| Text.EmptyContained | spam.py:45 | the empty string is in every string |
| Text.UpperNeverInLower | spam.py:45 | a needle holding a capital letter is never in lower-cased text |
| Gmail.HeaderDict | agent.py:45 | every entry of the headers dict is the name and value of one of the message's headers |
| Gmail.HeaderGet | agent.py:46-47 | `headers.get(name, "")`: a non-empty result is the value of a header with that name |
| Gmail.PlainBody | agent.py:48-55 | the body is `""` or the decoding of some `text/plain` part's data |
| Gmail.Fetched | agent.py:41-55 | a fetch raises exactly when the id is unknown or the body's decoding raises; otherwise it gives the Subject and From values and the body scan's result |
| Gmail.HeaderDictKeys | agent.py:45 | the headers dict holds exactly the names of the message's headers |
| Gmail.HeaderDictLastWins | agent.py:45 | for a repeated name, the dict keeps the value of the last header with that name |
| Gmail.MissingHeaderIsEmpty | agent.py:46-47 | an absent Subject, From or To header reads as `""` |
| Gmail.PlainBodyFirst | agent.py:48-54 | the body is the decoding of the first `text/plain` part; later parts play no role |
| Gmail.PlainBodyNone | agent.py:48-55 | with no `text/plain` part, or no `parts` key, the body is `""` |
| Gmail.ExtractBody | agent.py:48-54 | the part scan with `break` gives the body of the first `text/plain` part, or `""` |
| Gmail.Modified | agent.py:114-117 | `modify` raises on an unknown id; otherwise it removes and adds labels on that message only and leaves the drafts alone |
| Gmail.DraftCreation | modal_email_agent.py:192-196 | a refused request changes nothing and reports its error; otherwise the draft is appended and its id reported |
| Gmail.Mailbox.Modify | agent.py:114-117 | the label update on the mailbox, as `Modified` states it |
| Gmail.Mailbox.CreateDraft | agent.py:107 | the draft request on the mailbox, as `DraftCreation` states it |
| Gmail.FetchMessage | agent.py:41-55 | fetching raises on an unknown id or an undecodable body; otherwise subject and sender are the headers' values and the body is the first `text/plain` decoding |
| Agent.NestedPayload | agent.py:84-89 | an inner object is present exactly when `reply_draft` is a string starting with `{` whose parse succeeds, and then it is that parse |
| Agent.NormaliseReply | agent.py:80-98 | a failed parse and a non-dict parse give the fallback with the stripped content; a nested parse replaces the outer object; otherwise the outer object is returned unchanged |
| Agent.NormalisedReplyIsObject | agent.py:80-98 | when a successful parse of text starting with `{` is always a dict, the decision is always a dict, so `.get` at line 130 cannot raise |
| Agent.AgentPlan | agent.py:126-131 | an id is processed without exception exactly when it fetches, the decision is a dict, and a truthy `needs_reply` comes with a string `reply_draft`; the draft goes to the sender on the message's id, with subject `Re: (auto) <date>` |
| Agent.MarkRead | agent.py:114-117 | `mark_read` returns normally exactly when the id is known, and then only UNREAD is removed from that message; otherwise nothing changes |
| Agent.AgentStep | agent.py:126-135 | one iteration keeps the set of known messages, can only append drafts, at most one; a plan that raises, or a draft request the provider refuses, changes nothing; a step that returns normally had a plan and left its message without UNREAD |
| Agent.AgentRun | agent.py:125-135 | the loop keeps the set of known messages and only appends drafts, at most one per id |
| Agent.AgentRunAppend | agent.py:125-135 | processing two id lists in a row is processing their concatenation, and a failure in the first list ends the run |
| Agent.AgentFailureStopsRun | agent.py:125-135 | after any list of ids processed normally, an id whose step raises (in its fetch, its decision, its draft request or its `mark_read`) ends the run in the state that step left; no id after it is touched |
| Agent.AgentStepCompleted | agent.py:128-135 | a step that returns normally marks its id read and appends the draft its plan asks for, if any |
| Agent.AgentRunCompletedPlans | agent.py:125-135 | a run that completes met only ids that exist and were planned without exception |
| Agent.AgentRunCompletedLabels | agent.py:125-135 | a completed run removes UNREAD from every listed id, whether a reply was needed or not, and changes no other label set |
| Agent.AgentRunCompletedDrafts | agent.py:125-135 | a completed run appends one draft per id whose `needs_reply` is truthy, in list order, and no other |
| Agent.AgentLoop | agent.py:120-136 | the loop over the listed ids leaves the mailbox in the state `AgentRun` gives, and reports whether an exception ended it |
| ModalAgent.CalendarEvents | modal_email_agent.py:305-323 | a calendar call that raises yields no events; otherwise its items are returned |
| ModalAgent.EventLine | modal_email_agent.py:148-154 | an event's line is `- <rendered start>: <summary>\n`, where the start is dateTime, else date; it raises when neither is present, when the start does not render, or when the summary is missing |
| ModalAgent.ScheduleLines | modal_email_agent.py:148-154 | the event lines are empty exactly when there are no events; otherwise they start with `- ` and end with a newline |
| ModalAgent.ScheduleText | modal_email_agent.py:147-154 | the schedule text exists exactly when the event lines do; it starts with the `My upcoming schedule:` line and is that line alone exactly when there are no events |
| ModalAgent.EventLineIsOneLine | modal_email_agent.py:152-154 | with single-line time and summary, an event's line holds exactly one newline |
| ModalAgent.ScheduleLinesAppend | modal_email_agent.py:147-154 | the lines of a concatenation of events are the lines of each part, in the order given, with no re-sorting |
| ModalAgent.ScheduleTextOk | modal_email_agent.py:147-154 | the schedule text exists exactly when every event's line does |
| ModalAgent.ScheduleTextLineCount | modal_email_agent.py:147-154 | with single-line times and summaries, the schedule text has one line more than there are events |
| ModalAgent.ScheduleLinesCount | modal_email_agent.py:148-154 | with single-line times and summaries, the event lines hold one newline per event |
| ModalAgent.CalendarContext | modal_email_agent.py:147-154 | the `+=` loop yields the header line followed by each event's line, or raises as the first unrenderable event does |
| ModalAgent.ParseReply | modal_email_agent.py:175-181 | absent content raises; a successful parse is returned as it is, with no unwrapping; a failed parse gives the fallback with the stripped content |
| ModalAgent.DraftReply | modal_email_agent.py:123-181 | the calendar is queried exactly when the first answer has tool calls, a service is given and the first call names the calendar tool; the window is [now, now + 7 days]; the second call carries that tool call and the schedule text, and its answer is final; otherwise the first answer is parsed |
| ModalAgent.OnlyFirstToolCallConsulted | modal_email_agent.py:134-137 | two first answers that agree on their content and first tool call lead to the same calls and the same result, so later tool calls are ignored |
| ModalAgent.NormalisationsCompared | modal_email_agent.py:175-181 | the two variants agree on a failed parse and on a dict without a nested payload; they differ on every non-dict parse, and on a nested payload unless it equals the outer object |
| ModalAgent.CreateDraft | modal_email_agent.py:185-196 | only a non-string reply raises (in MIMEText); a refused request returns its error and leaves the drafts alone; otherwise the draft `Re: <subject>` to the sender on the thread is created and its id returned |
| ModalAgent.ProcessEmail | modal_email_agent.py:199-219 | it returns only on a dict decision, replying exactly when `needs_reply` is truthy, and then `reply_draft` is a string; the draft requested is `Re: <subject>` to the sender on the thread with `reply_draft` as its body; `draft_created` holds exactly when the provider accepts it, which appends that draft and reports its id; otherwise the provider's error text is returned and nothing changes; with a falsy `needs_reply` nothing changes; labels are never touched here |
| ModalAgent.ModalPlan | modal_email_agent.py:206-211 | the decision is usable exactly when it is a dict and a truthy `needs_reply` comes with a string `reply_draft`; a draft is planned exactly when `needs_reply` is truthy, and it is `Re: <subject>` to the sender on the thread with `reply_draft` as its body |
| ModalAgent.MessagePlan | modal_email_agent.py:245-275 | a message whose fetch raises has a plan that raises; a planned draft goes to the From header's value, with subject `Re: ` plus the Subject header's value, on the listed thread |
| ModalAgent.ProcessEmailFollowsPlan | modal_email_agent.py:199-219 | `process_email` raises exactly when its mailbox-free plan does, and only the planned draft is requested |
| ModalAgent.CheckOneByPlan | modal_email_agent.py:246-285 | one iteration of the batch raises as its message's plan does; otherwise it requests the planned draft and then removes UNREAD |
| ModalAgent.CheckOneConsistent | modal_email_agent.py:246-294 | on a consistent mailbox, a message whose processing raises leaves the state as it was; every other message is processed to the end |
| ModalAgent.CheckOne | modal_email_agent.py:246-294 | one iteration keeps the set of known messages and appends at most one draft; a failed fetch changes nothing; an iteration that ends normally left its message without UNREAD |
| ModalAgent.CheckAll | modal_email_agent.py:245-294 | the batch keeps the set of known messages and only appends drafts, at most one per listed message |
| ModalAgent.CheckAllAppend | modal_email_agent.py:245-294 | the batch over two lists in a row is the batch over their concatenation |
| ModalAgent.FailedMessageIsSkipped | modal_email_agent.py:287-294 | a message whose processing raises has the same effect as a message not listed at all |
| ModalAgent.CheckOneEffect | modal_email_agent.py:246-285 | one iteration marks its message read exactly when it is processed without exception, and appends only that message's accepted draft |
| ModalAgent.CheckAllLabels | modal_email_agent.py:245-294 | after the batch, exactly the messages processed without exception are marked read, whether or not they needed a reply; failed ones stay unread; other label sets are unchanged |
| ModalAgent.CheckAllDrafts | modal_email_agent.py:245-294 | the batch appends, in list order, the accepted draft of each processed message that needs a reply |
| ModalAgent.CheckEmailsPeriodically | modal_email_agent.py:238-294 | the per-message loop leaves the mailbox in the state `CheckAll` gives, an empty list included |
| Spam.Rescue | spam.py:37-45 | the test raises exactly on an unknown id or an unset personal address |
| Spam.RescueMeans | spam.py:42-45 | when it does not raise, the test holds exactly when the address occurs at some offset of the lower-cased `To` header |
| Spam.EmptyAddressMatchesAll | spam.py:45 | an empty personal address selects every message |
| Spam.CapitalisedAddressMatchesNothing | spam.py:45 | the personal address is not lower-cased, so one with a capital letter selects nothing |
| Spam.MissingToHeader | spam.py:42-45 | a message without a `To` header is compared against `""`, which only the empty address matches |
| Spam.SpamStep | spam.py:37-57 | `process_email` raises exactly when the test raises or a matching id is not in the mailbox; on a match the only change is SPAM removed and IMPORTANT added on that message, and the result is true; on a non-match nothing changes and the result is false; drafts are never touched |
| Spam.SpamRun | spam.py:60-75 | the loop never touches drafts or the set of known messages; the count is at most the number of ids, and when the loop finishes it is the number of matching ids |
| Spam.SpamRunAppend | spam.py:71-73 | running two id lists in a row is running their concatenation, the counts adding up; a failure in the first list ends the run |
| Spam.FailureAbortsRun | spam.py:71-73 | after any list of ids processed normally, an exception on the next id ends `main` with the relabellings and count so far; no id after it is looked at |
| Spam.SpamRunEffect | spam.py:60-75 | on a consistent mailbox the run finishes exactly when every test succeeds; it then counts the selected ids and relabels exactly them; no draft is touched |
| Spam.RescueIdempotent | spam.py:49-53 | relabelling a message twice leaves it as relabelling it once |
| Spam.ProcessSpam | spam.py:37-57 | `process_email` against the mailbox does what `SpamStep` states, and changes nothing when it raises before writing |
| Spam.SpamMain | spam.py:60-75 | the counting loop, with the early return on an empty list, leaves the labels and the count that `SpamRun` gives |

## Left out

- `auth.py`, token loading and OAuth flows are left out: they are credential I/O.
- Modal's decorators, `.remote` and `modal.Period` scheduling are left out: a remote call is modelled as a
  direct call.
- The Gmail, OpenAI and Calendar transports are left out. Their answers are the parameters listed above.
  An OpenAI transport error is not modelled.
- `json.loads`, base64, MIME encoding, `datetime.now`, `strftime` and `fromisoformat` are parameters.
  `agent.py`'s decode of the raw message after `drafts().create` (lines 108-110) is left out, because it
  only feeds `print`.
- The prompt texts are constant strings and are left out.
- `print` logging is left out.
- The clock-derived list queries are left out (`in:spam after:…`, `is:unread after:…`), as are
  `list_unread`'s limit of 5 and `get_spam_emails`. The ids a listing returns are the input of each loop.
- `check_emails_periodically`'s outer `try` around the listing is left out, because the listing is not
  modelled.
- ModalAgent.CheckEmailsPeriodically: the clock is one value `now` for the whole batch. The source reads it
  again inside each `draft_reply`.
- ModalAgent.Event: `event["start"]` is taken to be present. A calendar item without a `start` key, which
  would raise, is not represented.
- Gmail.DraftResult: draft ids are positions in the mailbox's draft list, not the provider's opaque ids.
- Agent.AgentEnv: `today` is one value for the whole run. agent.py:104 reads the clock in each
  `create_draft`, so a run crossing midnight would stamp two different dates.
- Agent.AgentEnv: `chat` gives the reply's text. A reply whose content is None is not represented; on it
  `.strip()` raises at agent.py:82 and again at agent.py:97, which ends the run.
- PyValues.Json: numbers are reals. The `NaN` and `Infinity` values that `json.loads` accepts are not
  represented; `NaN` would be a truthy `needs_reply`.
- Text.Lower: only ASCII letters are lower-cased; Python's full Unicode case mapping is not modelled.
- Gmail.Part: a part without `mimeType` or without `body.data`, a header without `name` or `value`, and a
  payload without `headers` are not represented. Each would raise a `KeyError` in the source
  (agent.py:45 and 49-51, modal_email_agent.py:254 and 260-263).
- Agent.AgentLoop, ModalAgent.CheckEmailsPeriodically and Spam.SpamMain require a mailbox whose label map
  covers exactly the stored messages (`Mailbox.Valid`), as a real mailbox does; they preserve it.
- Agent.AgentRun and Spam.SpamRun: an exception raised inside a provider call after it took effect is not
  modelled. A relabelling or draft either happens completely or not at all.
