/**
 * modal_email_agent.py: the scheduled variant. Its draft_reply may make one calendar tool
 * round before parsing the model's answer; process_email turns the decision into a draft
 * on the message's thread; the batch catches every exception per message.
 */
module ModalAgent {
  import opened PyValues
  import opened Text
  import opened Gmail
  import Agent

  /** The one tool the model is offered. */
  const CalendarTool := "get_calendar_events"
  /** First line of the tool result sent back to the model, and that line without its break. */
  const ScheduleTitle := "My upcoming schedule:"
  const ScheduleHeader := ScheduleTitle + "\n"
  /** timedelta(days=7), in seconds. */
  const Week: int := 7 * 24 * 60 * 60
  /** Subject prefix of the drafts this variant creates, before the original subject. */
  const ReplyPrefix := "Re: "

  /** One entry of `message.tool_calls`: its id, function name and JSON argument text. */
  datatype ToolCall = ToolCall(id: string, name: string, arguments: string)

  /** The first choice's message: its content (None when absent) and its tool calls. */
  datatype ChatMessage = ChatMessage(content: Option<string>, toolCalls: seq<ToolCall>)

  /** A calendar item: its start's dateTime and date fields, and its summary, each when present. */
  datatype Event = Event(dateTime: Option<string>, date: Option<string>, summary: Option<string>)

  /** Instants as seconds since the epoch, in UTC. */
  datatype Window = Window(start: int, end: int)

  /**
   * The collaborators this variant calls: the model's first answer to the prompt built
   * from subject, sender and body; its answer once the tool call and the schedule text
   * are appended; the calendar listing (None when the call raises); fromisoformat
   * followed by strftime('%a, %b %d %I:%M %p') (None when it raises); json.loads; the
   * strict base64 and utf-8 decoding of a body part; and datetime.now(timezone.utc).
   */
  datatype ModalEnv = ModalEnv(
    chat: (string, string, string) -> ChatMessage,
    chatWithTool: (string, string, string, ToolCall, string) -> ChatMessage,
    calendar: Window -> Option<seq<Event>>,
    render: string -> Option<string>,
    parse: string -> Option<Json>,
    decode: string -> Outcome<string>,
    now: int)

  /** get_calendar_events: the listed events; an exception in the call yields []. */
  function CalendarEvents(env: ModalEnv, w: Window): (es: seq<Event>)
    ensures env.calendar(w).None? ==> es == []
    ensures env.calendar(w).Some? ==> es == env.calendar(w).value
  {
    match env.calendar(w)
    case None => []
    case Some(items) => items
  }

  /**
   * The schedule line of one event: "- <when>: <summary>\n". A start with neither field,
   * a start that does not render and a missing summary all raise.
   */
  function EventLine(e: Event, render: string -> Option<string>): (r: Outcome<string>)
    ensures r.Ok? <==>
      var start := if e.dateTime.Some? then e.dateTime else e.date;
      start.Some? && render(start.value).Some? && e.summary.Some?
    ensures r.Ok? ==>
      var start := if e.dateTime.Some? then e.dateTime else e.date;
      r.value == "- " + render(start.value).value + ": " + e.summary.value + "\n"
  {
    var start := if e.dateTime.Some? then e.dateTime else e.date;
    match start
    case None => Raised
    case Some(s) =>
      match render(s)
      case None => Raised
      case Some(when) =>
        match e.summary
        case None => Raised
        case Some(title) => Ok("- " + when + ": " + title + "\n")
  }

  /** `Ok(a + b)` when both are values; an exception otherwise. */
  function Concat(a: Outcome<string>, b: Outcome<string>): Outcome<string>
  {
    if a.Ok? && b.Ok? then Ok(a.value + b.value) else Raised
  }

  /** The event lines, in the order the calendar returned the events. */
  function ScheduleLines(events: seq<Event>, render: string -> Option<string>): (r: Outcome<string>)
    ensures r.Ok? ==> (r.value == [] <==> events == [])
    ensures r.Ok? && events != [] ==> |r.value| >= 2 && r.value[..2] == "- " && r.value[|r.value| - 1] == '\n'
    decreases |events|
  {
    if events == [] then Ok("")
    else Concat(EventLine(events[0], render), ScheduleLines(events[1..], render))
  }

  /** The tool result sent to the model: the header line, then one line per event. */
  function ScheduleText(events: seq<Event>, render: string -> Option<string>): (r: Outcome<string>)
    ensures r.Ok? <==> ScheduleLines(events, render).Ok?
    ensures r.Ok? ==> ScheduleHeader <= r.value && (|r.value| == |ScheduleHeader| <==> events == [])
  {
    Concat(Ok(ScheduleHeader), ScheduleLines(events, render))
  }

  /** The lines of a concatenation are the lines of each part, in order: nothing is re-sorted. */
  lemma {:induction false} ScheduleLinesAppend(xs: seq<Event>, ys: seq<Event>, render: string -> Option<string>)
    ensures ScheduleLines(xs + ys, render) == Concat(ScheduleLines(xs, render), ScheduleLines(ys, render))
    decreases |xs|
  {
    if xs == [] {
      assert xs + ys == ys;
      var c := ScheduleLines(ys, render);
      if c.Ok? {
        assert "" + c.value == c.value;
      }
    } else {
      assert (xs + ys)[0] == xs[0];
      assert (xs + ys)[1..] == xs[1..] + ys;
      ScheduleLinesAppend(xs[1..], ys, render);
      var a := EventLine(xs[0], render);
      var b := ScheduleLines(xs[1..], render);
      var c := ScheduleLines(ys, render);
      if a.Ok? && b.Ok? && c.Ok? {
        assert a.value + (b.value + c.value) == (a.value + b.value) + c.value;
      }
    }
  }

  /** The schedule text exists exactly when every event renders. */
  lemma {:induction false} ScheduleTextOk(events: seq<Event>, render: string -> Option<string>)
    ensures ScheduleText(events, render).Ok? <==> forall i | 0 <= i < |events| :: EventLine(events[i], render).Ok?
    decreases |events|
  {
    if events != [] {
      ScheduleTextOk(events[1..], render);
      assert forall i | 1 <= i < |events| :: events[i] == events[1..][i - 1];
    }
  }

  /** Number of newline characters in s. */
  function Newlines(s: string): nat
  {
    multiset(s)['\n']
  }

  /** An event's rendered time and summary hold no line break. */
  predicate SingleLine(e: Event, render: string -> Option<string>)
  {
    var start := if e.dateTime.Some? then e.dateTime else e.date;
    && (start.Some? && render(start.value).Some? ==> Newlines(render(start.value).value) == 0)
    && (e.summary.Some? ==> Newlines(e.summary.value) == 0)
  }

  /** With single-line times and summaries, the schedule text has 1 + |events| lines. */
  lemma ScheduleTextLineCount(events: seq<Event>, render: string -> Option<string>)
    requires forall i | 0 <= i < |events| :: SingleLine(events[i], render)
    requires ScheduleText(events, render).Ok?
    ensures Newlines(ScheduleText(events, render).value) == 1 + |events|
  {
    var lines := ScheduleLines(events, render).value;
    assert ScheduleText(events, render).value == ScheduleHeader + lines;
    ScheduleLinesCount(events, render);
    NewlinesAppend(ScheduleHeader, lines);
    HeaderIsOneLine();
  }

  lemma NewlinesAppend(a: string, b: string)
    ensures Newlines(a + b) == Newlines(a) + Newlines(b)
  {
    assert multiset(a + b) == multiset(a) + multiset(b);
  }

  /** A text without a break, followed by one, is one line. */
  lemma OneLine(t: string)
    requires '\n' !in t
    ensures Newlines(t + "\n") == 1
  {
    assert multiset(t + "\n") == multiset(t) + multiset{'\n'};
  }

  lemma HeaderIsOneLine()
    ensures Newlines(ScheduleHeader) == 1
  {
    OneLine(ScheduleTitle);
  }

  lemma {:induction false} ScheduleLinesCount(events: seq<Event>, render: string -> Option<string>)
    requires forall i | 0 <= i < |events| :: SingleLine(events[i], render)
    requires ScheduleLines(events, render).Ok?
    ensures Newlines(ScheduleLines(events, render).value) == |events|
    decreases |events|
  {
    if events != [] {
      assert forall i | 0 <= i < |events| - 1 :: events[1..][i] == events[i + 1];
      ScheduleLinesCount(events[1..], render);
      EventLineIsOneLine(events[0], render);
      NewlinesAppend(EventLine(events[0], render).value, ScheduleLines(events[1..], render).value);
    }
  }

  /** A single-line event renders to exactly one line. */
  lemma EventLineIsOneLine(e: Event, render: string -> Option<string>)
    requires SingleLine(e, render) && EventLine(e, render).Ok?
    ensures Newlines(EventLine(e, render).value) == 1
  {
    var start := if e.dateTime.Some? then e.dateTime else e.date;
    var body := "- " + render(start.value).value + ": " + e.summary.value;
    assert multiset(render(start.value).value)['\n'] == 0 && multiset(e.summary.value)['\n'] == 0;
    assert '\n' !in "- " && '\n' !in ": ";
    assert multiset(body) == multiset("- ") + multiset(render(start.value).value) + multiset(": ") + multiset(e.summary.value);
    OneLine(body);
  }

  /** The `+=` loop that builds the schedule text, event by event. */
  method CalendarContext(events: seq<Event>, render: string -> Option<string>) returns (ctx: Outcome<string>)
    ensures ctx == ScheduleText(events, render)
  {
    var text := ScheduleHeader;
    var i := 0;
    while i < |events|
      invariant 0 <= i <= |events|
      invariant ScheduleText(events, render) == Concat(Ok(text), ScheduleLines(events[i..], render))
    {
      assert events[i..][0] == events[i] && events[i..][1..] == events[i + 1..];
      var line := EventLine(events[i], render);
      if line.Raised? {
        return Raised;
      }
      ghost var rest := ScheduleLines(events[i + 1..], render);
      assert rest.Ok? ==> text + (line.value + rest.value) == (text + line.value) + rest.value;
      text := text + line.value;
      i := i + 1;
    }
    assert events[i..] == [];
    assert text + "" == text;
    ctx := Ok(text);
  }

  /**
   * The parse at the end of draft_reply: the stripped content as parsed, with no
   * unwrapping, or the raw-text fallback. Absent content raises in `.strip()`, and again
   * inside the handler.
   */
  function ParseReply(parse: string -> Option<Json>, m: ChatMessage): (r: Outcome<Json>)
    ensures m.content.None? ==> r.Raised?
    ensures m.content.Some? ==>
      var s := Strip(m.content.value);
      r == Ok(if parse(s).Some? then parse(s).value else Decision(true, s))
  {
    match m.content
    case None => Raised
    case Some(c) =>
      var s := Strip(c);
      match parse(s)
      case Some(j) => Ok(j)
      case None => Ok(Decision(true, s))
  }

  /** The condition for the tool round: tool calls present, a service given, and the first call names the calendar tool. */
  predicate CallsCalendar(first: ChatMessage, hasService: bool)
  {
    |first.toolCalls| > 0 && hasService && first.toolCalls[0].name == CalendarTool
  }

  /**
   * What one draft_reply call does: the calendar window it queries (if any), the tool
   * call and schedule text it sends back in a second model call (if any), and its result.
   */
  datatype DraftTrace = DraftTrace(query: Option<Window>, toolExchange: Option<(ToolCall, string)>, reply: Outcome<Json>)

  /** draft_reply with its optional calendar round. */
  function DraftReply(env: ModalEnv, subject: string, sender: string, body: string, hasService: bool): (r: DraftTrace)
    ensures var first := env.chat(subject, sender, body);
      r.query.Some? <==> CallsCalendar(first, hasService)
    ensures r.query.Some? ==> r.query.value == Window(env.now, env.now + Week)
    ensures r.toolExchange.Some? ==>
      && r.query.Some?
      && r.toolExchange.value.0 == env.chat(subject, sender, body).toolCalls[0]
      && ScheduleText(CalendarEvents(env, r.query.value), env.render) == Ok(r.toolExchange.value.1)
      && r.reply == ParseReply(env.parse, env.chatWithTool(subject, sender, body, r.toolExchange.value.0, r.toolExchange.value.1))
    ensures r.query.Some? && r.toolExchange.None? ==>
      ScheduleText(CalendarEvents(env, r.query.value), env.render).Raised? && r.reply.Raised?
    ensures r.query.None? ==>
      r.toolExchange.None? && r.reply == ParseReply(env.parse, env.chat(subject, sender, body))
  {
    var first := env.chat(subject, sender, body);
    if CallsCalendar(first, hasService) then
      var call := first.toolCalls[0];
      var w := Window(env.now, env.now + Week);
      match ScheduleText(CalendarEvents(env, w), env.render)
      case Raised => DraftTrace(Some(w), None, Raised)
      case Ok(ctx) => DraftTrace(Some(w), Some((call, ctx)), ParseReply(env.parse, env.chatWithTool(subject, sender, body, call, ctx)))
    else
      DraftTrace(None, None, ParseReply(env.parse, first))
  }

  /** Only the first tool call is read: answers that agree on it and on their content lead to the same call. */
  lemma OnlyFirstToolCallConsulted(env: ModalEnv, other: (string, string, string) -> ChatMessage,
                                    subject: string, sender: string, body: string, hasService: bool)
    requires var a := env.chat(subject, sender, body); var b := other(subject, sender, body);
      |a.toolCalls| > 0 && |b.toolCalls| > 0 && a.toolCalls[0] == b.toolCalls[0] && a.content == b.content
    ensures DraftReply(env, subject, sender, body, hasService) == DraftReply(env.(chat := other), subject, sender, body, hasService)
  {
  }

  /**
   * Where the two variants' normalisations differ: the stand-alone one unwraps a nested
   * object and falls back on a non-dict, while this one returns any parse as it is.
   */
  lemma NormalisationsCompared(parse: string -> Option<Json>, c: string)
    ensures var s := Strip(c);
      && (parse(s).None? ==> Agent.NormaliseReply(parse, c) == ParseReply(parse, ChatMessage(Some(c), [])).value)
      && (parse(s).Some? && parse(s).value.JObj? && Agent.NestedPayload(parse, parse(s).value).None? ==>
            Agent.NormaliseReply(parse, c) == ParseReply(parse, ChatMessage(Some(c), [])).value)
      && (parse(s).Some? && !parse(s).value.JObj? ==>
            Agent.NormaliseReply(parse, c) != ParseReply(parse, ChatMessage(Some(c), [])).value)
      && (parse(s).Some? && parse(s).value.JObj? && Agent.NestedPayload(parse, parse(s).value).Some? ==>
            (Agent.NormaliseReply(parse, c) == ParseReply(parse, ChatMessage(Some(c), [])).value
             <==> Agent.NestedPayload(parse, parse(s).value).value == parse(s).value))
  {
  }

  /**
   * create_draft: a non-string reply raises in MIMEText; a refused API request is caught
   * and reported with its error; otherwise the draft "Re: <subject>" is created.
   */
  function CreateDraft(srv: Server, box: Box, to: string, text: Json, threadId: string, subject: string): (r: Outcome<(DraftResult, Box)>)
    ensures r.Raised? <==> !text.JStr?
    ensures r.Ok? ==>
      var d := Draft(to, ReplyPrefix + subject, text.str, threadId);
      && r.value.1.labels == box.labels
      && (srv.rejects(d).Some? ==> r.value == (Rejected(srv.rejects(d).value), box))
      && (srv.rejects(d).None? ==> r.value == (Created(|box.drafts|), box.(drafts := box.drafts + [d])))
  {
    match text
    case JStr(t) => Ok(DraftCreation(srv, box, Draft(to, ReplyPrefix + subject, t, threadId)))
    case _ => Raised
  }

  /** The dict process_email returns: `{"needs_reply": False}`, or the draft outcome. */
  datatype ProcessResult = NoReply | Replied(draftCreated: bool, draftId: Option<nat>, error: Option<string>)

  /** process_email: the decision, then a draft to the sender on the message's thread when a reply is needed. */
  function ProcessEmail(srv: Server, env: ModalEnv, box: Box, e: Email, threadId: string, hasService: bool): (r: Outcome<(ProcessResult, Box)>)
    ensures r.Ok? ==> r.value.1.labels == box.labels
    ensures r.Ok? && r.value.0.NoReply? ==> r.value.1 == box
    ensures r.Ok? && r.value.0.Replied? ==>
      (r.value.0.draftCreated <==> r.value.1.drafts != box.drafts)
    ensures r.Ok? && r.value.0.Replied? && r.value.0.draftCreated ==>
      && r.value.0.draftId == Some(|box.drafts|) && r.value.0.error.None?
      && |r.value.1.drafts| == |box.drafts| + 1 && r.value.1.drafts[..|box.drafts|] == box.drafts
      && var d := r.value.1.drafts[|box.drafts|];
         d.to == e.sender && d.subject == ReplyPrefix + e.subject && d.threadId == threadId
    ensures r.Ok? && r.value.0.Replied? && !r.value.0.draftCreated ==>
      r.value.0.draftId.None? && r.value.0.error.Some?
    ensures var reply := DraftReply(env, e.subject, e.sender, e.body, hasService).reply;
      r.Ok? ==> reply.Ok? && reply.value.JObj? && (r.value.0.Replied? <==> Truthy(Get(reply.value, "needs_reply").value))
    ensures var reply := DraftReply(env, e.subject, e.sender, e.body, hasService).reply;
      r.Ok? && r.value.0.Replied? ==>
        && reply.Ok? && Index(reply.value, "reply_draft").Ok? && Index(reply.value, "reply_draft").value.JStr?
        && var d := Draft(e.sender, ReplyPrefix + e.subject, Index(reply.value, "reply_draft").value.str, threadId);
           && (r.value.0.draftCreated <==> srv.rejects(d).None?)
           && (r.value.0.draftCreated ==> r.value.1.drafts == box.drafts + [d])
           && (!r.value.0.draftCreated ==> r.value.0.error == Some(srv.rejects(d).value) && r.value.1 == box)
  {
    match DraftReply(env, e.subject, e.sender, e.body, hasService).reply
    case Raised => Raised
    case Ok(reply) =>
      match Get(reply, "needs_reply")
      case Raised => Raised
      case Ok(flag) =>
        if !Truthy(flag) then Ok((NoReply, box))
        else
          match Index(reply, "reply_draft")
          case Raised => Raised
          case Ok(text) =>
            match CreateDraft(srv, box, e.sender, text, threadId, e.subject)
            case Raised => Raised
            case Ok((res, box1)) =>
              Ok((Replied(res.Created?, if res.Created? then Some(res.draftId) else None,
                          if res.Rejected? then Some(res.error) else None), box1))
  }

  /**
   * process_email's decision apart from the mailbox: raises, needs no reply, or names
   * the draft to request. It depends on the message alone, never on the mailbox state.
   */
  function ModalPlan(env: ModalEnv, e: Email, threadId: string, hasService: bool): (r: Outcome<Option<Draft>>)
    ensures var reply := DraftReply(env, e.subject, e.sender, e.body, hasService).reply;
      && (r.Ok? <==>
            && reply.Ok? && reply.value.JObj?
            && (Truthy(Get(reply.value, "needs_reply").value) ==>
                  Index(reply.value, "reply_draft").Ok? && Index(reply.value, "reply_draft").value.JStr?))
      && (r.Ok? ==> (r.value.Some? <==> Truthy(Get(reply.value, "needs_reply").value)))
      && (r.Ok? && r.value.Some? ==>
            r.value.value == Draft(e.sender, ReplyPrefix + e.subject, Index(reply.value, "reply_draft").value.str, threadId))
  {
    match DraftReply(env, e.subject, e.sender, e.body, hasService).reply
    case Raised => Raised
    case Ok(reply) =>
      match Get(reply, "needs_reply")
      case Raised => Raised
      case Ok(flag) =>
        if !Truthy(flag) then Ok(None)
        else
          match Index(reply, "reply_draft")
          case Ok(JStr(t)) => Ok(Some(Draft(e.sender, ReplyPrefix + e.subject, t, threadId)))
          case _ => Raised
  }

  /** process_email follows its plan: it raises exactly when the plan does, and only the planned draft is requested. */
  lemma ProcessEmailFollowsPlan(srv: Server, env: ModalEnv, box: Box, e: Email, threadId: string, hasService: bool)
    ensures var r := ProcessEmail(srv, env, box, e, threadId, hasService);
      match ModalPlan(env, e, threadId, hasService)
      case Raised => r.Raised?
      case Ok(None) => r == Ok((NoReply, box))
      case Ok(Some(d)) =>
        (r.Ok? && r.value.1 == DraftCreation(srv, box, d).1
         && r.value.0.Replied? && r.value.0.draftCreated == DraftCreation(srv, box, d).0.Created?)
  {
  }

  /** A listed message: the id and threadId of an entry of messages().list. */
  datatype Listed = Listed(id: MsgId, threadId: string)

  /** The plan for a listed message: fetch, then process_email's decision (the service is always given). */
  function MessagePlan(srv: Server, env: ModalEnv, m: Listed): (r: Outcome<Option<Draft>>)
    ensures Fetched(srv, m.id, env.decode).Raised? ==> r.Raised?
    ensures r.Ok? ==> m.id in srv.messages
    ensures r.Ok? && r.value.Some? ==>
      var hs := srv.messages[m.id].headers;
      && r.value.value.to == HeaderGet(hs, "From")
      && r.value.value.subject == ReplyPrefix + HeaderGet(hs, "Subject")
      && r.value.value.threadId == m.threadId
  {
    match Fetched(srv, m.id, env.decode)
    case Raised => Raised
    case Ok(e) => ModalPlan(env, e, m.threadId, true)
  }

  /** One iteration of the batch's try block: the new state, and whether it ran without exception. */
  function CheckOne(srv: Server, env: ModalEnv, box: Box, m: Listed): (r: Step)
    ensures r.box.labels.Keys == box.labels.Keys
    ensures box.drafts <= r.box.drafts && |r.box.drafts| <= |box.drafts| + 1
    ensures Fetched(srv, m.id, env.decode).Raised? ==> r == Step(box, false)
    ensures r.ok ==> m.id in box.labels && Unread !in r.box.labels[m.id]
  {
    match Fetched(srv, m.id, env.decode)
    case Raised => Step(box, false)
    case Ok(e) =>
      match ProcessEmail(srv, env, box, e, m.threadId, true)
      case Raised => Step(box, false)
      case Ok((_, box1)) =>
        match Modified(box1, m.id, {Unread}, {})
        case Raised => Step(box1, false)
        case Ok(box2) => Step(box2, true)
  }

  /** The state after one iteration, stated through the message's plan. */
  function AfterPlan(srv: Server, box: Box, m: Listed, plan: Option<Draft>): Step
  {
    var box1 := if plan.Some? then DraftCreation(srv, box, plan.value).1 else box;
    match Modified(box1, m.id, {Unread}, {})
    case Raised => Step(box1, false)
    case Ok(box2) => Step(box2, true)
  }

  lemma CheckOneByPlan(srv: Server, env: ModalEnv, box: Box, m: Listed)
    ensures CheckOne(srv, env, box, m) ==
      match MessagePlan(srv, env, m)
      case Raised => Step(box, false)
      case Ok(plan) => AfterPlan(srv, box, m, plan)
  {
    if Fetched(srv, m.id, env.decode).Ok? {
      ProcessEmailFollowsPlan(srv, env, box, Fetched(srv, m.id, env.decode).value, m.threadId, true);
    }
  }

  /** The batch: every listed message is attempted, in order, whatever happened to the ones before. */
  function CheckAll(srv: Server, env: ModalEnv, box: Box, msgs: seq<Listed>): (r: Box)
    ensures r.labels.Keys == box.labels.Keys
    ensures box.drafts <= r.drafts && |r.drafts| <= |box.drafts| + |msgs|
    decreases |msgs|
  {
    if msgs == [] then box else CheckAll(srv, env, CheckOne(srv, env, box, msgs[0]).box, msgs[1..])
  }

  /** In a consistent mailbox a message whose plan raises leaves the state as it was; otherwise it is marked read. */
  lemma CheckOneConsistent(srv: Server, env: ModalEnv, box: Box, m: Listed)
    requires Consistent(srv, box)
    ensures Consistent(srv, CheckOne(srv, env, box, m).box)
    ensures MessagePlan(srv, env, m).Raised? ==> CheckOne(srv, env, box, m) == Step(box, false)
    ensures MessagePlan(srv, env, m).Ok? ==> CheckOne(srv, env, box, m).ok && m.id in box.labels
  {
    CheckOneByPlan(srv, env, box, m);
  }

  lemma {:induction false} CheckAllAppend(srv: Server, env: ModalEnv, box: Box, xs: seq<Listed>, ys: seq<Listed>)
    ensures CheckAll(srv, env, box, xs + ys) == CheckAll(srv, env, CheckAll(srv, env, box, xs), ys)
    decreases |xs|
  {
    if xs == [] {
      assert xs + ys == ys;
    } else {
      assert (xs + ys)[0] == xs[0];
      assert (xs + ys)[1..] == xs[1..] + ys;
      CheckAllAppend(srv, env, CheckOne(srv, env, box, xs[0]).box, xs[1..], ys);
    }
  }

  /** Batch isolation: a message whose processing raises has the same effect as a message not listed at all. */
  lemma FailedMessageIsSkipped(srv: Server, env: ModalEnv, box: Box, xs: seq<Listed>, m: Listed, ys: seq<Listed>)
    requires Consistent(srv, box)
    requires MessagePlan(srv, env, m).Raised?
    ensures CheckAll(srv, env, box, xs + [m] + ys) == CheckAll(srv, env, box, xs + ys)
  {
    var mid := CheckAll(srv, env, box, xs);
    CheckOneConsistent(srv, env, mid, m);
    assert xs + [m] + ys == xs + ([m] + ys);
    CheckAllAppend(srv, env, box, xs, [m] + ys);
    CheckAllAppend(srv, env, box, xs, ys);
    assert ([m] + ys)[0] == m && ([m] + ys)[1..] == ys;
  }

  /** The ids of the listed messages processed without exception. */
  function ProcessedIds(srv: Server, env: ModalEnv, msgs: seq<Listed>): set<MsgId>
    decreases |msgs|
  {
    if msgs == [] then {}
    else (if MessagePlan(srv, env, msgs[0]).Ok? then {msgs[0].id} else {}) + ProcessedIds(srv, env, msgs[1..])
  }

  /** The drafts the batch creates: one per processed message that needs a reply and whose request is accepted, in order. */
  function BatchDrafts(srv: Server, env: ModalEnv, msgs: seq<Listed>): seq<Draft>
    decreases |msgs|
  {
    if msgs == [] then [] else AcceptedDraft(srv, env, msgs[0]) + BatchDrafts(srv, env, msgs[1..])
  }

  /** The draft one message adds: its planned draft when the provider accepts it, and none otherwise. */
  function AcceptedDraft(srv: Server, env: ModalEnv, m: Listed): seq<Draft>
  {
    match MessagePlan(srv, env, m)
    case Ok(Some(d)) => if srv.rejects(d).None? then [d] else []
    case _ => []
  }

  /** One message adds exactly its accepted draft. */
  lemma CheckOneDrafts(srv: Server, env: ModalEnv, box: Box, m: Listed)
    requires Consistent(srv, box)
    ensures CheckOne(srv, env, box, m).box.drafts == box.drafts + AcceptedDraft(srv, env, m)
  {
    CheckOneEffect(srv, env, box, m);
  }

  lemma CheckOneEffect(srv: Server, env: ModalEnv, box: Box, m: Listed)
    requires Consistent(srv, box)
    ensures var b := CheckOne(srv, env, box, m).box;
      && b.labels == (if MessagePlan(srv, env, m).Ok? then box.labels[m.id := box.labels[m.id] - {Unread}] else box.labels)
      && b.drafts == box.drafts + AcceptedDraft(srv, env, m)
  {
    CheckOneByPlan(srv, env, box, m);
    CheckOneConsistent(srv, env, box, m);
    assert forall l: set<Label> :: (l - {Unread}) + {} == l - {Unread};
  }

  /**
   * The batch's effect on a consistent mailbox: every message processed without exception
   * is marked read, whether or not it needed a reply; every other label set is as it was
   * (so a failed message stays unread); and the drafts are those of BatchDrafts.
   */
  lemma {:induction false} CheckAllLabels(srv: Server, env: ModalEnv, box: Box, msgs: seq<Listed>)
    requires Consistent(srv, box)
    ensures var b := CheckAll(srv, env, box, msgs);
      && b.labels.Keys == box.labels.Keys
      && forall k | k in box.labels ::
           b.labels[k] == if k in ProcessedIds(srv, env, msgs) then box.labels[k] - {Unread} else box.labels[k]
    decreases |msgs|
  {
    if msgs != [] {
      var m := msgs[0];
      var b1 := CheckOne(srv, env, box, m).box;
      CheckOneEffect(srv, env, box, m);
      CheckOneConsistent(srv, env, box, m);
      CheckAllLabels(srv, env, b1, msgs[1..]);
    }
  }

  lemma {:induction false} CheckAllDrafts(srv: Server, env: ModalEnv, box: Box, msgs: seq<Listed>)
    requires Consistent(srv, box)
    ensures CheckAll(srv, env, box, msgs).drafts == box.drafts + BatchDrafts(srv, env, msgs)
    decreases |msgs|
  {
    if msgs != [] {
      CheckOneConsistent(srv, env, box, msgs[0]);
      CheckAllDrafts(srv, env, CheckOne(srv, env, box, msgs[0]).box, msgs[1..]);
      CheckAllDraftsStep(srv, env, box, msgs);
    }
  }

  /** The inductive step of CheckAllDrafts: the first message's draft goes before those of the rest. */
  lemma CheckAllDraftsStep(srv: Server, env: ModalEnv, box: Box, msgs: seq<Listed>)
    requires Consistent(srv, box) && msgs != []
    requires var b1 := CheckOne(srv, env, box, msgs[0]).box;
      CheckAll(srv, env, b1, msgs[1..]).drafts == b1.drafts + BatchDrafts(srv, env, msgs[1..])
    ensures CheckAll(srv, env, box, msgs).drafts == box.drafts + BatchDrafts(srv, env, msgs)
  {
    var b1 := CheckOne(srv, env, box, msgs[0]).box;
    var d := AcceptedDraft(srv, env, msgs[0]);
    var later := BatchDrafts(srv, env, msgs[1..]);
    CheckOneDrafts(srv, env, box, msgs[0]);
    assert CheckAll(srv, env, box, msgs) == CheckAll(srv, env, b1, msgs[1..]);
    assert BatchDrafts(srv, env, msgs) == d + later;
    DraftsAssociate(box.drafts, d, later);
  }

  /** The per-message loop of check_emails_periodically over the listed messages. */
  method CheckEmailsPeriodically(mb: Mailbox, env: ModalEnv, listed: seq<Listed>)
    requires mb.Valid()
    modifies mb
    ensures mb.State() == CheckAll(mb.server, env, old(mb.State()), listed)
    ensures mb.Valid()
  {
    if |listed| == 0 {
      return;
    }
    var i := 0;
    while i < |listed|
      invariant 0 <= i <= |listed|
      invariant CheckAll(mb.server, env, old(mb.State()), listed) == CheckAll(mb.server, env, mb.State(), listed[i..])
    {
      var m := listed[i];
      assert listed[i..][0] == m && listed[i..][1..] == listed[i + 1..];
      CheckOneByPlan(mb.server, env, mb.State(), m);
      var fetched := FetchMessage(mb, m.id, env.decode);
      if fetched.Ok? {
        var plan := ModalPlan(env, fetched.value, m.threadId, true);
        if plan.Ok? {
          if plan.value.Some? {
            var _ := mb.CreateDraft(plan.value.value);
          }
          var _ := mb.Modify(m.id, {Unread}, {});
        }
      }
      i := i + 1;
    }
  }
}
