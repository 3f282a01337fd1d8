/**
 * agent.py: the stand-alone variant. It lists unread ids, fetches each message, asks the
 * model for a reply decision, creates a draft when one is needed and marks the message
 * read. Nothing in its loop catches an exception, so the first one ends the run.
 */
module Agent {
  import opened PyValues
  import opened Text
  import opened Gmail

  /** Subject prefix of the drafts this variant creates, before the date. */
  const AutoPrefix := "Re: (auto) "

  /**
   * The collaborators agent.py calls: the model (the text content of its reply to the
   * prompt built from subject, sender and body), json.loads, the base64 and utf-8
   * decoding of a body part (errors="ignore", so only bad base64 raises), and
   * `datetime.now().strftime("%b %d")`.
   */
  datatype AgentEnv = AgentEnv(
    chat: (string, string, string) -> string,
    parse: string -> Option<Json>,
    decode: string -> Outcome<string>,
    today: string)

  /** `s.startswith("{")`. */
  predicate OpensObject(s: string)
  {
    |s| > 0 && s[0] == '{'
  }

  /**
   * The inner object of a reply whose reply_draft is itself a JSON object in a string:
   * present exactly when reply_draft is a string opening with `{` that parses.
   */
  function NestedPayload(parse: string -> Option<Json>, outer: Json): (r: Option<Json>)
    ensures r.Some? ==> outer.JObj? && "reply_draft" in outer.fields
    ensures r.Some? ==> var d := outer.fields["reply_draft"];
      d.JStr? && OpensObject(d.str) && parse(d.str) == r
    ensures (outer.JObj? && "reply_draft" in outer.fields && outer.fields["reply_draft"].JStr?
             && OpensObject(outer.fields["reply_draft"].str)) ==>
      r == parse(outer.fields["reply_draft"].str)
  {
    match Get(outer, "reply_draft")
    case Ok(JStr(d)) => if OpensObject(d) then parse(d) else None
    case _ => None
  }

  /**
   * draft_reply's handling of the model's content: one parse of the stripped text, one
   * level of unwrapping of a nested object, and the raw-text fallback when the parse
   * fails or yields something without `.get`.
   */
  function NormaliseReply(parse: string -> Option<Json>, content: string): (r: Json)
    ensures var s := Strip(content);
      parse(s).None? ==> r == Decision(true, s)
    ensures var s := Strip(content);
      parse(s).Some? && !parse(s).value.JObj? ==> r == Decision(true, s)
    ensures var s := Strip(content);
      parse(s).Some? && parse(s).value.JObj? && NestedPayload(parse, parse(s).value).Some? ==>
        r == NestedPayload(parse, parse(s).value).value
    ensures var s := Strip(content);
      parse(s).Some? && parse(s).value.JObj? && NestedPayload(parse, parse(s).value).None? ==>
        r == parse(s).value
  {
    var s := Strip(content);
    match parse(s)
    case None => Decision(true, s)
    case Some(outer) =>
      if !outer.JObj? then Decision(true, s)
      else match NestedPayload(parse, outer)
        case Some(inner) => inner
        case None => outer
  }

  /** A parser that turns text opening with `{` into an object whenever it succeeds, as json.loads does. */
  ghost predicate BracesYieldObjects(parse: string -> Option<Json>)
  {
    forall s :: OpensObject(s) && parse(s).Some? ==> parse(s).value.JObj?
  }

  /** With such a parser the decision is always a dict, so agent_loop's `.get` never raises. */
  lemma NormalisedReplyIsObject(parse: string -> Option<Json>, content: string)
    requires BracesYieldObjects(parse)
    ensures NormaliseReply(parse, content).JObj?
  {
    var s := Strip(content);
    if parse(s).Some? && parse(s).value.JObj? {
      var n := NestedPayload(parse, parse(s).value);
      if n.Some? {
        assert OpensObject(parse(s).value.fields["reply_draft"].str);
      }
    }
  }

  /**
   * What the loop does with one id before touching the mailbox: raises, needs no reply
   * (None), or has the draft to create. A failed fetch, a reply without `.get`, a missing
   * reply_draft key and a non-string reply_draft (MIMEText raises) all raise.
   */
  function AgentPlan(srv: Server, env: AgentEnv, id: MsgId): (r: Outcome<Option<Draft>>)
    ensures Fetched(srv, id, env.decode).Raised? ==> r.Raised?
    ensures r.Ok? ==> Fetched(srv, id, env.decode).Ok?
    ensures Fetched(srv, id, env.decode).Ok? ==>
      var e := Fetched(srv, id, env.decode).value;
      var reply := NormaliseReply(env.parse, env.chat(e.subject, e.sender, e.body));
      && (r.Ok? <==> reply.JObj? && (Truthy(Get(reply, "needs_reply").value) ==> Index(reply, "reply_draft").Ok? && Index(reply, "reply_draft").value.JStr?))
      && (r.Ok? ==> (r.value.Some? <==> Truthy(Get(reply, "needs_reply").value)))
      && (r.Ok? && r.value.Some? ==>
            r.value.value == Draft(e.sender, AutoPrefix + env.today, Index(reply, "reply_draft").value.str, id))
  {
    match Fetched(srv, id, env.decode)
    case Raised => Raised
    case Ok(e) =>
      var reply := NormaliseReply(env.parse, env.chat(e.subject, e.sender, e.body));
      match Get(reply, "needs_reply")
      case Raised => Raised
      case Ok(flag) =>
        if !Truthy(flag) then Ok(None)
        else match Index(reply, "reply_draft")
          case Ok(JStr(text)) => Ok(Some(Draft(e.sender, AutoPrefix + env.today, text, id)))
          case _ => Raised
  }

  /** mark_read: remove UNREAD; the flag says whether the call returned normally. */
  function MarkRead(box: Box, id: MsgId): (r: Step)
    ensures r.ok <==> id in box.labels
    ensures r.ok ==> r.box == box.(labels := box.labels[id := box.labels[id] - {Unread}])
    ensures !r.ok ==> r.box == box
  {
    assert forall l: set<Label> :: (l - {Unread}) + {} == l - {Unread};
    match Modified(box, id, {Unread}, {})
    case Ok(b) => Step(b, true)
    case Raised => Step(box, false)
  }

  /** One iteration of agent_loop: the new mailbox state, and whether no exception was raised. */
  function AgentStep(srv: Server, env: AgentEnv, box: Box, id: MsgId): (r: Step)
    ensures r.box.labels.Keys == box.labels.Keys
    ensures box.drafts <= r.box.drafts && |r.box.drafts| <= |box.drafts| + 1
    ensures AgentPlan(srv, env, id).Raised? ==> r == Step(box, false)
    ensures (AgentPlan(srv, env, id).Ok? && AgentPlan(srv, env, id).value.Some?
             && srv.rejects(AgentPlan(srv, env, id).value.value).Some?) ==> r == Step(box, false)
    ensures r.ok ==> AgentPlan(srv, env, id).Ok? && id in box.labels && Unread !in r.box.labels[id]
  {
    match AgentPlan(srv, env, id)
    case Raised => Step(box, false)
    case Ok(None) => MarkRead(box, id)
    case Ok(Some(d)) =>
      var (res, box1) := DraftCreation(srv, box, d);
      if res.Rejected? then Step(box, false) else MarkRead(box1, id)
  }

  /** agent_loop over the listed ids, in order, stopping at the first exception. */
  function AgentRun(srv: Server, env: AgentEnv, box: Box, ids: seq<MsgId>): (r: Step)
    ensures r.box.labels.Keys == box.labels.Keys
    ensures box.drafts <= r.box.drafts && |r.box.drafts| <= |box.drafts| + |ids|
    decreases |ids|
  {
    if ids == [] then Step(box, true)
    else
      var s := AgentStep(srv, env, box, ids[0]);
      if s.ok then AgentRun(srv, env, s.box, ids[1..]) else s
  }

  /** The drafts a completed run creates: one per id that needs a reply, in list order. */
  function AgentDrafts(srv: Server, env: AgentEnv, ids: seq<MsgId>): seq<Draft>
    decreases |ids|
  {
    if ids == [] then []
    else
      PlannedDraft(srv, env, ids[0]) + AgentDrafts(srv, env, ids[1..])
  }

  /** Running two lists in a row is running their concatenation. */
  lemma {:induction false} AgentRunAppend(srv: Server, env: AgentEnv, box: Box, xs: seq<MsgId>, ys: seq<MsgId>)
    ensures AgentRun(srv, env, box, xs + ys) ==
      var r := AgentRun(srv, env, box, xs);
      if r.ok then AgentRun(srv, env, r.box, ys) else r
    decreases |xs|
  {
    if xs != [] {
      assert (xs + ys)[0] == xs[0];
      assert (xs + ys)[1..] == xs[1..] + ys;
      var s := AgentStep(srv, env, box, xs[0]);
      if s.ok {
        AgentRunAppend(srv, env, s.box, xs[1..], ys);
      }
    } else {
      assert xs + ys == ys;
    }
  }

  /**
   * A message whose processing raises, in its fetch, its decision, its draft request or
   * its mark_read, ends the run where that step left it: the ids after it are never touched.
   */
  lemma AgentFailureStopsRun(srv: Server, env: AgentEnv, box: Box, xs: seq<MsgId>, x: MsgId, ys: seq<MsgId>)
    requires AgentRun(srv, env, box, xs).ok
    requires !AgentStep(srv, env, AgentRun(srv, env, box, xs).box, x).ok
    ensures AgentRun(srv, env, box, xs + [x] + ys) == AgentStep(srv, env, AgentRun(srv, env, box, xs).box, x)
  {
    AgentRunAppend(srv, env, box, xs, [x] + ys);
    assert xs + [x] + ys == xs + ([x] + ys);
    assert ([x] + ys)[0] == x;
  }

  /** The draft an id contributes to a completed run: none, or the one its plan asks for. */
  function PlannedDraft(srv: Server, env: AgentEnv, id: MsgId): seq<Draft>
  {
    match AgentPlan(srv, env, id) case Ok(Some(d)) => [d] case _ => []
  }

  /** One step that returns normally marks its id read and appends its planned draft. */
  lemma AgentStepCompleted(srv: Server, env: AgentEnv, box: Box, id: MsgId)
    requires AgentStep(srv, env, box, id).ok
    ensures var b := AgentStep(srv, env, box, id).box;
      && id in box.labels && AgentPlan(srv, env, id).Ok?
      && b.labels == box.labels[id := box.labels[id] - {Unread}]
      && b.drafts == box.drafts + PlannedDraft(srv, env, id)
  {
    assert forall l: set<Label> :: (l - {Unread}) + {} == l - {Unread};
  }

  /** A completed run met no exception: every listed id exists and was planned without one. */
  lemma {:induction false} AgentRunCompletedPlans(srv: Server, env: AgentEnv, box: Box, ids: seq<MsgId>)
    requires AgentRun(srv, env, box, ids).ok
    ensures forall id | id in ids :: id in box.labels && AgentPlan(srv, env, id).Ok?
    decreases |ids|
  {
    if ids != [] {
      var b1 := AgentStep(srv, env, box, ids[0]).box;
      AgentStepCompleted(srv, env, box, ids[0]);
      AgentRunCompletedPlans(srv, env, b1, ids[1..]);
      forall id | id in ids
        ensures id in box.labels && AgentPlan(srv, env, id).Ok?
      {
        assert id == ids[0] || id in ids[1..];
      }
    }
  }

  /** A completed run has marked every listed id read and left every other label set as it was. */
  lemma {:induction false} AgentRunCompletedLabels(srv: Server, env: AgentEnv, box: Box, ids: seq<MsgId>)
    requires AgentRun(srv, env, box, ids).ok
    ensures var b := AgentRun(srv, env, box, ids).box;
      && b.labels.Keys == box.labels.Keys
      && forall k | k in box.labels :: b.labels[k] == if k in ids then box.labels[k] - {Unread} else box.labels[k]
    decreases |ids|
  {
    if ids != [] {
      var b1 := AgentStep(srv, env, box, ids[0]).box;
      AgentStepCompleted(srv, env, box, ids[0]);
      AgentRunCompletedLabels(srv, env, b1, ids[1..]);
      var b := AgentRun(srv, env, b1, ids[1..]).box;
      forall k | k in box.labels
        ensures b.labels[k] == if k in ids then box.labels[k] - {Unread} else box.labels[k]
      {
        assert k in ids <==> k == ids[0] || k in ids[1..];
      }
    }
  }

  /** A completed run appends exactly the drafts of the ids that need a reply, in list order. */
  lemma {:induction false} AgentRunCompletedDrafts(srv: Server, env: AgentEnv, box: Box, ids: seq<MsgId>)
    requires AgentRun(srv, env, box, ids).ok
    ensures AgentRun(srv, env, box, ids).box.drafts == box.drafts + AgentDrafts(srv, env, ids)
    decreases |ids|
  {
    if ids != [] {
      AgentRunCompletedDrafts(srv, env, AgentStep(srv, env, box, ids[0]).box, ids[1..]);
      AgentRunDraftsStep(srv, env, box, ids);
    }
  }

  /** The inductive step of AgentRunCompletedDrafts: the first id's draft goes before those of the rest. */
  lemma AgentRunDraftsStep(srv: Server, env: AgentEnv, box: Box, ids: seq<MsgId>)
    requires ids != [] && AgentRun(srv, env, box, ids).ok
    requires var b1 := AgentStep(srv, env, box, ids[0]).box;
      AgentRun(srv, env, b1, ids[1..]).box.drafts == b1.drafts + AgentDrafts(srv, env, ids[1..])
    ensures AgentRun(srv, env, box, ids).box.drafts == box.drafts + AgentDrafts(srv, env, ids)
  {
    var b1 := AgentStep(srv, env, box, ids[0]).box;
    var d := PlannedDraft(srv, env, ids[0]);
    var later := AgentDrafts(srv, env, ids[1..]);
    AgentStepCompleted(srv, env, box, ids[0]);
    assert AgentRun(srv, env, box, ids) == AgentRun(srv, env, b1, ids[1..]);
    assert AgentDrafts(srv, env, ids) == d + later;
    DraftsAssociate(box.drafts, d, later);
  }

  /** agent_loop over the listed unread ids; `completed` is false when an exception ended the run. */
  method AgentLoop(mb: Mailbox, env: AgentEnv, ids: seq<MsgId>) returns (completed: bool)
    requires mb.Valid()
    modifies mb
    ensures Step(mb.State(), completed) == AgentRun(mb.server, env, old(mb.State()), ids)
    ensures mb.Valid()
  {
    var i := 0;
    while i < |ids|
      invariant 0 <= i <= |ids|
      invariant AgentRun(mb.server, env, old(mb.State()), ids) == AgentRun(mb.server, env, mb.State(), ids[i..])
    {
      var id := ids[i];
      assert ids[i..][0] == id && ids[i..][1..] == ids[i + 1..];
      var fetched := FetchMessage(mb, id, env.decode);
      if fetched.Raised? {
        return false;
      }
      var e := fetched.value;
      var reply := NormaliseReply(env.parse, env.chat(e.subject, e.sender, e.body));
      var flag := Get(reply, "needs_reply");
      if flag.Raised? {
        return false;
      }
      if Truthy(flag.value) {
        var text := Index(reply, "reply_draft");
        if !(text.Ok? && text.value.JStr?) {
          return false;
        }
        var res := mb.CreateDraft(Draft(e.sender, AutoPrefix + env.today, text.value.str, id));
        if res.Rejected? {
          return false;
        }
      }
      var ok := mb.Modify(id, {Unread}, {});
      if !ok {
        return false;
      }
      i := i + 1;
    }
    completed := true;
  }
}
