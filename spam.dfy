/**
 * spam.py: recent spam addressed to the personal address is moved out of spam and
 * marked important; everything else in spam is left alone.
 */
module Spam {
  import opened PyValues
  import opened Text
  import opened Gmail

  /**
   * process_email's test: the lower-cased To header contains the personal address.
   * An unknown id raises, and so does an unset PERSONAL_EMAIL (`None in str`).
   */
  function Rescue(srv: Server, personal: Option<string>, id: MsgId): (r: Outcome<bool>)
    ensures r.Ok? <==> id in srv.messages && personal.Some?
  {
    if id !in srv.messages then Raised
    else
      match personal
      case None => Raised
      case Some(p) =>
        var to := Lower(HeaderGet(srv.messages[id].headers, "To"));
        Ok(Contains(to, p))
  }

  /** When it does not raise, the test holds exactly when the address occurs in the lower-cased To header. */
  lemma RescueMeans(srv: Server, personal: Option<string>, id: MsgId)
    requires id in srv.messages && personal.Some?
    ensures Rescue(srv, personal, id) ==
      Ok(exists i :: OccursAt(Lower(HeaderGet(srv.messages[id].headers, "To")), personal.value, i))
  {
    ContainsIff(Lower(HeaderGet(srv.messages[id].headers, "To")), personal.value);
  }

  /** The empty address matches every message. */
  lemma EmptyAddressMatchesAll(srv: Server, id: MsgId)
    requires id in srv.messages
    ensures Rescue(srv, Some(""), id) == Ok(true)
  {
    EmptyContained(Lower(HeaderGet(srv.messages[id].headers, "To")));
  }

  /** An address with a capital letter matches nothing: only the header is lower-cased. */
  lemma CapitalisedAddressMatchesNothing(srv: Server, p: string, id: MsgId)
    requires HasUpper(p)
    ensures Rescue(srv, Some(p), id) != Ok(true)
  {
    if id in srv.messages {
      UpperNeverInLower(HeaderGet(srv.messages[id].headers, "To"), p);
    }
  }

  /** A message without a To header is compared against "", which only the empty address matches. */
  lemma MissingToHeader(srv: Server, p: string, id: MsgId)
    requires id in srv.messages
    requires forall i | 0 <= i < |srv.messages[id].headers| :: srv.messages[id].headers[i].name != "To"
    ensures Rescue(srv, Some(p), id) == Ok(p == "")
  {
    MissingHeaderIsEmpty(srv.messages[id].headers, "To");
    assert Lower("") == "";
    if p == "" {
      EmptyContained("");
    }
  }

  /**
   * process_email on one id: the state afterwards and its return value. It raises exactly
   * when the test raises or the message to relabel is unknown; otherwise it relabels the
   * message when the test holds and leaves the mailbox alone when not.
   */
  function SpamStep(srv: Server, personal: Option<string>, box: Box, id: MsgId): (r: Outcome<(Box, bool)>)
    ensures r.Ok? ==> r.value.0.drafts == box.drafts && r.value.0.labels.Keys == box.labels.Keys
    ensures r.Ok? ==> Rescue(srv, personal, id) == Ok(r.value.1)
    ensures r.Raised? <==> Rescue(srv, personal, id).Raised? || (Rescue(srv, personal, id) == Ok(true) && id !in box.labels)
    ensures r.Ok? && !r.value.1 ==> r.value.0 == box
    ensures r.Ok? && r.value.1 ==>
      id in box.labels && r.value.0.labels == box.labels[id := (box.labels[id] - {Spam}) + {Important}]
  {
    match Rescue(srv, personal, id)
    case Raised => Raised
    case Ok(false) => Ok((box, false))
    case Ok(true) =>
      match Modified(box, id, {Spam}, {Important})
      case Raised => Raised
      case Ok(box1) => Ok((box1, true))
  }

  /** Where main's loop got to: the mailbox, the number of emails moved, and whether it finished. */
  datatype Run = Run(box: Box, moved: nat, finished: bool)

  /**
   * main's loop. The first exception ends the run; the relabellings before it stay done.
   */
  function SpamRun(srv: Server, personal: Option<string>, box: Box, ids: seq<MsgId>): (r: Run)
    ensures r.box.drafts == box.drafts && r.box.labels.Keys == box.labels.Keys
    ensures r.moved <= |ids|
    ensures r.finished ==> r.moved == Matches(srv, personal, ids)
    decreases |ids|
  {
    if ids == [] then Run(box, 0, true)
    else
      var step := SpamStep(srv, personal, box, ids[0]);
      if step.Raised? then Run(box, 0, false)
      else
        var rest := SpamRun(srv, personal, step.value.0, ids[1..]);
        rest.(moved := rest.moved + (if step.value.1 then 1 else 0))
  }

  /**
   * One step of main's loop: an exception stops it where it is, and a step that succeeds
   * is followed by the rest of the ids.
   */
  lemma SpamRunCons(srv: Server, personal: Option<string>, box: Box, ids: seq<MsgId>)
    requires ids != []
    ensures SpamStep(srv, personal, box, ids[0]).Raised? ==> SpamRun(srv, personal, box, ids) == Run(box, 0, false)
    ensures SpamStep(srv, personal, box, ids[0]).Ok? ==>
      var s := SpamStep(srv, personal, box, ids[0]).value;
      var t := SpamRun(srv, personal, s.0, ids[1..]);
      SpamRun(srv, personal, box, ids) == t.(moved := t.moved + (if s.1 then 1 else 0))
  {
  }

  /** Running two lists in a row is running their concatenation; the counts add up. */
  lemma {:induction false} SpamRunAppend(srv: Server, personal: Option<string>, box: Box, xs: seq<MsgId>, ys: seq<MsgId>)
    ensures var r := SpamRun(srv, personal, box, xs);
      SpamRun(srv, personal, box, xs + ys) ==
        if r.finished then
          var s := SpamRun(srv, personal, r.box, ys);
          s.(moved := r.moved + s.moved)
        else r
    decreases |xs|
  {
    if xs == [] {
      assert xs + ys == ys;
    } else {
      assert (xs + ys)[0] == xs[0];
      assert (xs + ys)[1..] == xs[1..] + ys;
      var step := SpamStep(srv, personal, box, xs[0]);
      if step.Ok? {
        SpamRunAppend(srv, personal, step.value.0, xs[1..], ys);
        SpamRunCons(srv, personal, box, xs + ys);
        SpamRunCons(srv, personal, box, xs);
      }
    }
  }

  /**
   * An exception on one id ends main: the relabellings and the count before it stay as
   * they were, and no id after it is looked at.
   */
  lemma FailureAbortsRun(srv: Server, personal: Option<string>, box: Box, xs: seq<MsgId>, x: MsgId, ys: seq<MsgId>)
    requires SpamRun(srv, personal, box, xs).finished
    requires SpamStep(srv, personal, SpamRun(srv, personal, box, xs).box, x).Raised?
    ensures SpamRun(srv, personal, box, xs + [x] + ys) == SpamRun(srv, personal, box, xs).(finished := false)
  {
    assert xs + [x] + ys == xs + ([x] + ys);
    SpamRunAppend(srv, personal, box, xs, [x] + ys);
    assert ([x] + ys)[0] == x;
  }

  /** A step that succeeds after a completed run extends it by one id. */
  lemma SpamRunSnoc(srv: Server, personal: Option<string>, box: Box, xs: seq<MsgId>, x: MsgId)
    requires SpamRun(srv, personal, box, xs).finished
    requires SpamStep(srv, personal, SpamRun(srv, personal, box, xs).box, x).Ok?
    ensures var s := SpamStep(srv, personal, SpamRun(srv, personal, box, xs).box, x).value;
      SpamRun(srv, personal, box, xs + [x]) == Run(s.0, SpamRun(srv, personal, box, xs).moved + (if s.1 then 1 else 0), true)
  {
    SpamRunAppend(srv, personal, box, xs, [x]);
    SpamRunCons(srv, personal, SpamRun(srv, personal, box, xs).box, [x]);
    assert [x][1..] == [];
  }

  /** The number of ids that satisfy the test. */
  function Matches(srv: Server, personal: Option<string>, ids: seq<MsgId>): nat
    decreases |ids|
  {
    if ids == [] then 0
    else (if Rescue(srv, personal, ids[0]) == Ok(true) then 1 else 0) + Matches(srv, personal, ids[1..])
  }

  /** The ids that satisfy the test. */
  function Rescued(srv: Server, personal: Option<string>, ids: seq<MsgId>): set<MsgId>
    decreases |ids|
  {
    if ids == [] then {}
    else (if Rescue(srv, personal, ids[0]) == Ok(true) then {ids[0]} else {}) + Rescued(srv, personal, ids[1..])
  }

  /**
   * On a consistent mailbox the run finishes exactly when every id is known and the
   * address is set; it then counts the matching ids, labels each of them
   * IMPORTANT without SPAM, and leaves every other label set as it was; no draft is made.
   */
  lemma {:induction false} SpamRunEffect(srv: Server, personal: Option<string>, box: Box, ids: seq<MsgId>)
    requires Consistent(srv, box)
    ensures var r := SpamRun(srv, personal, box, ids);
      var (b, n, done) := (r.box, r.moved, r.finished);
      && (done <==> forall i | 0 <= i < |ids| :: Rescue(srv, personal, ids[i]).Ok?)
      && b.drafts == box.drafts && b.labels.Keys == box.labels.Keys
      && (done ==> n == Matches(srv, personal, ids))
      && (done ==> forall k | k in box.labels ::
            b.labels[k] == if k in Rescued(srv, personal, ids) then (box.labels[k] - {Spam}) + {Important} else box.labels[k])
    decreases |ids|
  {
    if ids != [] {
      var id := ids[0];
      assert forall i | 0 <= i < |ids| - 1 :: ids[1..][i] == ids[i + 1];
      var step := SpamStep(srv, personal, box, id);
      if step.Ok? {
        SpamRunEffect(srv, personal, step.value.0, ids[1..]);
        var r := SpamRun(srv, personal, step.value.0, ids[1..]);
        var (b, n, done) := (r.box, r.moved, r.finished);
        if done && step.value.1 {
          forall k | k in box.labels
            ensures b.labels[k] == if k in Rescued(srv, personal, ids) then (box.labels[k] - {Spam}) + {Important} else box.labels[k]
          {
            if k == id && k in Rescued(srv, personal, ids[1..]) {
              assert ((box.labels[k] - {Spam}) + {Important} - {Spam}) + {Important} == (box.labels[k] - {Spam}) + {Important};
            }
          }
        }
      }
    }
  }

  /** Rescuing a message twice labels it as rescuing it once. */
  lemma RescueIdempotent(box: Box, id: MsgId)
    requires id in box.labels
    ensures Modified(Modified(box, id, {Spam}, {Important}).value, id, {Spam}, {Important})
         == Modified(box, id, {Spam}, {Important})
  {
    var l := box.labels[id];
    var once := (l - {Spam}) + {Important};
    assert (once - {Spam}) + {Important} == once;
    var b1 := box.(labels := box.labels[id := once]);
    assert Modified(box, id, {Spam}, {Important}) == Ok(b1);
    assert b1.labels[id := (b1.labels[id] - {Spam}) + {Important}] == b1.labels;
  }

  /** process_email against the mailbox. */
  method ProcessSpam(mb: Mailbox, personal: Option<string>, id: MsgId) returns (r: Outcome<bool>)
    modifies mb`labels
    ensures var s := SpamStep(mb.server, personal, old(mb.State()), id);
      && (s.Raised? ==> r.Raised? && mb.State() == old(mb.State()))
      && (s.Ok? ==> r == Ok(s.value.1) && mb.State() == s.value.0)
  {
    if id !in mb.server.messages || personal.None? {
      return Raised;
    }
    var to := Lower(HeaderGet(mb.server.messages[id].headers, "To"));
    if Contains(to, personal.value) {
      var ok := mb.Modify(id, {Spam}, {Important});
      if !ok {
        return Raised;
      }
      return Ok(true);
    }
    return Ok(false);
  }

  /** The ids before position i, the one at it, and those after it make up the list. */
  lemma SplitAt(ids: seq<MsgId>, i: nat)
    requires i < |ids|
    ensures ids[..i] + [ids[i]] + ids[i + 1..] == ids
    ensures ids[..i] + [ids[i]] == ids[..i + 1]
  {
    assert ids[..i + 1] + ids[i + 1..] == ids;
  }

  /** main over the listed spam ids: the count of moved emails, and whether the loop finished. */
  method SpamMain(mb: Mailbox, personal: Option<string>, ids: seq<MsgId>) returns (count: nat, completed: bool)
    requires mb.Valid()
    modifies mb`labels
    ensures Run(mb.State(), count, completed) == SpamRun(mb.server, personal, old(mb.State()), ids)
    ensures mb.Valid()
  {
    if |ids| == 0 {
      return 0, true;
    }
    ghost var start := mb.State();
    count := 0;
    var i := 0;
    while i < |ids|
      invariant 0 <= i <= |ids|
      invariant SpamRun(mb.server, personal, start, ids[..i]) == Run(mb.State(), count, true)
      invariant mb.Valid()
    {
      var r := ProcessSpam(mb, personal, ids[i]);
      if r.Raised? {
        FailureAbortsRun(mb.server, personal, start, ids[..i], ids[i], ids[i + 1..]);
        SplitAt(ids, i);
        return count, false;
      }
      SpamRunSnoc(mb.server, personal, start, ids[..i], ids[i]);
      SplitAt(ids, i);
      if r.value {
        count := count + 1;
      }
      i := i + 1;
    }
    assert ids[..i] == ids;
    completed := true;
  }
}
