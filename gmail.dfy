/**
 * The mail provider as the scripts see it: messages in "full" format, header and
 * body extraction, and a mailbox whose labels and drafts the scripts change.
 */
module Gmail {
  import opened PyValues

  type MsgId = string
  type Label = string

  const Unread: Label := "UNREAD"
  const Spam: Label := "SPAM"
  const Important: Label := "IMPORTANT"
  const PlainText := "text/plain"

  datatype Header = Header(name: string, value: string)

  /** A top-level payload part; `data` is its base64url body text. */
  datatype Part = Part(mimeType: string, data: string)

  /** A message's payload: its headers and, when the key is present, its parts. */
  datatype RawMessage = RawMessage(headers: seq<Header>, parts: Option<seq<Part>>)

  /** Subject, sender and plain-text body, as fetched. */
  datatype Email = Email(subject: string, sender: string, body: string)

  datatype Draft = Draft(to: string, subject: string, body: string, threadId: string)

  /** What drafts().create answers: the new draft's id, or the error it raised. */
  datatype DraftResult = Created(draftId: nat) | Rejected(error: string)

  /**
   * The provider's side that the scripts only read: the stored messages, and which
   * draft requests it refuses (with the error text of the exception).
   */
  datatype Server = Server(messages: map<MsgId, RawMessage>, rejects: Draft -> Option<string>)

  /** The mailbox state the scripts change: labels per message and the drafts created. */
  datatype Box = Box(labels: map<MsgId, set<Label>>, drafts: seq<Draft>)

  /** The mailbox after one step of a loop, and whether that step returned normally. */
  datatype Step = Step(box: Box, ok: bool)

  /** Appending drafts in two steps is appending them at once. */
  lemma DraftsAssociate(a: seq<Draft>, b: seq<Draft>, c: seq<Draft>)
    ensures a + b + c == a + (b + c)
  {
  }

  /** `{h["name"]: h["value"] for h in headers}`: a later header overwrites an earlier one. */
  function HeaderDict(hs: seq<Header>): (d: map<string, string>)
    ensures forall k | k in d :: exists i | 0 <= i < |hs| :: hs[i].name == k && hs[i].value == d[k]
  {
    if hs == [] then map[] else HeaderDict(hs[..|hs| - 1])[hs[|hs| - 1].name := hs[|hs| - 1].value]
  }

  /** The dict holds exactly the header names. */
  lemma {:induction false} HeaderDictKeys(hs: seq<Header>)
    ensures forall k :: k in HeaderDict(hs) <==> exists i | 0 <= i < |hs| :: hs[i].name == k
  {
    if hs != [] {
      var init := hs[..|hs| - 1];
      HeaderDictKeys(init);
      forall k ensures k in HeaderDict(hs) <==> exists i | 0 <= i < |hs| :: hs[i].name == k {
        if k in HeaderDict(init) {
          var i :| 0 <= i < |init| && init[i].name == k;
          assert hs[i].name == k;
        }
        if exists i | 0 <= i < |hs| :: hs[i].name == k {
          var i :| 0 <= i < |hs| && hs[i].name == k;
          if i < |init| { assert init[i].name == k; }
        }
      }
    }
  }

  /** The value kept for a name is that of the last header with that name. */
  lemma {:induction false} HeaderDictLastWins(hs: seq<Header>, i: nat)
    requires i < |hs|
    requires forall j | i < j < |hs| :: hs[j].name != hs[i].name
    ensures hs[i].name in HeaderDict(hs) && HeaderDict(hs)[hs[i].name] == hs[i].value
  {
    if i < |hs| - 1 {
      var init := hs[..|hs| - 1];
      HeaderDictLastWins(init, i);
    }
  }

  /** `headers.get(name, "")`: a non-empty value is that of some header with the name. */
  function HeaderGet(hs: seq<Header>, name: string): (v: string)
    ensures v != "" ==> exists i | 0 <= i < |hs| :: hs[i].name == name && hs[i].value == v
  {
    var d := HeaderDict(hs);
    if name in d then d[name] else ""
  }

  /** A header that is absent reads as the empty string. */
  lemma MissingHeaderIsEmpty(hs: seq<Header>, name: string)
    requires forall i | 0 <= i < |hs| :: hs[i].name != name
    ensures HeaderGet(hs, name) == ""
  {
    HeaderDictKeys(hs);
  }

  /** The body taken from a part list: the decoding of its first text/plain part, or "". */
  function PlainBody(parts: seq<Part>, decode: string -> Outcome<string>): (r: Outcome<string>)
    ensures r == Ok("") || exists k | 0 <= k < |parts| :: parts[k].mimeType == PlainText && r == decode(parts[k].data)
  {
    if parts == [] then Ok("")
    else if parts[0].mimeType == PlainText then decode(parts[0].data)
    else PlainBody(parts[1..], decode)
  }

  function PartsOf(m: RawMessage): seq<Part>
  {
    if m.parts.Some? then m.parts.value else []
  }

  /** The body is the decoding of the first text/plain part; later parts play no role. */
  lemma {:induction false} PlainBodyFirst(parts: seq<Part>, decode: string -> Outcome<string>, k: nat)
    requires k < |parts| && parts[k].mimeType == PlainText
    requires forall i | 0 <= i < k :: parts[i].mimeType != PlainText
    ensures PlainBody(parts, decode) == decode(parts[k].data)
  {
    if k > 0 {
      PlainBodyFirst(parts[1..], decode, k - 1);
    }
  }

  /** Without a text/plain part the body is "" (no HTML fallback). */
  lemma {:induction false} PlainBodyNone(parts: seq<Part>, decode: string -> Outcome<string>)
    requires forall i | 0 <= i < |parts| :: parts[i].mimeType != PlainText
    ensures PlainBody(parts, decode) == Ok("")
  {
    if parts != [] {
      PlainBodyNone(parts[1..], decode);
    }
  }

  /** The scan over the payload's parts, stopping at the first text/plain one. */
  method ExtractBody(m: RawMessage, decode: string -> Outcome<string>) returns (body: Outcome<string>)
    ensures body == PlainBody(PartsOf(m), decode)
  {
    body := Ok("");
    var parts := if m.parts.Some? then m.parts.value else [];
    var i := 0;
    while i < |parts|
      invariant 0 <= i <= |parts|
      invariant PlainBody(parts, decode) == PlainBody(parts[i..], decode)
    {
      if parts[i].mimeType == PlainText {
        body := decode(parts[i].data);
        break;
      }
      assert parts[i..][1..] == parts[i + 1..];
      i := i + 1;
    }
  }

  /**
   * Fetching a message and reading Subject, From and the body from it; an unknown
   * id, or a body that does not decode, raises.
   */
  function Fetched(srv: Server, id: MsgId, decode: string -> Outcome<string>): (r: Outcome<Email>)
    ensures r.Raised? <==> id !in srv.messages || PlainBody(PartsOf(srv.messages[id]), decode).Raised?
    ensures r.Ok? ==>
      var hs := srv.messages[id].headers;
      && r.value.subject == HeaderGet(hs, "Subject") && r.value.sender == HeaderGet(hs, "From")
      && Ok(r.value.body) == PlainBody(PartsOf(srv.messages[id]), decode)
  {
    if id !in srv.messages then Raised
    else
      var m := srv.messages[id];
      match PlainBody(PartsOf(m), decode)
      case Raised => Raised
      case Ok(body) => Ok(Email(HeaderGet(m.headers, "Subject"), HeaderGet(m.headers, "From"), body))
  }

  /** What users().messages().modify does to the labels; an unknown id raises. */
  function Modified(box: Box, id: MsgId, remove: set<Label>, add: set<Label>): (r: Outcome<Box>)
    ensures r.Ok? <==> id in box.labels
    ensures r.Ok? ==> r.value.drafts == box.drafts && r.value.labels.Keys == box.labels.Keys
    ensures r.Ok? ==> forall l :: l in r.value.labels[id] <==> l in add || (l in box.labels[id] && l !in remove)
    ensures r.Ok? ==> forall k | k in box.labels && k != id :: r.value.labels[k] == box.labels[k]
  {
    if id in box.labels then Ok(box.(labels := box.labels[id := (box.labels[id] - remove) + add]))
    else Raised
  }

  /** What drafts().create does: a refused request changes nothing; otherwise the draft is appended. */
  function DraftCreation(srv: Server, box: Box, d: Draft): (r: (DraftResult, Box))
    ensures r.1.labels == box.labels
    ensures srv.rejects(d).Some? ==> r == (Rejected(srv.rejects(d).value), box)
    ensures srv.rejects(d).None? ==> r.0 == Created(|box.drafts|) && r.1.drafts == box.drafts + [d]
  {
    match srv.rejects(d)
    case Some(e) => (Rejected(e), box)
    case None => (Created(|box.drafts|), box.(drafts := box.drafts + [d]))
  }

  /** Every stored message has a label set, and only those. */
  predicate Consistent(srv: Server, box: Box)
  {
    box.labels.Keys == srv.messages.Keys
  }

  /** The mailbox the scripts act on; every stored message has a label set. */
  class Mailbox {
    const server: Server
    var labels: map<MsgId, set<Label>>
    var drafts: seq<Draft>

    ghost predicate Valid()
      reads this
    {
      Consistent(server, State())
    }

    function State(): Box
      reads this
    {
      Box(labels, drafts)
    }

    constructor (server: Server, labels: map<MsgId, set<Label>>)
      requires labels.Keys == server.messages.Keys
      ensures Valid() && this.server == server && State() == Box(labels, [])
    {
      this.server := server;
      this.labels := labels;
      this.drafts := [];
    }

    method Modify(id: MsgId, remove: set<Label>, add: set<Label>) returns (ok: bool)
      modifies this`labels
      ensures ok == Modified(old(State()), id, remove, add).Ok?
      ensures State() == if ok then Modified(old(State()), id, remove, add).value else old(State())
    {
      ok := id in labels;
      if ok {
        labels := labels[id := (labels[id] - remove) + add];
      }
    }

    method CreateDraft(d: Draft) returns (r: DraftResult)
      modifies this`drafts
      ensures (r, State()) == DraftCreation(server, old(State()), d)
    {
      match server.rejects(d)
      case Some(e) =>
        r := Rejected(e);
      case None =>
        r := Created(|drafts|);
        drafts := drafts + [d];
    }
  }

  /** Fetching a message through the mailbox (the body scan is the loop of ExtractBody). */
  method FetchMessage(mb: Mailbox, id: MsgId, decode: string -> Outcome<string>) returns (r: Outcome<Email>)
    ensures r == Fetched(mb.server, id, decode)
    ensures r.Ok? ==> id in mb.server.messages
    ensures r.Ok? ==> r.value.subject == HeaderGet(mb.server.messages[id].headers, "Subject")
    ensures r.Ok? ==> r.value.sender == HeaderGet(mb.server.messages[id].headers, "From")
    ensures r.Ok? ==> Ok(r.value.body) == PlainBody(PartsOf(mb.server.messages[id]), decode)
  {
    if id !in mb.server.messages {
      return Raised;
    }
    var m := mb.server.messages[id];
    var body := ExtractBody(m, decode);
    match body
    case Raised => r := Raised;
    case Ok(b) => r := Ok(Email(HeaderGet(m.headers, "Subject"), HeaderGet(m.headers, "From"), b));
  }
}
