// Which tool calls record which IDs: the handlers of internal/tools that hold the issued-ID
// store (single-entity gets) and those that do not (everything that lists, searches or
// syncs), and where, over a whole run, an ID that passes Check must have come from.
module ToolRecords {
  import opened Wrappers
  import opened Text
  import opened UntrustedResults
  import opened Identity
  import opened IssuedSpec
  import opened IssuedStore

  // An entity as Fileee returns it: its own ID field, its foreign text line ("" for none),
  // and the IDs nested in it (tags, documents in a box, conversations).
  datatype Entity = Entity(id: string, line: string, nested: seq<string>)

  datatype Error = EmptyID | BadMode | NoClient | Service | Boundary | TooLarge | ReadFailed

  // ---------------------------------------------------------------- below client resolution

  // The ID to record: none after an error.
  function IfOk<T>(r: Result<T, Error>, id: string): Option<string> {
    if r.Ok? then Some(id) else None
  }

  lemma OneLine(line: string)
    ensures NonBlank([line]) == if IsBlank(line) then [] else [line]
  {
    assert [line][..0] == [];
  }

  // getFromService
  method GetFromService(reply: Option<Entity>, boundary: Option<string>, identity: Option<string>, id: string,
                        rec: Store?, now: int)
    returns (r: Result<Entity, Error>)
    modifies rec
    ensures r == GetResult(reply, boundary)
    ensures rec != null ==> Recorded(rec.cfg, old(rec.byIdent), rec.byIdent, identity, IfOk(r, id), now)
  {
    if reply.None? {
      return Err(Service);
    }
    OneLine(reply.value.line);
    var result := WrapUntrustedLines([reply.value.line], boundary);
    if result == null {
      return Err(Boundary);
    }
    var _ := Store.Record(rec, identity, [id], now);
    return Ok(reply.value);
  }

  // What a document or a box answers with: the ID field of the reply, and the IDs nested in it.
  datatype Detail = Detail(id: string, nested: seq<string>)

  // documentFromService: the document's title is the one framed line; its own ID field and its tag
  // IDs go into the answer, and neither into the store.
  method DocumentFromService(reply: Option<Entity>, boundary: Option<string>, identity: Option<string>, id: string,
                             rec: Store?, now: int)
    returns (r: Result<Detail, Error>)
    modifies rec
    ensures
      match GetResult(reply, boundary)
      case Ok(doc) => r == Ok(Detail(doc.id, doc.nested))
      case Err(e) => r == Err(e)
    ensures rec != null ==> Recorded(rec.cfg, old(rec.byIdent), rec.byIdent, identity, IfOk(r, id), now)
  {
    if reply.None? {
      return Err(Service);
    }
    var out := Detail(reply.value.id, reply.value.nested);
    OneLine(reply.value.line);
    var result := WrapUntrustedLines([reply.value.line], boundary);
    if result == null {
      return Err(Boundary);
    }
    var _ := Store.Record(rec, identity, [id], now);
    return Ok(out);
  }

  // boxFromService: no foreign text, so nothing that can fail after the fetch.
  method BoxFromService(reply: Option<Entity>, identity: Option<string>, id: string, rec: Store?, now: int)
    returns (r: Result<Detail, Error>)
    modifies rec
    ensures r == if reply.Some? then Ok(Detail(reply.value.id, reply.value.nested)) else Err(Service)
    ensures rec != null ==> Recorded(rec.cfg, old(rec.byIdent), rec.byIdent, identity, IfOk(r, id), now)
  {
    if reply.None? {
      return Err(Service);
    }
    var ids: seq<string> := [];
    for i := 0 to |reply.value.nested|
      invariant ids == reply.value.nested[..i]
    {
      ids := ids + [reply.value.nested[i]];
    }
    assert reply.value.nested[..|reply.value.nested|] == reply.value.nested;
    var _ := Store.Record(rec, identity, [id], now);
    return Ok(Detail(reply.value.id, ids));
  }

  // maxBinaryBytes: 8 MiB.
  const MAX_BINARY_BYTES: nat := 8 * 1024 * 1024

  // A body being downloaded: the bytes it delivers, and whether it then ends or fails.
  datatype Stream = Stream(data: seq<Byte>, ends: bool)

  // readLimited: all of the body or an error, never a truncated answer, and at most one byte
  // more than the limit is ever read.
  method ReadLimited(s: Stream, limit: nat) returns (r: Result<seq<Byte>, Error>)
    ensures r.Ok? <==> |s.data| <= limit && s.ends
    ensures r.Ok? ==> r.value == s.data
    ensures r.Err? ==> r.error == (if |s.data| > limit then TooLarge else ReadFailed)
  {
    var data: seq<Byte> := [];
    while |data| < limit + 1 && |data| < |s.data|
      invariant |data| <= |s.data| && |data| <= limit + 1 && data == s.data[..|data|]
      decreases |s.data| - |data|
    {
      data := data + [s.data[|data|]];
    }
    if |data| < limit + 1 && !s.ends {
      return Err(ReadFailed);
    }
    if |data| > limit {
      return Err(TooLarge);
    }
    return Ok(data);
  }

  method DocumentPDFFromService(reply: Option<Stream>, identity: Option<string>, id: string, rec: Store?, now: int)
    returns (r: Result<seq<Byte>, Error>)
    modifies rec
    ensures r.Ok? <==> reply.Some? && reply.value.ends && |reply.value.data| <= MAX_BINARY_BYTES
    ensures r.Ok? ==> r.value == reply.value.data
    ensures r.Err? ==>
              r.error == if reply.None? then Service
                         else if |reply.value.data| > MAX_BINARY_BYTES then TooLarge else ReadFailed
    ensures rec != null ==> Recorded(rec.cfg, old(rec.byIdent), rec.byIdent, identity, IfOk(r, id), now)
  {
    if reply.None? {
      return Err(Service);
    }
    r := ReadLimited(reply.value, MAX_BINARY_BYTES);
    if r.Err? {
      return;
    }
    var _ := Store.Record(rec, identity, [id], now);
  }

  // The lines of a list that carry foreign text.
  function ForeignLines(rows: seq<Entity>): seq<string> {
    if rows == [] then []
    else
      var before, line := ForeignLines(rows[..|rows| - 1]), rows[|rows| - 1].line;
      if IsBlank(line) then before else before + [line]
  }

  // listFromService and its siblings: the store is not even a parameter.
  method ListFromService(reply: Option<seq<Entity>>, boundary: Option<string>) returns (r: Result<seq<Entity>, Error>)
    ensures reply.None? ==> r == Err(Service)
    ensures reply.Some? ==>
              r == if boundary.None? && ForeignLines(reply.value) != [] then Err(Boundary) else Ok(reply.value)
  {
    if reply.None? {
      return Err(Service);
    }
    var entries: seq<Entity>, lines: seq<string> := [], [];
    for i := 0 to |reply.value|
      invariant entries == reply.value[..i]
      invariant NonBlank(lines) == ForeignLines(reply.value[..i])
    {
      assert reply.value[..i + 1][..i] == reply.value[..i];
      entries := entries + [reply.value[i]];
      if reply.value[i].line != "" {
        assert (lines + [reply.value[i].line])[..|lines|] == lines;
        lines := lines + [reply.value[i].line];
      }
    }
    assert reply.value[..|reply.value|] == reply.value;
    var result := WrapUntrustedLines(lines, boundary);
    if result == null {
      return Err(Boundary);
    }
    return Ok(entries);
  }

  function GetResult(reply: Option<Entity>, boundary: Option<string>): Result<Entity, Error> {
    if reply.None? then Err(Service)
    else if boundary.None? && !IsBlank(reply.value.line) then Err(Boundary)
    else Ok(reply.value)
  }

  // The store took in exactly the ID `recorded` for this caller, or nothing.
  ghost predicate Recorded(cfg: Settings, st: Buckets, st': Buckets, identity: Option<string>,
                           recorded: Option<string>, now: int) {
    if recorded.Some? then RecordStep(cfg, st, st', SubjectOf(identity), [recorded.value], now) else st' == st
  }

  // Whatever the service replies, no ID but the one the caller named gets into anybody's bucket:
  // not the ID field of the reply, where that differs, and none of the IDs nested in it.
  lemma OnlyTheNamedID(cfg: Settings, st: Buckets, st': Buckets, identity: Option<string>, recorded: Option<string>,
                       now: int, subject: string, other: string)
    requires Recorded(cfg, st, st', identity, recorded, now) && recorded != Some(other)
    ensures other in BucketOf(st', subject) ==>
              other in BucketOf(st, subject) && BucketOf(st', subject)[other] == BucketOf(st, subject)[other]
  {
  }

  // ---------------------------------------------------------------- tool calls

  datatype Request =
    | GetEntity(id: string, reply: Option<Entity>)       // the generic get tools
    | GetDocument(id: string, reply: Option<Entity>)
    | GetBox(id: string, reply: Option<Entity>)
    | GetDocumentPDF(id: string, mode: string, body: Option<Stream>)
    | ListLike(rows: Option<seq<Entity>>)                // list, search, sync, conversations, boxes

  // clientOk: clientFor finds a client for the caller.
  datatype ToolCall = ToolCall(request: Request, identity: Option<string>, clientOk: bool, boundary: Option<string>)

  predicate ValidMode(mode: string) {
    mode == "" || mode == "download" || mode == "print"
  }

  // The ID a call names as its parameter, if it is a single-entity get.
  function NamedID(request: Request): Option<string> {
    if request.ListLike? then None else Some(request.id)
  }

  // The service came back with what was asked for.
  predicate Answered(request: Request) {
    match request
    case GetEntity(_, reply) => reply.Some?
    case GetDocument(_, reply) => reply.Some?
    case GetBox(_, reply) => reply.Some?
    case GetDocumentPDF(_, _, body) => body.Some?
    case ListLike(rows) => rows.Some?
  }

  // What came back holds foreign text to be framed. That of a box never does.
  predicate HasForeignText(request: Request) {
    match request
    case GetEntity(_, reply) => reply.Some? && !IsBlank(reply.value.line)
    case GetDocument(_, reply) => reply.Some? && !IsBlank(reply.value.line)
    case ListLike(rows) => rows.Some? && exists i :: 0 <= i < |rows.value| && !IsBlank(rows.value[i].line)
    case _ => false
  }

  // How a call ends: with the first error that applies, or none.
  function Outcome(call: ToolCall): Option<Error> {
    var request := call.request;
    if !request.ListLike? && IsBlank(request.id) then Some(EmptyID)
    else if request.GetDocumentPDF? && !ValidMode(request.mode) then Some(BadMode)
    else if !call.clientOk then Some(NoClient)
    else if !Answered(request) then Some(Service)
    else if call.boundary.None? && HasForeignText(request) then Some(Boundary)
    else if request.GetDocumentPDF? && |request.body.value.data| > MAX_BINARY_BYTES then Some(TooLarge)
    else if request.GetDocumentPDF? && !request.body.value.ends then Some(ReadFailed)
    else None
  }

  // A call succeeds exactly if it names an ID, where it has to; asks for a known kind of PDF, where
  // it can; finds a client; gets its reply; can have the foreign text in it framed; and has the
  // whole of a PDF of at most 8 MiB.
  lemma SucceedsExactly(call: ToolCall)
    ensures
      var request := call.request;
      Outcome(call) == None <==>
        && (request.ListLike? || exists i :: 0 <= i < |request.id| && !IsSpace(request.id[i]))
        && (request.GetDocumentPDF? ==>
              && request.mode in ["", "download", "print"]
              && request.body.Some? && request.body.value.ends && |request.body.value.data| <= 8388608)
        && call.clientOk
        && (request.GetEntity? || request.GetDocument? ==>
              request.reply.Some? && (call.boundary.Some? || IsBlank(request.reply.value.line)))
        && (request.GetBox? ==> request.reply.Some?)
        && (request.ListLike? ==>
              && request.rows.Some?
              && (call.boundary.Some? ||
                  forall i :: 0 <= i < |request.rows.value| ==> IsBlank(request.rows.value[i].line)))
  {
  }

  // What the handler can tell before it looks for a client.
  predicate WellAsked(request: Request) {
    && (request.ListLike? || !IsBlank(request.id))
    && (request.GetDocumentPDF? ==> request.mode in ["", "download", "print"])
  }

  // Which error it is: the input is judged before a client is looked for, and that before anything
  // is fetched; a body is too large or cut short, never both.
  lemma ErrorsInOrder(call: ToolCall)
    ensures
      var request, error := call.request, Outcome(call);
      && (error == Some(EmptyID) <==> !request.ListLike? && IsBlank(request.id))
      && (error == Some(BadMode) <==>
            request.GetDocumentPDF? && !IsBlank(request.id) && request.mode !in ["", "download", "print"])
      && (error == Some(NoClient) <==> WellAsked(request) && !call.clientOk)
      && (error == Some(Service) <==> WellAsked(request) && call.clientOk && !Answered(request))
      && (error == Some(Boundary) <==>
            WellAsked(request) && call.clientOk && HasForeignText(request) && call.boundary.None?)
      && (error == Some(TooLarge) <==>
            && WellAsked(request) && call.clientOk && request.GetDocumentPDF? && request.body.Some?
            && |request.body.value.data| > 8388608)
      && (error == Some(ReadFailed) <==>
            && WellAsked(request) && call.clientOk && request.GetDocumentPDF? && request.body.Some?
            && |request.body.value.data| <= 8388608 && !request.body.value.ends)
  {
  }

  lemma {:induction false} ForeignLinesExist(rows: seq<Entity>)
    ensures ForeignLines(rows) != [] <==> exists i :: 0 <= i < |rows| && !IsBlank(rows[i].line)
  {
    if rows != [] {
      var n := |rows| - 1;
      ForeignLinesExist(rows[..n]);
      if i :| 0 <= i < n && !IsBlank(rows[i].line) {
        assert rows[..n][i] == rows[i];
      }
    }
  }

  // The handler: input checks before the client, the client before the service. It ends as the call's
  // data say, and takes in the ID that the call names exactly if it ends without an error.
  method Handle(call: ToolCall, rec: Store?, now: int) returns (error: Option<Error>)
    modifies rec
    ensures error == Outcome(call)
    ensures rec != null ==>
              Recorded(rec.cfg, old(rec.byIdent), rec.byIdent, call.identity,
                       if error.None? then NamedID(call.request) else None, now)
  {
    error := None;
    if !call.request.ListLike? && IsBlank(call.request.id) {
      return Some(EmptyID);
    }
    if call.request.GetDocumentPDF? && !ValidMode(call.request.mode) {
      return Some(BadMode);
    }
    if !call.clientOk {
      return Some(NoClient);
    }
    match call.request {
      case GetEntity(id, reply) =>
        var r := GetFromService(reply, call.boundary, call.identity, id, rec, now);
        if r.Err? { error := Some(r.error); }
      case GetDocument(id, reply) =>
        var r := DocumentFromService(reply, call.boundary, call.identity, id, rec, now);
        if r.Err? { error := Some(r.error); }
      case GetBox(id, reply) =>
        var r := BoxFromService(reply, call.identity, id, rec, now);
        if r.Err? { error := Some(r.error); }
      case GetDocumentPDF(id, _, body) =>
        var r := DocumentPDFFromService(body, call.identity, id, rec, now);
        if r.Err? { error := Some(r.error); }
      case ListLike(rows) =>
        if rows.Some? { ForeignLinesExist(rows.value); }
        var r := ListFromService(rows, call.boundary);
        if r.Err? { error := Some(r.error); }
    }
  }

  // ---------------------------------------------------------------- runs of tool calls

  // What happened: a tool call that ended with or without an error, or a Check.
  datatype Event =
    | Tool(call: ToolCall, error: Option<Error>, now: int)
    | Checked(subject: string, id: string, now: int, ok: bool)

  // What a run of tool calls and questions does to the store.
  function OpOf(e: Event): seq<Op> {
    match e
    case Checked(subject, id, now, _) => [Check(subject, id, now)]
    case Tool(call, error, now) =>
      if error.None? && NamedID(call.request).Some?
      then [Record(SubjectOf(call.identity), [NamedID(call.request).value], now)] else []
  }

  function StoreOps(events: seq<Event>): seq<Op> {
    if events == [] then [] else StoreOps(events[..|events| - 1]) + OpOf(events[|events| - 1])
  }

  // A completed single-entity get by this subject, naming this ID, at most ttl before now.
  predicate Fetched(cfg: Settings, e: Event, subject: string, id: string, now: int) {
    && e.Tool? && e.error.None? && e.call.identity == Some(subject) && NamedID(e.call.request) == Some(id)
    && 0 <= now - e.now <= cfg.ttl
  }

  ghost predicate EventsInOrder(events: seq<Event>, now: int) {
    && (forall i, j :: 0 <= i < j < |events| ==> events[i].now <= events[j].now)
    && (forall i :: 0 <= i < |events| ==> events[i].now <= now)
  }

  lemma {:induction false} OpsInOrder(events: seq<Event>, now: int)
    requires EventsInOrder(events, now)
    ensures InOrder(StoreOps(events), now)
  {
    if events != [] {
      var n := |events| - 1;
      OpsInOrder(events[..n], events[n].now);
    }
  }

  // A Record operation stems from a completed single-entity get by that caller, naming that ID.
  lemma {:induction false} OpsFromGets(events: seq<Event>, k: nat) returns (i: nat)
    requires k < |StoreOps(events)| && StoreOps(events)[k].Record?
    ensures i < |events| && events[i].Tool? && events[i].error.None? && NamedID(events[i].call.request).Some?
    ensures StoreOps(events)[k] ==
            Record(SubjectOf(events[i].call.identity), [NamedID(events[i].call.request).value], events[i].now)
  {
    var n := |events| - 1;
    if k < |StoreOps(events[..n])| {
      i := OpsFromGets(events[..n], k);
    } else {
      i := n;
    }
  }

  // Over every run of tool calls and checks: if an ID passes Check for a subject, that same
  // subject completed, at most ttl ago, a single-entity get that named exactly this ID. An ID
  // seen only in a list, a search, a sync or nested in another entity never passes.
  lemma {:induction false} AcceptedIDsWereFetched(cfg: Settings, events: seq<Event>, states: seq<Buckets>,
                                                  subject: string, id: string, now: int)
    returns (i: nat)
    requires EventsInOrder(events, now) && IsRun(cfg, StoreOps(events), states)
    requires CheckAnswer(cfg, states[|StoreOps(events)|], subject, id, now)
    ensures i < |events| && Fetched(cfg, events[i], subject, id, now)
  {
    var ops := StoreOps(events);
    OpsInOrder(events, now);
    CheckRefinesHistory(cfg, ops, states, subject, id, now);
    var k := RecordedByCall(ops, subject, id);
    i := OpsFromGets(events, k);
    assert ops[k].ids == [NamedID(events[i].call.request).value];
  }

  // What comes in: a tool call, or a question to the store.
  datatype Input =
    | Call(call: ToolCall, now: int)
    | Ask(identity: Option<string>, id: string, now: int)

  ghost predicate InputsInOrder(inputs: seq<Input>) {
    forall i, j :: 0 <= i < j < |inputs| ==> inputs[i].now <= inputs[j].now
  }

  // An event is what became of an input; a tool call ends as its data say.
  predicate Becomes(input: Input, e: Event) {
    match input
    case Call(call, now) => e.Tool? && e.call == call && e.error == Outcome(call) && e.now == now
    case Ask(identity, id, now) => e.Checked? && e.subject == SubjectOf(identity) && e.id == id && e.now == now
  }

  // Every ID accepted was fetched before.
  ghost predicate Provenance(cfg: Settings, events: seq<Event>) {
    forall k :: 0 <= k < |events| && events[k].Checked? && events[k].ok ==>
      exists i :: 0 <= i < k && Fetched(cfg, events[i], events[k].subject, events[k].id, events[k].now)
  }

  lemma StoreOpsMore(events: seq<Event>, e: Event)
    ensures StoreOps(events + [e]) == StoreOps(events) + OpOf(e)
  {
    assert (events + [e])[..|events|] == events;
  }

  // The store's step of one event, as the run of operations sees it.
  lemma EventRuns(cfg: Settings, events: seq<Event>, states: seq<Buckets>, e: Event,
                  st: Buckets) returns (states': seq<Buckets>)
    requires IsRun(cfg, StoreOps(events), states)
    requires
      var last := states[|StoreOps(events)|];
      if OpOf(e) == [] then st == last else OpStep(cfg, last, st, OpOf(e)[0])
    ensures IsRun(cfg, StoreOps(events + [e]), states') && states'[|StoreOps(events + [e])|] == st
    ensures states <= states'
  {
    StoreOpsMore(events, e);
    if OpOf(e) == [] {
      states' := states;
    } else {
      ExtendRun(cfg, StoreOps(events), states, OpOf(e)[0], st);
      states' := states + [st];
    }
  }

  lemma ProvenanceMore(cfg: Settings, events: seq<Event>, states: seq<Buckets>, e: Event)
    requires Provenance(cfg, events) && EventsInOrder(events, e.now) && IsRun(cfg, StoreOps(events), states)
    requires e.Checked? && e.ok ==> CheckAnswer(cfg, states[|StoreOps(events)|], e.subject, e.id, e.now)
    ensures Provenance(cfg, events + [e])
  {
    var more := events + [e];
    forall k | 0 <= k < |more| && more[k].Checked? && more[k].ok
      ensures exists i :: 0 <= i < k && Fetched(cfg, more[i], more[k].subject, more[k].id, more[k].now)
    {
      if k < |events| {
        assert more[k] == events[k];
        var i :| 0 <= i < k && Fetched(cfg, events[i], events[k].subject, events[k].id, events[k].now);
        assert more[i] == events[i];
      } else {
        var i := AcceptedIDsWereFetched(cfg, events, states, e.subject, e.id, e.now);
        assert more[i] == events[i] && Fetched(cfg, more[i], e.subject, e.id, e.now);
      }
    }
  }

  // One input through its handler or through Check.
  method Step(input: Input, rec: Store) returns (e: Event)
    modifies rec
    ensures Becomes(input, e)
    ensures
      if OpOf(e) == [] then rec.byIdent == old(rec.byIdent)
      else OpStep(rec.cfg, old(rec.byIdent), rec.byIdent, OpOf(e)[0])
    ensures e.Checked? ==> (e.ok <==> CheckAnswer(rec.cfg, old(rec.byIdent), e.subject, e.id, e.now))
  {
    match input {
      case Call(call, now) =>
        var error := Handle(call, rec, now);
        e := Tool(call, error, now);
      case Ask(identity, id, now) =>
        var ok := Store.Check(rec, identity, id, now);
        e := Checked(SubjectOf(identity), id, now, ok);
    }
  }

  lemma TimesCarryOver(inputs: seq<Input>, events: seq<Event>, e: Event)
    requires InputsInOrder(inputs) && |events| < |inputs| && Becomes(inputs[|events|], e)
    requires forall k :: 0 <= k < |events| ==> Becomes(inputs[k], events[k])
    ensures EventsInOrder(events, e.now)
  {
    assert forall k :: 0 <= k < |events| ==> events[k].now == inputs[k].now;
  }

  lemma {:induction false} FewerOps(events: seq<Event>, k: nat)
    requires k <= |events|
    ensures |StoreOps(events[..k])| <= |StoreOps(events)|
    decreases |events|
  {
    if k < |events| {
      FewerOps(events[..|events| - 1], k);
      assert events[..|events| - 1][..k] == events[..k];
    } else {
      assert events[..k] == events;
    }
  }

  // Every question is answered by the store as the events before it left it.
  ghost predicate Truthful(cfg: Settings, events: seq<Event>, states: seq<Buckets>) {
    forall k :: 0 <= k < |events| && events[k].Checked? ==>
      var n := |StoreOps(events[..k])|;
      n < |states| &&
      (events[k].ok <==> CheckAnswer(cfg, states[n], events[k].subject, events[k].id, events[k].now))
  }

  lemma TruthfulMore(cfg: Settings, events: seq<Event>, states: seq<Buckets>, e: Event, states': seq<Buckets>)
    requires Truthful(cfg, events, states) && states <= states' && |states| == |StoreOps(events)| + 1
    requires e.Checked? ==> (e.ok <==> CheckAnswer(cfg, states[|StoreOps(events)|], e.subject, e.id, e.now))
    ensures Truthful(cfg, events + [e], states')
  {
    var more := events + [e];
    forall k | 0 <= k < |more| && more[k].Checked?
      ensures
        var n := |StoreOps(more[..k])|;
        n < |states'| && (more[k].ok <==> CheckAnswer(cfg, states'[n], more[k].subject, more[k].id, more[k].now))
    {
      assert more[..k] == events[..k];
      FewerOps(events, k);
      if k == |events| {
        assert events[..k] == events;
      }
    }
  }

  // The inputs so far have become these events, in a run of the store that ends in st.
  ghost predicate Served(cfg: Settings, inputs: seq<Input>, events: seq<Event>, states: seq<Buckets>, st: Buckets) {
    && |events| <= |inputs| && (forall k :: 0 <= k < |events| ==> Becomes(inputs[k], events[k]))
    && IsRun(cfg, StoreOps(events), states) && states[|StoreOps(events)|] == st
    && Truthful(cfg, events, states) && Provenance(cfg, events)
  }

  lemma ServedMore(cfg: Settings, inputs: seq<Input>, events: seq<Event>, states: seq<Buckets>, st: Buckets, e: Event,
                   st': Buckets)
    returns (states': seq<Buckets>)
    requires InputsInOrder(inputs) && Served(cfg, inputs, events, states, st) && |events| < |inputs|
    requires Becomes(inputs[|events|], e)
    requires if OpOf(e) == [] then st' == st else OpStep(cfg, st, st', OpOf(e)[0])
    requires e.Checked? ==> (e.ok <==> CheckAnswer(cfg, st, e.subject, e.id, e.now))
    ensures Served(cfg, inputs, events + [e], states', st')
  {
    TimesCarryOver(inputs, events, e);
    ProvenanceMore(cfg, events, states, e);
    states' := EventRuns(cfg, events, states, e, st');
    TruthfulMore(cfg, events, states, e, states');
  }

  // Any list of tool calls and questions, one after the other on an empty store: the store goes
  // through a run of the operations that StoreOps reads off the events, every call ends as its data
  // say, every question is answered by the store as it then is, and every ID it accepts was fetched
  // before by the subject that is told so.
  method Serve(inputs: seq<Input>, rec: Store) returns (events: seq<Event>)
    requires InputsInOrder(inputs) && rec.byIdent == map[]
    modifies rec
    ensures |events| == |inputs| && forall k :: 0 <= k < |inputs| ==> Becomes(inputs[k], events[k])
    ensures exists states ::
              && IsRun(rec.cfg, StoreOps(events), states) && states[|StoreOps(events)|] == rec.byIdent
              && Truthful(rec.cfg, events, states)
    ensures Provenance(rec.cfg, events)
  {
    events := [];
    ghost var states: seq<Buckets> := [map[]];
    for n := 0 to |inputs|
      invariant |events| == n && Served(rec.cfg, inputs, events, states, rec.byIdent)
    {
      ghost var before := rec.byIdent;
      var e := Step(inputs[n], rec);
      states := ServedMore(rec.cfg, inputs, events, states, before, e, rec.byIdent);
      events := events + [e];
    }
  }

  // The way forward the refusal names: the ID of a get completed later than everything before
  // it passes for the next ttl.
  lemma FetchedIDPasses(cfg: Settings, events: seq<Event>, states: seq<Buckets>, subject: string, id: string, now: int)
    requires events != [] && EventsInOrder(events, now) && IsRun(cfg, StoreOps(events), states)
    requires cfg.ttl > 0 && cfg.maxPerIdentity > 0 && subject != "" && id != ""
    requires
      var e := events[|events| - 1];
      && e.Tool? && e.error.None? && e.call.identity == Some(subject) && NamedID(e.call.request) == Some(id)
      && now - e.now <= cfg.ttl && forall i :: 0 <= i < |events| - 1 ==> events[i].now < e.now
    ensures CheckAnswer(cfg, states[|StoreOps(events)|], subject, id, now)
  {
    var init, t := events[..|events| - 1], events[|events| - 1].now;
    OpsInOrder(events, now);
    EarlierThan(init, subject, t);
    GetIsLast(events, subject, id);
    NewestPasses(cfg, StoreOps(init), states, subject, id, t, now);
  }

  lemma EarlierThan(events: seq<Event>, subject: string, t: int)
    requires EventsInOrder(events, t - 1)
    ensures forall j :: j in LastRecorded(StoreOps(events), subject) ==> LastRecorded(StoreOps(events), subject)[j] < t
  {
    OpsInOrder(events, t - 1);
    TimesBounded(StoreOps(events), subject, t - 1);
  }

  lemma GetIsLast(events: seq<Event>, subject: string, id: string)
    requires events != [] && events[|events| - 1].Tool? && events[|events| - 1].error.None?
    requires events[|events| - 1].call.identity == Some(subject)
    requires NamedID(events[|events| - 1].call.request) == Some(id)
    ensures StoreOps(events) == StoreOps(events[..|events| - 1]) + [Record(subject, [id], events[|events| - 1].now)]
  {
  }

  lemma NewestPasses(cfg: Settings, before: seq<Op>, states: seq<Buckets>, subject: string, id: string, t: int,
                     now: int)
    requires cfg.ttl > 0 && cfg.maxPerIdentity > 0 && subject != "" && id != "" && now - t <= cfg.ttl
    requires forall j :: j in LastRecorded(before, subject) ==> LastRecorded(before, subject)[j] < t
    requires
      var ops := before + [Record(subject, [id], t)];
      IsRun(cfg, ops, states) && InOrder(ops, now)
    ensures CheckAnswer(cfg, states[|before| + 1], subject, id, now)
  {
    var ops := before + [Record(subject, [id], t)];
    CheckRefinesHistory(cfg, ops, states, subject, id, now);
    assert ops[..|before|] == before;
    var h := LastRecorded(ops, subject);
    assert h == Stamped(LastRecorded(before, subject), [id], t);
    assert id in Named([id]) && Named([id]) == {id};
    assert AtOrAfter(h, id) == {};
  }

  lemma {:induction false} TimesBounded(ops: seq<Op>, subject: string, now: int)
    requires InOrder(ops, now)
    ensures forall id :: id in LastRecorded(ops, subject) ==> LastRecorded(ops, subject)[id] <= now
  {
    if ops != [] {
      TimesBounded(ops[..|ops| - 1], subject, now);
    }
  }
}
