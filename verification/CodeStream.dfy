/** The exec handler's pump from a kernel's output and reply to the event stream: `codeWriter.event`
    and `streamSSE`, and what the client makes of a whole execution. */
module CodeStream {
  import opened Wrappers
  import opened Encoding
  import opened WireMessage
  import opened Sse

  /** What `select` delivers in one round of the loop. */
  datatype Outcome =
    | Cancelled(reason: string)
    | Iopub(m: Message)
    | IopubClosed
    | Reply(m: Message)
    | ShellClosed

  /** JSON on the writing side. `body` decodes a message's content and encodes what is passed on; None
      is an encoding error. `state` is a status message's execution state. The rest is what a message says
      to a client: a stream message its text, an error itself, and, by message type, a result, a display or a
      reply, if it is readable as one. */
  datatype Relay = Relay(
    body: (string, Bytes) -> Option<string>,
    state: Bytes -> string,
    text: Bytes -> StreamText,
    error: Bytes -> CodeError,
    result: (string, Bytes) -> Option<ResultPayload>,
    display: (string, Bytes) -> Option<Json>,
    reply: (string, Bytes) -> Option<ReplyPayload>,
    cancelled: string -> string,
    done: nat -> string)

  /** How the client is told: anything unknown keeps its own name. */
  function EventName(msgType: string): string {
    if msgType == "execute_result" then "result"
    else if msgType == "display_data" then "display"
    else msgType
  }

  /** No event when the payload does not encode. */
  function Told(name: string, body: Option<string>): seq<Event> {
    match body
    case None => []
    case Some(b) => [Event(name, b)]
  }

  function Forwarded(relay: Relay, o: Outcome): seq<Event> {
    match o
    case Cancelled(reason) => Told("error", Some(relay.cancelled(reason)))
    case Iopub(m) => Told(EventName(m.header.msgType), relay.body(m.header.msgType, m.content))
    case Reply(m) => Told("reply", relay.body("execute_reply", m.content))
    case _ => Told("", None)
  }

  function AllForwarded(relay: Relay, outcomes: seq<Outcome>): seq<Event> {
    if outcomes == [] then []
    else AllForwarded(relay, outcomes[..|outcomes| - 1]) + Forwarded(relay, outcomes[|outcomes| - 1])
  }

  /** The kernel is through with this request: its own idle status, or the end of its output. */
  predicate IsIdle(relay: Relay, msgId: string, o: Outcome) {
    match o
    case Iopub(m) => m.header.msgType == "status" && relay.state(m.content) == "idle" && m.parentHeader.msgId == msgId
    case IopubClosed => true
    case _ => false
  }

  ghost predicate SawIdle(relay: Relay, msgId: string, outcomes: seq<Outcome>) {
    exists o :: o in outcomes && IsIdle(relay, msgId, o)
  }

  ghost predicate SawReply(outcomes: seq<Outcome>) {
    exists o :: o in outcomes && o.Reply?
  }

  ghost predicate Over(relay: Relay, msgId: string, outcomes: seq<Outcome>) {
    SawIdle(relay, msgId, outcomes) && SawReply(outcomes)
  }

  ghost predicate Uncancelled(outcomes: seq<Outcome>) {
    forall o :: o in outcomes ==> !o.Cancelled?
  }

  /** An execution is over once two things were seen, in whatever order: the idle status of this very request,
      or the end of the kernel's output, and a reply. */
  lemma OverIff(relay: Relay, msgId: string, outcomes: seq<Outcome>)
    ensures Over(relay, msgId, outcomes) <==>
            && (IopubClosed in outcomes
                || exists m :: Iopub(m) in outcomes && m.header.msgType == "status" && relay.state(m.content) == "idle"
                               && m.parentHeader.msgId == msgId)
            && exists m :: Reply(m) in outcomes
  {
    if Over(relay, msgId, outcomes) {
      var o :| o in outcomes && IsIdle(relay, msgId, o);
      var p :| p in outcomes && p.Reply?;
      assert o.Iopub? ==> Iopub(o.m) in outcomes;
      assert Reply(p.m) in outcomes;
    }
    if m :| Iopub(m) in outcomes && m.header.msgType == "status" && relay.state(m.content) == "idle" && m.parentHeader.msgId == msgId {
      assert IsIdle(relay, msgId, Iopub(m));
    }
    assert IsIdle(relay, msgId, IopubClosed);
    if m :| Reply(m) in outcomes {
      assert Reply(m).Reply?;
    }
  }

  lemma SawStep(relay: Relay, msgId: string, outcomes: seq<Outcome>, used: nat)
    requires used < |outcomes|
    ensures SawIdle(relay, msgId, outcomes[..used + 1]) <==> SawIdle(relay, msgId, outcomes[..used]) || IsIdle(relay, msgId, outcomes[used])
    ensures SawReply(outcomes[..used + 1]) <==> SawReply(outcomes[..used]) || outcomes[used].Reply?
    ensures Uncancelled(outcomes[..used + 1]) <==> Uncancelled(outcomes[..used]) && !outcomes[used].Cancelled?
  {
    var before, o := outcomes[..used], outcomes[used];
    assert outcomes[..used + 1] == before + [o];
    assert o in before + [o] && forall x :: x in before ==> x in before + [o];
  }

  lemma {:induction false} WrittenSplit(a: seq<Event>, b: seq<Event>)
    ensures Written(a + b) == Written(a) + Written(b)
  {
    hide Block;
    if b == [] {
      assert a + b == a;
    } else {
      var n := |b| - 1;
      assert (a + b)[..|a| + n] == a + b[..n];
      WrittenSplit(a, b[..n]);
    }
  }

  lemma ForwardedStep(relay: Relay, outcomes: seq<Outcome>, used: nat)
    requires used < |outcomes|
    ensures Written(AllForwarded(relay, outcomes[..used + 1])) ==
            Written(AllForwarded(relay, outcomes[..used])) + Written(Forwarded(relay, outcomes[used]))
  {
    assert outcomes[..used + 1][..used] == outcomes[..used];
    WrittenSplit(AllForwarded(relay, outcomes[..used]), Forwarded(relay, outcomes[used]));
  }

  lemma WrittenOne(name: string, body: Option<string>)
    ensures Written(Told(name, body)) ==
            if body.None? then "" else "event: " + name + "\n" + "data: " + body.value + "\n\n"
  {
    if body.Some? {
      var events := Told(name, body);
      assert events[..0] == [] && Written(events) == Written([]) + Block(events[0]);
    }
  }

  /** What a client takes of `sent` if it is gone after `limit` characters; None stays to the end. */
  function Taken(sent: string, limit: Option<nat>): string {
    if limit.Some? && limit.value < |sent| then sent[..limit.value] else sent
  }

  /** The response writer. `sent` is what was handed to it, `wire` what the client took. */
  class CodeWriter {
    const limit: Option<nat>
    var wire: string
    ghost var sent: string

    ghost predicate Valid()
      reads this
    {
      wire == Taken(sent, limit)
    }

    constructor (limit: Option<nat>)
      ensures Valid() && sent == "" && this.limit == limit
    {
      this.limit := limit;
      wire, sent := "", "";
    }

    /** Writes one event, or nothing when the payload does not encode. The client may be gone: then it takes
        what it can of the event, nothing of any later one, and the write fails. */
    method Emit(name: string, body: Option<string>) returns (ok: bool)
      requires Valid()
      modifies this
      ensures Valid() && sent == old(sent) + Written(Told(name, body))
      ensures ok <==> body.Some? && wire == old(wire) + Written(Told(name, body))
    {
      WrittenOne(name, body);
      if body.None? {
        return false;
      }
      var text := "event: " + name + "\n" + "data: " + body.value + "\n\n";
      ghost var was := sent;
      sent := sent + text;
      if limit.Some? && limit.value < |wire| + |text| {
        var room := if |wire| <= limit.value then limit.value - |wire| else 0;
        wire := wire + text[..room];
        return false;
      }
      wire := wire + text;
      ok := true;
    }
  }

  datatype Ending = Finished | Aborted | Waiting

  /** Forwards every outcome in order, to a client that may be gone. It returns uncancelled only after both the idle status and the
      reply were seen, and then at once; `Waiting` is a loop still waiting for more. */
  method StreamSse(relay: Relay, sse: CodeWriter, msgId: string, outcomes: seq<Outcome>) returns (used: nat, ending: Ending)
    requires sse.Valid()
    modifies sse
    ensures used <= |outcomes| && sse.Valid()
    ensures sse.sent == old(sse.sent) + Written(AllForwarded(relay, outcomes[..used]))
    ensures forall k :: 0 <= k < used ==> !Over(relay, msgId, outcomes[..k])
    ensures ending == Finished <==> Over(relay, msgId, outcomes[..used]) && Uncancelled(outcomes[..used])
    ensures ending == Aborted <==> used > 0 && outcomes[used - 1].Cancelled?
    ensures ending == Waiting ==> used == |outcomes| && Uncancelled(outcomes)
  {
    hide Written, AllForwarded, SawIdle, SawReply, Uncancelled, EventName, Taken;
    NothingSeen(relay, msgId);
    used, ending := 0, Waiting;
    var idle, gotReply := false, false;
    while !idle || !gotReply
      invariant used <= |outcomes| && sse.Valid()
      invariant sse.sent == old(sse.sent) + Written(AllForwarded(relay, outcomes[..used]))
      invariant idle == SawIdle(relay, msgId, outcomes[..used]) && gotReply == SawReply(outcomes[..used])
      invariant forall k :: 0 <= k < used ==> !Over(relay, msgId, outcomes[..k])
      invariant Uncancelled(outcomes[..used]) && (used > 0 ==> !outcomes[used - 1].Cancelled?)
      decreases |outcomes| - used
    {
      if used == |outcomes| {
        assert outcomes[..used] == outcomes;
        return;
      }
      var o := outcomes[used];
      ForwardedStep(relay, outcomes, used);
      SawStep(relay, msgId, outcomes, used);
      used := used + 1;
      match o {
        case Cancelled(reason) =>
          var _ := sse.Emit("error", Some(relay.cancelled(reason)));
          return used, Aborted;
        case IopubClosed =>
          idle := true;
        case Iopub(m) =>
          var _ := sse.Emit(EventName(m.header.msgType), relay.body(m.header.msgType, m.content));
          if m.header.msgType == "status" && relay.state(m.content) == "idle" && m.parentHeader.msgId == msgId {
            idle := true;
          }
        case ShellClosed =>
        case Reply(m) =>
          var _ := sse.Emit("reply", relay.body("execute_reply", m.content));
          gotReply := true;
      }
    }
    ending := Finished;
  }

  lemma NothingSeen(relay: Relay, msgId: string)
    ensures !SawIdle(relay, msgId, []) && !SawReply([]) && Uncancelled([]) && Written(AllForwarded(relay, [])) == ""
    ensures Written([]) == ""
  {}

  /** Everything the handler writes for one execution: the stream, then the drop count. */
  function Response(relay: Relay, outcomes: seq<Outcome>, dropped: nat): seq<Event> {
    AllForwarded(relay, outcomes) + Told("done", Some(relay.done(dropped)))
  }

  /** The tail of `CodeExecuteHandler`, to a client that is gone after `limit` characters, if at all; `dropped`
      is what closing the subscription returns. */
  method Execute(relay: Relay, msgId: string, outcomes: seq<Outcome>, dropped: nat, limit: Option<nat>)
    returns (wire: string, used: nat, ending: Ending)
    ensures used <= |outcomes|
    ensures ending != Waiting ==> wire == Taken(Written(Response(relay, outcomes[..used], dropped)), limit)
    ensures ending == Finished ==> Over(relay, msgId, outcomes[..used])
  {
    hide Written, AllForwarded, SawIdle, SawReply, Told, Over, Uncancelled;
    var sse := new CodeWriter(limit);
    used, ending := StreamSse(relay, sse, msgId, outcomes);
    if ending != Waiting {
      var _ := sse.Emit("done", Some(relay.done(dropped)));
      WrittenSplit(AllForwarded(relay, outcomes[..used]), Told("done", Some(relay.done(dropped))));
    }
    wire := sse.wire;
  }

  // ---- what the client gets to see ----------------------------------------------------------

  /** The text of an outcome that goes to standard output, or to standard error. */
  function Prints(relay: Relay, stderr: bool): Outcome -> Option<string> {
    (o: Outcome) =>
      if o.Iopub? && o.m.header.msgType == "stream" && (relay.text(o.m.content).name == "stderr") == stderr
      then Some(relay.text(o.m.content).text) else None
  }

  /** Kernels send results as `execute_result`; an unknown message called `result` is passed on as one too. */
  predicate SaysResult(kind: string) {
    kind == "execute_result" || kind == "result"
  }

  /** And displays as `display_data`, or else as `display`. */
  predicate SaysDisplay(kind: string) {
    kind == "display_data" || kind == "display"
  }

  function ResultOf(relay: Relay, o: Outcome): Option<ResultPayload> {
    if o.Iopub? && SaysResult(o.m.header.msgType) then relay.result(o.m.header.msgType, o.m.content) else None
  }

  function ReplyOf(relay: Relay, o: Outcome): Option<ReplyPayload> {
    match o
    case Reply(m) => relay.reply("execute_reply", m.content)
    case Iopub(m) => if m.header.msgType == "reply" then relay.reply("reply", m.content) else None
    case _ => None
  }

  function Returns(relay: Relay): Outcome -> Option<Option<Json>> {
    (o: Outcome) => match ResultOf(relay, o) case None => None case Some(r) => Some(r.data)
  }

  function Shows(relay: Relay): Outcome -> Option<Json> {
    (o: Outcome) =>
      if o.Iopub? && SaysDisplay(o.m.header.msgType) then relay.display(o.m.header.msgType, o.m.content) else None
  }

  /** The kernel's errors, and the cancellation of the request. */
  function Raises(relay: Relay): Outcome -> Option<CodeError> {
    (o: Outcome) =>
      match o
      case Cancelled(reason) => Some(CodeError("ContextCancelled", reason, []))
      case Iopub(m) => if m.header.msgType == "error" then Some(relay.error(m.content)) else None
      case _ => None
  }

  function Ends(relay: Relay): Outcome -> Option<string> {
    (o: Outcome) => match ReplyOf(relay, o) case None => None case Some(r) => Some(r.status)
  }

  function CountOf(result: Option<ResultPayload>, reply: Option<ReplyPayload>): Option<int> {
    var count := if result.Some? then result.value.executionCount else if reply.Some? then reply.value.executionCount else 0;
    if count > 0 then Some(count) else None
  }

  function Numbers(relay: Relay): Outcome -> Option<int> {
    (o: Outcome) => CountOf(ResultOf(relay, o), ReplyOf(relay, o))
  }

  /** What the kernel's messages say, put together: everything printed and displayed in order, and the last
      result, error, status and positive count. */
  function KernelSaid(relay: Relay, outcomes: seq<Outcome>, dropped: nat): CodeExecResult {
    var errors := Collect(Raises(relay), outcomes);
    CodeExecResult(
      Concatenated(Collect(Prints(relay, false), outcomes)),
      Concatenated(Collect(Prints(relay, true), outcomes)),
      LastOr(Collect(Returns(relay), outcomes), None),
      Collect(Shows(relay), outcomes),
      if errors == [] then None else Some(LastOr(errors, CodeError("", "", []))),
      LastOr(Collect(Ends(relay), outcomes), ""),
      LastOr(Collect(Numbers(relay), outcomes), 0),
      dropped)
  }

  /** The client reads a payload, if one was written, as what the message says. */
  predicate Reads<T(==)>(decode: string -> Option<T>, body: Option<string>, said: Option<T>) {
    said == if body.None? then None else decode(body.value)
  }

  ghost predicate CodecAgrees(dec: Decoders, relay: Relay, o: Outcome) {
    match o
    case Cancelled(reason) => dec.error(relay.cancelled(reason)) == Some(CodeError("ContextCancelled", reason, []))
    case Reply(m) => Reads(dec.reply, relay.body("execute_reply", m.content), relay.reply("execute_reply", m.content))
    case Iopub(m) =>
      var kind, body := m.header.msgType, relay.body(m.header.msgType, m.content);
      && (kind == "stream" ==> Reads(dec.stream, body, Some(relay.text(m.content))))
      && (kind == "error" ==> Reads(dec.error, body, Some(relay.error(m.content))))
      && (SaysResult(kind) ==> Reads(dec.result, body, relay.result(kind, m.content)))
      && (SaysDisplay(kind) ==> Reads(dec.display, body, relay.display(kind, m.content)))
      && (kind == "reply" ==> Reads(dec.reply, body, relay.reply(kind, m.content)))
    case _ => true
  }

  function AsSeq<T>(v: Option<T>): seq<T> {
    match v
    case None => []
    case Some(x) => [x]
  }

  /** What `f` finds in the one event, if any, an outcome becomes. */
  function InEvent<T>(f: Event -> Option<T>, relay: Relay, o: Outcome): Option<T> {
    match o
    case Cancelled(reason) => f(Event("error", relay.cancelled(reason)))
    case Iopub(m) =>
      var body := relay.body(m.header.msgType, m.content);
      if body.None? then None else f(Event(EventName(m.header.msgType), body.value))
    case Reply(m) =>
      var body := relay.body("execute_reply", m.content);
      if body.None? then None else f(Event("reply", body.value))
    case _ => None
  }

  lemma CollectOne<T>(f: Event -> Option<T>, name: string, body: Option<string>)
    ensures Collect(f, Told(name, body)) == if body.None? then [] else AsSeq(f(Event(name, body.value)))
  {
    if body.Some? {
      assert Told(name, body)[..0] == [];
    }
  }

  lemma CollectForwarded<T>(f: Event -> Option<T>, relay: Relay, o: Outcome)
    ensures Collect(f, Forwarded(relay, o)) == AsSeq(InEvent(f, relay, o))
  {
    hide Collect, Told, EventName;
    match o {
      case Cancelled(reason) => CollectOne(f, "error", Some(relay.cancelled(reason)));
      case Iopub(m) => CollectOne(f, EventName(m.header.msgType), relay.body(m.header.msgType, m.content));
      case Reply(m) => CollectOne(f, "reply", relay.body("execute_reply", m.content));
      case _ => CollectOne(f, "", None);
    }
  }

  /** If each outcome's event says to `f` what the outcome says to `g`, so do all. */
  lemma {:induction false} CollectedAlike<T>(relay: Relay, f: Event -> Option<T>, g: Outcome -> Option<T>, outcomes: seq<Outcome>)
    requires forall o :: o in outcomes ==> InEvent(f, relay, o) == g(o)
    ensures Collect(f, AllForwarded(relay, outcomes)) == Collect(g, outcomes)
  {
    hide InEvent, Forwarded;
    if outcomes != [] {
      var before, o := outcomes[..|outcomes| - 1], outcomes[|outcomes| - 1];
      CollectedAlike(relay, f, g, before);
      CollectJoin(f, AllForwarded(relay, before), Forwarded(relay, o));
      CollectForwarded(f, relay, o);
    }
  }

  /** Each kind of event comes from the messages of its kind and says what they say. */
  lemma SaidAlike(dec: Decoders, relay: Relay, o: Outcome, stderr: bool)
    requires CodecAgrees(dec, relay, o)
    ensures InEvent(Text(dec, stderr), relay, o) == Prints(relay, stderr)(o)
    ensures InEvent(ResultIn(dec), relay, o) == Returns(relay)(o)
    ensures InEvent(DisplayIn(dec), relay, o) == Shows(relay)(o)
    ensures InEvent(ErrorIn(dec), relay, o) == Raises(relay)(o)
    ensures InEvent(StatusIn(dec), relay, o) == Ends(relay)(o)
    ensures InEvent(CountIn(dec), relay, o) == Numbers(relay)(o)
  {}

  lemma EventsSayWhatWasSaid(dec: Decoders, relay: Relay, outcomes: seq<Outcome>)
    requires forall o :: o in outcomes ==> CodecAgrees(dec, relay, o)
    ensures var events := AllForwarded(relay, outcomes);
            && (forall stderr :: Collect(Text(dec, stderr), events) == Collect(Prints(relay, stderr), outcomes))
            && Collect(ResultIn(dec), events) == Collect(Returns(relay), outcomes)
            && Collect(DisplayIn(dec), events) == Collect(Shows(relay), outcomes)
            && Collect(ErrorIn(dec), events) == Collect(Raises(relay), outcomes)
            && Collect(StatusIn(dec), events) == Collect(Ends(relay), outcomes)
            && Collect(CountIn(dec), events) == Collect(Numbers(relay), outcomes)
  {
    hide *;
    forall o | o in outcomes
      ensures forall stderr :: InEvent(Text(dec, stderr), relay, o) == Prints(relay, stderr)(o)
      ensures InEvent(ResultIn(dec), relay, o) == Returns(relay)(o)
      ensures InEvent(DisplayIn(dec), relay, o) == Shows(relay)(o)
      ensures InEvent(ErrorIn(dec), relay, o) == Raises(relay)(o)
      ensures InEvent(StatusIn(dec), relay, o) == Ends(relay)(o)
      ensures InEvent(CountIn(dec), relay, o) == Numbers(relay)(o)
    {
      SaidAlike(dec, relay, o, false);
      SaidAlike(dec, relay, o, true);
    }
    forall stderr
      ensures Collect(Text(dec, stderr), AllForwarded(relay, outcomes)) == Collect(Prints(relay, stderr), outcomes)
    {
      CollectedAlike(relay, Text(dec, stderr), Prints(relay, stderr), outcomes);
    }
    CollectedAlike(relay, ResultIn(dec), Returns(relay), outcomes);
    CollectedAlike(relay, DisplayIn(dec), Shows(relay), outcomes);
    CollectedAlike(relay, ErrorIn(dec), Raises(relay), outcomes);
    CollectedAlike(relay, StatusIn(dec), Ends(relay), outcomes);
    CollectedAlike(relay, CountIn(dec), Numbers(relay), outcomes);
  }

  /** The closing event says the drop count and nothing else. */
  lemma DoneSays<T>(f: Event -> Option<T>, relay: Relay, outcomes: seq<Outcome>, dropped: nat)
    ensures Collect(f, Response(relay, outcomes, dropped))
            == match f(Event("done", relay.done(dropped)))
               case None => Collect(f, AllForwarded(relay, outcomes))
               case Some(v) => Collect(f, AllForwarded(relay, outcomes)) + [v]
  {
    hide Collect, Told;
    CollectJoin(f, AllForwarded(relay, outcomes), Told("done", Some(relay.done(dropped))));
    CollectOne(f, "done", Some(relay.done(dropped)));
  }

  /** The client's result of an execution is what the kernel's messages said, in every field, with the drop
      count of its subscription. */
  lemma ClientSees(dec: Decoders, relay: Relay, outcomes: seq<Outcome>, dropped: nat)
    requires dec.done(relay.done(dropped)) == Some(dropped) && forall o :: o in outcomes ==> CodecAgrees(dec, relay, o)
    requires var events := Response(relay, outcomes, dropped); SingleLines(events) && AllFit(events)
    ensures Parse(dec, Written(Response(relay, outcomes, dropped))) == Parsed(WithStatus(KernelSaid(relay, outcomes, dropped)), false)
  {
    var events := Response(relay, outcomes, dropped);
    hide Parse, Collect, Concatenated, Written, CodecAgrees, SingleLines, AllFit, Response, AllForwarded, WithStatus;
    ParseOfWritten(dec, events);
    EventsSayWhatWasSaid(dec, relay, outcomes);
    forall stderr
      ensures Collect(Text(dec, stderr), events) == Collect(Prints(relay, stderr), outcomes)
    {
      DoneSays(Text(dec, stderr), relay, outcomes, dropped);
    }
    DoneSays(ResultIn(dec), relay, outcomes, dropped);
    DoneSays(DisplayIn(dec), relay, outcomes, dropped);
    DoneSays(ErrorIn(dec), relay, outcomes, dropped);
    DoneSays(StatusIn(dec), relay, outcomes, dropped);
    DoneSays(CountIn(dec), relay, outcomes, dropped);
    DoneSays(DroppedIn(dec), relay, outcomes, dropped);
  }
}
