/** The hosted MCP endpoint: body reading, write budget, JSON-RPC dispatch and batches. */
module Mcp {
  import opened Text
  import opened JsonValues
  import opened Namespace
  import opened SessionToken
  import Hosted

  const PARSE := -32700
  const INVALID_REQUEST := -32600
  const INVALID_PARAMS := -32602
  const INTERNAL := -32603
  const WRITE_REFUSED := -32000

  datatype Body = Result(reply: Hosted.Reply) | Plain(text: string) | Error(code: int)
  datatype Response = Response(id: Json, body: Body)

  /** The server's dependencies: the store's host, `String(v)`, and every answer that needs no store. */
  datatype Server = Server(host: Hosted.Host, text: Json -> string, plain: (string, Option<Json>) -> Body)

  // ---- one message ----

  function Field(message: Json, name: string): Option<Json> { Prop(Some(message), name) }

  predicate WellFormed(message: Json) {
    && message.Obj?
    && IsText(Field(message, "jsonrpc"), "2.0")
    && Field(message, "method").Some? && Field(message, "method").value.Str?
  }

  /** JSON-RPC 2.0 section 4.1: a request object without an id. */
  predicate IsNotification(message: Json) { WellFormed(message) && Field(message, "id").None? }

  /** The id a reply carries: the message's own, or null where it has none to give. */
  function ReplyId(message: Json): Json {
    var id := Field(message, "id"); if id.None? then Null else id.value
  }

  /** `message?.method === "tools/call"` with one of the two mutating tool names. */
  predicate IsMutation(message: Json) {
    && IsText(Field(message, "method"), "tools/call")
    && var name := Prop(Field(message, "params"), "name");
       IsText(name, "create_checkpoint_session") || IsText(name, "write_checkpoint")
  }

  /** A tools/call whose tool name is not text. */
  predicate NamesNoTool(message: Json) {
    && WellFormed(message) && IsText(Field(message, "method"), "tools/call")
    && !(Prop(Field(message, "params"), "name").Some? && Prop(Field(message, "params"), "name").value.Str?)
  }

  function MutationCount(messages: seq<Json>): nat {
    if messages == [] then 0
    else MutationCount(messages[..|messages| - 1]) + if IsMutation(messages[|messages| - 1]) then 1 else 0
  }

  /** The messages that call one of the two mutating tools, by index. */
  function MutationsIn(messages: seq<Json>): set<nat> {
    set i | 0 <= i < |messages|
            && IsText(Prop(Some(messages[i]), "method"), "tools/call")
            && (IsText(Prop(Prop(Some(messages[i]), "params"), "name"), "create_checkpoint_session")
                || IsText(Prop(Prop(Some(messages[i]), "params"), "name"), "write_checkpoint"))
  }

  /** The count is of exactly those: nothing else is charged for. */
  lemma {:induction false} MutationsAreThese(messages: seq<Json>)
    ensures MutationCount(messages) == |MutationsIn(messages)|
  {
    if messages == [] {
      assert MutationsIn(messages) == {};
    } else {
      var n := |messages| - 1;
      MutationsAreThese(messages[..n]);
      assert MutationsIn(messages) == MutationsIn(messages[..n]) + if IsMutation(messages[n]) then { n } else {};
    }
  }

  function Argument(params: Option<Json>, name: string): Option<Json> {
    Prop(Prop(params, "arguments"), name)
  }

  function SkillText(s: Server, params: Option<Json>): string {
    match Argument(params, "skill")
    case None => ""
    case Some(Null) => ""
    case Some(v) => s.text(v)
  }

  datatype Effect = Effect(kv: Kv, mutations: nat)

  /** callTool for the three checkpoint tools: the store after it, and the reply or the code of a throw. */
  function CallTool(s: Server, e: Effect, now: int, uuid: string, name: string, params: Option<Json>): (Effect, Body) {
    var skill, session := SkillText(s, params), Argument(params, "sessionId");
    if name == "create_checkpoint_session" then
      var token := s.host.gate.issue(uuid);
      var body :=
        if token.None? || s.host.gate.sanitize(Some(Str(token.value))).None? then Error(INTERNAL)
        else Result(Hosted.Issued(s.host.gate.sanitize(Some(Str(token.value))).value));
      (Effect(e.kv, e.mutations + 1), body)
    else if name == "read_checkpoint" then
      (e, Result(Hosted.ReadStep(s.host, e.kv, now, skill, session)))
    else if name == "write_checkpoint" then
      var checkpoint := Argument(params, "checkpoint");
      var (kv', reply) := Hosted.WriteStep(s.host, e.kv, now, skill, session,
                                           if checkpoint.None? then Null else checkpoint.value);
      (Effect(kv', e.mutations + if reply.Written? then 1 else 0), Result(reply))
    else (e, s.plain("tools/call", params))
  }

  function Dispatch(s: Server, e: Effect, now: int, uuid: string, call: string, params: Option<Json>): (Effect, Body) {
    if call != "tools/call" then (e, s.plain(call, params))
    else
      var name := Prop(params, "name");
      if !(name.Some? && name.value.Str?) then (e, Error(INVALID_PARAMS))
      else CallTool(s, e, now, uuid, name.value.s, params)
  }

  function Handle(s: Server, e: Effect, now: int, uuid: string, message: Json): (Effect, Option<Response>) {
    if !WellFormed(message) then (e, Some(Response(ReplyId(message), Error(INVALID_REQUEST))))
    else
      var (e', body) := Dispatch(s, e, now, uuid, Field(message, "method").value.s, Field(message, "params"));
      (e', if IsNotification(message) then None else Some(Response(ReplyId(message), body)))
  }

  /** Only a message the budget counted can mutate the store, and then once. */
  lemma MutationsAreCounted(s: Server, e: Effect, now: int, uuid: string, message: Json)
    ensures var e' := Handle(s, e, now, uuid, message).0;
            && e.mutations <= e'.mutations <= e.mutations + (if IsMutation(message) then 1 else 0)
            && (e'.mutations == e.mutations ==> e'.kv == e.kv)
  {
  }

  /** What is no request is answered as invalid, and a tool call without a tool name as badly parametrised. */
  lemma ErrorsHaveTheirCodes(s: Server, e: Effect, now: int, uuid: string, message: Json)
    ensures !WellFormed(message) ==>
      Handle(s, e, now, uuid, message) == (e, Some(Response(ReplyId(message), Error(-32600))))
    ensures NamesNoTool(message) ==>
      var (e', response) := Handle(s, e, now, uuid, message);
      e' == e && (response.Some? ==> response.value.body == Error(-32602))
  {
  }

  /** Every other call is answered by what needs no store, and leaves the store alone. */
  lemma OtherCallsArePlain(s: Server, e: Effect, now: int, uuid: string, message: Json)
    requires WellFormed(message) && !NamesNoTool(message)
    ensures var call, params := Field(message, "method").value.s, Field(message, "params");
            var name := Prop(params, "name");
            var tools := { Some(Str("create_checkpoint_session")), Some(Str("read_checkpoint")),
                           Some(Str("write_checkpoint")) };
            call != "tools/call" || name !in tools ==>
              var (e', response) := Handle(s, e, now, uuid, message);
              e' == e && (response.Some? ==> response.value.body == s.plain(call, params))
  {
  }

  // ---- a batch ----

  /** The ids a batch must be answered with, in request order. */
  function ExpectedIds(messages: seq<Json>): seq<Json> {
    if messages == [] then []
    else
      var n := |messages| - 1;
      ExpectedIds(messages[..n]) + if IsNotification(messages[n]) then [] else [ReplyId(messages[n])]
  }

  function Ids(responses: seq<Response>): seq<Json> {
    seq(|responses|, i requires 0 <= i < |responses| => responses[i].id)
  }

  function HandleAll(s: Server, e: Effect, now: int, uuids: nat -> string, messages: seq<Json>)
    : (Effect, seq<Response>)
  {
    if messages == [] then (e, [])
    else
      var n := |messages| - 1;
      var (e', responses) := HandleAll(s, e, now, uuids, messages[..n]);
      var (e'', response) := Handle(s, e', now, uuids(n), messages[n]);
      (e'', responses + if response.Some? then [response.value] else [])
  }

  lemma HandleAllThenOne(s: Server, e: Effect, now: int, uuids: nat -> string, messages: seq<Json>, message: Json)
    ensures var (e', responses) := HandleAll(s, e, now, uuids, messages);
            var (e'', response) := Handle(s, e', now, uuids(|messages|), message);
            HandleAll(s, e, now, uuids, messages + [message]) ==
            (e'', if response.Some? then responses + [response.value] else responses)
  {
    assert (messages + [message])[..|messages|] == messages;
    var responses := HandleAll(s, e, now, uuids, messages).1;
    assert responses + [] == responses;
  }

  lemma {:induction false} AnswersInOrder(s: Server, e: Effect, now: int, uuids: nat -> string, messages: seq<Json>)
    ensures var responses := HandleAll(s, e, now, uuids, messages).1;
            && Ids(responses) == ExpectedIds(messages)
            && (responses == [] <==> forall m <- messages :: IsNotification(m))
  {
    if messages != [] {
      var n := |messages| - 1;
      AnswersInOrder(s, e, now, uuids, messages[..n]);
      assert messages == messages[..n] + [messages[n]];
      var before, all := HandleAll(s, e, now, uuids, messages[..n]).1, HandleAll(s, e, now, uuids, messages).1;
      assert Ids(all) == Ids(before) + Ids(all[|before|..]);
    }
  }

  lemma {:induction false} ExpectedIdsEcho(messages: seq<Json>, m: Json)
    requires m in messages && WellFormed(m) && Field(m, "id").Some?
    ensures Field(m, "id").value in ExpectedIds(messages)
  {
    var n := |messages| - 1;
    if m != messages[n] {
      assert messages == messages[..n] + [messages[n]];
      ExpectedIdsEcho(messages[..n], m);
    }
  }

  /**
   JSON-RPC 2.0 sections 4.1 and 6: one response, in request order and under the message's own id,
   for each message that is not a valid notification; none at all exactly when all are. The id of a
   well-formed request, null included, is the id of a response.
   */
  lemma BatchAnswersEachRequest(s: Server, e: Effect, now: int, uuids: nat -> string, messages: seq<Json>)
    ensures var responses := HandleAll(s, e, now, uuids, messages).1;
            && Ids(responses) == ExpectedIds(messages)
            && (responses == [] <==> forall m <- messages :: IsNotification(m))
            && (forall m <- messages | WellFormed(m) && Field(m, "id").Some? :: Field(m, "id").value in Ids(responses))
  {
    AnswersInOrder(s, e, now, uuids, messages);
    forall m <- messages | WellFormed(m) && Field(m, "id").Some? ensures Field(m, "id").value in ExpectedIds(messages) {
      ExpectedIdsEcho(messages, m);
    }
  }

  /** The store sees at most as many mutations as the budget counted, and changes only by them. */
  lemma {:induction false} BatchMutationsAreCounted(s: Server, e: Effect, now: int, uuids: nat -> string,
                                                    messages: seq<Json>)
    ensures var e' := HandleAll(s, e, now, uuids, messages).0;
            && e.mutations <= e'.mutations <= e.mutations + MutationCount(messages)
            && (e'.mutations == e.mutations ==> e'.kv == e.kv)
  {
    if messages != [] {
      var n := |messages| - 1;
      BatchMutationsAreCounted(s, e, now, uuids, messages[..n]);
      MutationsAreCounted(s, HandleAll(s, e, now, uuids, messages[..n]).0, now, uuids(n), messages[n]);
    }
  }

  // ---- reading the request body ----

  const MAX_BYTES := 256 * 1024

  function Flatten(chunks: seq<seq<Byte>>): seq<Byte> {
    if chunks == [] then [] else Flatten(chunks[..|chunks| - 1]) + chunks[|chunks| - 1]
  }

  lemma {:induction false} FlattenedLengths(chunks: seq<seq<Byte>>, i: nat)
    requires i <= |chunks|
    ensures |Flatten(chunks[..i])| <= |Flatten(chunks)|
    decreases |chunks|
  {
    if i == |chunks| {
      assert chunks[..i] == chunks;
    } else {
      assert chunks[..|chunks| - 1][..i] == chunks[..i];
      FlattenedLengths(chunks[..|chunks| - 1], i);
    }
  }

  datatype Raw = TooLarge | Octets(bytes: seq<Byte>)

  /**
   readMcpBody: the chunks are kept until their total is known, then joined into one buffer.
   `kept` is the most it ever holds; `read` is how many chunks it took from the stream.
   */
  method ReadBody(declared: Option<int>, stream: Option<seq<seq<Byte>>>) returns (r: Raw, kept: nat, read: nat)
    ensures r.TooLarge? <==>
      (declared.Some? && declared.value > MAX_BYTES) || (stream.Some? && |Flatten(stream.value)| > MAX_BYTES)
    ensures r.Octets? ==> r.bytes == if stream.None? then [] else Flatten(stream.value)
    ensures kept <= MAX_BYTES
    ensures declared.Some? && declared.value > MAX_BYTES ==> read == 0
  {
    kept, read := 0, 0;
    if declared.Some? && declared.value > MAX_BYTES { return TooLarge, 0, 0; }
    if stream.None? { return Octets([]), 0, 0; }
    var chunks: seq<seq<Byte>> := [];
    var bytes := 0;
    while read < |stream.value|
      invariant read <= |stream.value| && chunks == stream.value[..read]
      invariant kept == bytes == |Flatten(chunks)| <= MAX_BYTES
    {
      var value := stream.value[read];
      bytes := bytes + |value|;
      assert stream.value[..read + 1][..read] == stream.value[..read];
      read := read + 1;
      if bytes > MAX_BYTES {
        FlattenedLengths(stream.value, read);
        return TooLarge, kept, read;
      }
      chunks := chunks + [value];
      kept := bytes;
    }
    assert chunks == stream.value;
    var joined := JoinChunks(chunks, bytes);
    r := Octets(joined);
  }

  /** The second loop: each chunk is copied to its offset in the buffer. */
  method JoinChunks(chunks: seq<seq<Byte>>, bytes: nat) returns (joined: seq<Byte>)
    requires bytes == |Flatten(chunks)|
    ensures joined == Flatten(chunks)
  {
    var buffer := new Byte[bytes](_ => 0);
    var offset, i := 0, 0;
    while i < |chunks|
      invariant i <= |chunks| && offset == |Flatten(chunks[..i])| <= bytes
      invariant buffer[..offset] == Flatten(chunks[..i])
    {
      var chunk := chunks[i];
      FlattenedLengths(chunks, i + 1);
      assert chunks[..i + 1][..i] == chunks[..i];
      forall k | 0 <= k < |chunk| { buffer[offset + k] := chunk[k]; }
      assert buffer[..offset + |chunk|] == buffer[..offset] + chunk;
      offset := offset + |chunk|;
      i := i + 1;
    }
    assert chunks[..i] == chunks;
    joined := buffer[..];
  }

  // ---- the write budget ----

  datatype Grant = Granted | Refused | Threw
  datatype Budget = Ok | Exceeded | Missing

  /** Where the limiter first fails to grant one of the tokens asked for. */
  function FirstFailure(grants: nat -> Grant, count: nat): (n: nat)
    ensures n <= count
    ensures forall i: nat | i < n :: grants(i) == Granted
    ensures n < count ==> grants(n) != Granted
  {
    if count == 0 then 0
    else
      var n := FirstFailure(grants, count - 1);
      if n < count - 1 || grants(count - 1) != Granted then n else count
  }

  /** consumeMcpWriteBudget: one token per mutation, in order, and failing closed. */
  method ConsumeBudget(limiter: Option<nat -> Grant>, writeCount: nat) returns (budget: Budget, granted: nat)
    ensures budget == Ok <==>
      writeCount == 0 || (limiter.Some? && forall i: nat | i < writeCount :: limiter.value(i) == Granted)
    ensures budget == Ok ==> granted == writeCount
    ensures budget != Ok && limiter.Some? ==>
      && granted == FirstFailure(limiter.value, writeCount)
      && (budget == Exceeded <==> limiter.value(granted) == Refused)
    ensures budget != Ok && limiter.None? ==> budget == Missing && granted == 0
  {
    granted := 0;
    if writeCount == 0 { return Ok, 0; }
    if limiter.None? { return Missing, 0; }
    while granted < writeCount
      invariant granted <= writeCount
      invariant forall i: nat | i < granted :: limiter.value(i) == Granted
    {
      match limiter.value(granted) {
        case Granted =>
        case Refused => return Exceeded, granted;
        case Threw => return Missing, granted;
      }
      granted := granted + 1;
    }
    budget := Ok;
  }

  // ---- the endpoint ----

  const BATCH_MAX := 25

  /** 200 carries the responses, 202 no body; every other status one error object with a null id. */
  datatype Http = Http(status: nat, responses: seq<Response>)

  function Messages(body: Json): seq<Json> { if body.Arr? then body.items else [body] }

  /** The size limit that readMcpBody applies. */
  predicate Fits(declared: Option<int>, stream: Option<seq<seq<Byte>>>) {
    && (declared.Some? ==> declared.value <= 256 * 1024)
    && (stream.Some? ==> |Flatten(stream.value)| <= 256 * 1024)
  }

  /** A parsed body that is served: a message or a batch of permitted size, with every mutation paid for. */
  predicate Servable(body: Json, limiter: Option<nat -> Grant>) {
    && (body.Arr? ==> 1 <= |body.items| <= BATCH_MAX)
    && var count := MutationCount(Messages(body));
       count == 0 || (limiter.Some? && forall i: nat | i < count :: limiter.value(i) == Granted)
  }

  /** The limiter refuses one of the tokens, having granted all before it. */
  ghost predicate OutOfTokens(grants: nat -> Grant, count: nat) {
    exists n: nat :: n < count && grants(n) == Refused && forall i: nat | i < n :: grants(i) == Granted
  }

  lemma RefusedAtTheFirstFailure(grants: nat -> Grant, count: nat)
    ensures var n := FirstFailure(grants, count);
            OutOfTokens(grants, count) <==> n < count && grants(n) == Refused
  {
  }

  class Endpoint {
    const s: Server
    const parse: seq<Byte> -> Option<Json>   // TextDecoder, then JSON.parse
    const worker: Hosted.Worker              // the key-value namespace
    var mutations: nat                       // createSession and write calls made on the store

    ghost predicate Valid() { s.host == worker.h }

    ghost function State(): Effect
      reads this, worker
    {
      Effect(worker.kv, mutations)
    }

    constructor (s: Server, parse: seq<Byte> -> Option<Json>, worker: Hosted.Worker)
      requires s.host == worker.h
      ensures Valid() && this.s == s && this.parse == parse && this.worker == worker
      ensures State() == Effect(worker.kv, 0)
    {
      this.s, this.parse, this.worker, this.mutations := s, parse, worker, 0;
    }

    /** The checkpoint tools: the store calls in the order the server makes them. */
    method CallCheckpointTool(now: int, uuid: string, name: string, params: Option<Json>) returns (body: Body)
      requires Valid()
      modifies this`mutations, worker
      ensures (State(), body) == CallTool(s, old(State()), now, uuid, name, params)
    {
      var skill, session := SkillText(s, params), Argument(params, "sessionId");
      if name == "create_checkpoint_session" {
        mutations := mutations + 1;
        var token := s.host.gate.issue(uuid);
        if token.None? { return Error(INTERNAL); }
        var id := s.host.gate.sanitize(Some(Str(token.value)));
        if id.None? { return Error(INTERNAL); }
        return Result(Hosted.Issued(id.value));
      }
      if name == "read_checkpoint" {
        var reply := worker.ReadCheckpointFor(now, skill, session);
        return Result(reply);
      }
      if name == "write_checkpoint" {
        var checkpoint := Argument(params, "checkpoint");
        var value := if checkpoint.None? then Null else checkpoint.value;
        var reply := worker.WriteCheckpointFor(now, skill, session, value);
        if reply.Written? { mutations := mutations + 1; }
        return Result(reply);
      }
      body := s.plain("tools/call", params);
    }

    method HandleOne(now: int, uuid: string, message: Json) returns (response: Option<Response>)
      requires Valid()
      modifies this`mutations, worker
      ensures (State(), response) == Handle(s, old(State()), now, uuid, message)
    {
      if !message.Obj? { return Some(Response(Null, Error(INVALID_REQUEST))); }
      var call, id := Field(message, "method"), Field(message, "id");
      var replyId := if id.None? then Null else id.value;
      if !IsText(Field(message, "jsonrpc"), "2.0") || !(call.Some? && call.value.Str?) {
        return Some(Response(replyId, Error(INVALID_REQUEST)));
      }
      var params := Field(message, "params");
      var name := Prop(params, "name");
      var body;
      if call.value.s != "tools/call" {
        body := s.plain(call.value.s, params);
      } else if !(name.Some? && name.value.Str?) {
        body := Error(INVALID_PARAMS);
      } else {
        body := CallCheckpointTool(now, uuid, name.value.s, params);
      }
      response := if id.None? then None else Some(Response(replyId, body));
    }

    /** The batch loop. */
    method HandleBatch(now: int, uuids: nat -> string, messages: seq<Json>) returns (responses: seq<Response>)
      requires Valid()
      modifies this`mutations, worker
      ensures (State(), responses) == HandleAll(s, old(State()), now, uuids, messages)
    {
      ghost var start := State();
      responses := [];
      var i := 0;
      while i < |messages|
        invariant i <= |messages| && HandledSoFar(start, now, uuids, messages[..i], responses)
      {
        HandleAllThenOne(s, start, now, uuids, messages[..i], messages[i]);
        assert messages[..i + 1] == messages[..i] + [messages[i]];
        var response := HandleOne(now, uuids(i), messages[i]);
        if response.Some? { responses := responses + [response.value]; }
        i := i + 1;
      }
      assert messages[..i] == messages;
    }

    ghost predicate HandledSoFar(start: Effect, now: int, uuids: nat -> string, messages: seq<Json>,
                                 responses: seq<Response>)
      reads this, worker
    {
      (State(), responses) == HandleAll(s, start, now, uuids, messages)
    }

    /** A single message is answered as a batch of one. */
    method Answer(now: int, uuids: nat -> string, body: Json) returns (responses: seq<Response>)
      requires Valid()
      modifies this`mutations, worker
      ensures (State(), responses) == HandleAll(s, old(State()), now, uuids, Messages(body))
    {
      if body.Arr? {
        responses := HandleBatch(now, uuids, body.items);
      } else {
        HandleAllThenOne(s, State(), now, uuids, [], body);
        assert [] + [body] == [body];
        var response := HandleOne(now, uuids(0), body);
        responses := [];
        if response.Some? {
          assert [] + [response.value] == [response.value];
          responses := [response.value];
        }
      }
    }

    /** Which refusal it is: 413 for size, 400 for a body that is no message or batch, 429 and 503 for the budget. */
    ghost predicate RefusedBy(declared: Option<int>, stream: Option<seq<seq<Byte>>>,
                              limiter: Option<nat -> Grant>, http: Http) {
      var parsed := parse(if stream.None? then [] else Flatten(stream.value));
      && (http.status == 413 <==> !Fits(declared, stream))
      && (http.status == 400 <==>
            && Fits(declared, stream)
            && (parsed.None? || (parsed.value.Arr? && !(1 <= |parsed.value.items| <= 25))))
      && (http.status == 429 <==>
            && Fits(declared, stream) && parsed.Some?
            && (parsed.value.Arr? ==> 1 <= |parsed.value.items| <= 25)
            && limiter.Some? && OutOfTokens(limiter.value, MutationCount(Messages(parsed.value))))
      && http.status in { 400, 413, 429, 503 }
      && |http.responses| == 1 && http.responses[0].id == Null && http.responses[0].body.Error?
      && http.responses[0].body.code ==
           (if http.status == 413 then -32600
            else if http.status == 400 then (if parsed.None? then -32700 else -32600)
            else -32000)
    }

    /** The guards of handleMcp, in order: what to refuse with, or the body to serve and what was paid for it. */
    method Admit(declared: Option<int>, stream: Option<seq<seq<Byte>>>, limiter: Option<nat -> Grant>)
      returns (refusal: Option<Http>, body: Json, granted: nat)
      ensures refusal.None? <==>
        && Fits(declared, stream)
        && var parsed := parse(if stream.None? then [] else Flatten(stream.value));
           parsed.Some? && Servable(parsed.value, limiter)
      ensures refusal.None? ==>
        && parse(if stream.None? then [] else Flatten(stream.value)) == Some(body)
        && granted == MutationCount(Messages(body))
      ensures refusal.Some? ==> RefusedBy(declared, stream, limiter, refusal.value)
    {
      refusal, body, granted := None, Null, 0;
      var raw, kept, read := ReadBody(declared, stream);
      if raw.TooLarge? { return Some(Refusal(413, INVALID_REQUEST)), Null, 0; }
      var parsed := parse(raw.bytes);
      if parsed.None? { return Some(Refusal(400, PARSE)), Null, 0; }
      body := parsed.value;
      if body.Arr? && |body.items| == 0 { return Some(Refusal(400, INVALID_REQUEST)), body, 0; }
      if body.Arr? && |body.items| > BATCH_MAX { return Some(Refusal(400, INVALID_REQUEST)), body, 0; }
      var budget;
      if limiter.Some? { RefusedAtTheFirstFailure(limiter.value, MutationCount(Messages(body))); }
      budget, granted := ConsumeBudget(limiter, MutationCount(Messages(body)));
      if budget != Ok { refusal := Some(Refusal(if budget == Missing then 503 else 429, WRITE_REFUSED)); }
    }

    /**
     handleMcp from a POST body on. A body is served exactly when it fits, parses, is of permitted
     size and every mutation in it is paid for. Otherwise the store is untouched; if it is served, as
     many tokens as checkpointMutationCount were granted first, the store saw no more mutations than
     that, and the answer is the batch's.
     */
    method HandleMcp(now: int, uuids: nat -> string, declared: Option<int>, stream: Option<seq<seq<Byte>>>,
                     limiter: Option<nat -> Grant>) returns (http: Http, granted: nat)
      requires Valid()
      modifies this`mutations, worker
      ensures http.status in { 200, 202 } || RefusedBy(declared, stream, limiter, http)
      ensures http.status in { 200, 202 } <==>
        && Fits(declared, stream)
        && var parsed := parse(if stream.None? then [] else Flatten(stream.value));
           parsed.Some? && Servable(parsed.value, limiter)
      ensures http.status !in { 200, 202 } ==>
        State() == old(State()) && |http.responses| == 1 && http.responses[0].id == Null
      ensures mutations - old(mutations) <= granted
      ensures http.status in { 200, 202 } ==>
        var parsed := parse(if stream.None? then [] else Flatten(stream.value));
        && parsed.Some? && granted == MutationCount(Messages(parsed.value))
        && (State(), http.responses) == HandleAll(s, old(State()), now, uuids, Messages(parsed.value))
        && Ids(http.responses) == ExpectedIds(Messages(parsed.value))
        && (http.status == 202 <==> forall m <- Messages(parsed.value) :: IsNotification(m))
    {
      var refusal, body;
      refusal, body, granted := Admit(declared, stream, limiter);
      if refusal.Some? { return refusal.value, granted; }
      BatchAnswersEachRequest(s, State(), now, uuids, Messages(body));
      BatchMutationsAreCounted(s, State(), now, uuids, Messages(body));
      var responses := Answer(now, uuids, body);
      http := Http(if responses == [] then 202 else 200, responses);
    }
  }

  function Refusal(status: nat, code: int): Http { Http(status, [Response(Null, Error(code))]) }
}
