/**
 The endpoint's messages as requests of the hosted worker: serving bodies, between any other
 requests, is a run of HostedRuns, so what is proved there holds of the messages.
 */
module McpRuns {
  import opened Text
  import opened JsonValues
  import opened Namespace
  import opened Hosted
  import opened HostedRuns
  import opened SessionToken
  import Mcp

  /** The store request a message makes, if it calls a checkpoint tool. */
  function AsRequest(s: Mcp.Server, uuid: string, message: Json): Option<Request> {
    var params := Mcp.Field(message, "params");
    var name := Prop(params, "name");
    if !Mcp.WellFormed(message) || !IsText(Mcp.Field(message, "method"), "tools/call") then None
    else if IsText(name, "create_checkpoint_session") then Some(CreateSession(uuid))
    else if IsText(name, "read_checkpoint") then
      Some(ReadCheckpoint(Mcp.SkillText(s, params), Mcp.Argument(params, "sessionId")))
    else if IsText(name, "write_checkpoint") then
      var checkpoint := Mcp.Argument(params, "checkpoint");
      Some(WriteCheckpoint(Mcp.SkillText(s, params), Mcp.Argument(params, "sessionId"),
                           if checkpoint.None? then Null else checkpoint.value))
    else None
  }

  /** A message does to the namespace what its request does, and a read or write answers with its reply. */
  lemma MessageIsItsRequest(s: Mcp.Server, e: Mcp.Effect, now: int, uuid: string, message: Json)
    ensures var (e', response) := Mcp.Handle(s, e, now, uuid, message);
            var req := AsRequest(s, uuid, message);
            && e'.kv == (if req.None? then e.kv else Step(s.host, e.kv, now, req.value).0)
            && (req.Some? && !req.value.CreateSession? && response.Some? ==>
                  response.value.body == Mcp.Result(Step(s.host, e.kv, now, req.value).1))
  {
  }

  function ArrivalsOf(s: Mcp.Server, now: int, uuids: nat -> string, messages: seq<Json>): seq<Arrival> {
    if messages == [] then []
    else
      var n := |messages| - 1;
      var req := AsRequest(s, uuids(n), messages[n]);
      ArrivalsOf(s, now, uuids, messages[..n]) + if req.None? then [] else [Arrival(now, req.value)]
  }

  lemma RunOneMore(h: Host, kv: Kv, arrivals: seq<Arrival>, a: Arrival)
    ensures var before := Run(h, kv, arrivals);
            var (kv', reply) := Step(h, before.kv, a.at, a.req);
            Run(h, kv, arrivals + [a]) == World(kv', before.trace + [Served(a.at, a.req, reply)])
  {
    assert (arrivals + [a])[..|arrivals|] == arrivals;
  }

  /** A batch leaves the namespace as the run of its requests, in order, does. */
  lemma {:induction false} BatchIsARun(s: Mcp.Server, e: Mcp.Effect, now: int, uuids: nat -> string,
                                       messages: seq<Json>)
    ensures Mcp.HandleAll(s, e, now, uuids, messages).0.kv == Run(s.host, e.kv, ArrivalsOf(s, now, uuids, messages)).kv
  {
    if messages != [] {
      var n := |messages| - 1;
      var arrivals, req := ArrivalsOf(s, now, uuids, messages[..n]), AsRequest(s, uuids(n), messages[n]);
      BatchIsARun(s, e, now, uuids, messages[..n]);
      MessageIsItsRequest(s, Mcp.HandleAll(s, e, now, uuids, messages[..n]).0, now, uuids(n), messages[n]);
      if req.Some? {
        RunOneMore(s.host, e.kv, arrivals, Arrival(now, req.value));
      } else {
        assert ArrivalsOf(s, now, uuids, messages) == arrivals;
      }
    }
  }

  lemma {:induction false} RunsCompose(h: Host, kv: Kv, a: seq<Arrival>, b: seq<Arrival>)
    ensures Run(h, kv, a + b).kv == Run(h, Run(h, kv, a).kv, b).kv
  {
    if b == [] {
      assert a + b == a;
    } else {
      var n := |b| - 1;
      RunsCompose(h, kv, a, b[..n]);
      assert a + b == (a + b[..n]) + [b[n]] && b == b[..n] + [b[n]];
      RunOneMore(h, kv, a + b[..n], b[n]);
      RunOneMore(h, Run(h, kv, a).kv, b[..n], b[n]);
    }
  }

  // ---- bodies between other requests ----

  /** What the worker serves: a body whose budget was granted, or any other request. */
  datatype Item =
    | Body(now: int, uuids: nat -> string, messages: seq<Json>)
    | Other(arrival: Arrival)

  function Serve(s: Mcp.Server, kv: Kv, item: Item): Kv {
    match item
    case Body(now, uuids, messages) => Mcp.HandleAll(s, Mcp.Effect(kv, 0), now, uuids, messages).0.kv
    case Other(a) => Step(s.host, kv, a.at, a.req).0
  }

  function ServeAll(s: Mcp.Server, kv: Kv, items: seq<Item>): Kv {
    if items == [] then kv else Serve(s, ServeAll(s, kv, items[..|items| - 1]), items[|items| - 1])
  }

  function Arrivals(s: Mcp.Server, items: seq<Item>): seq<Arrival> {
    if items == [] then []
    else
      var item := items[|items| - 1];
      Arrivals(s, items[..|items| - 1])
      + if item.Other? then [item.arrival] else ArrivalsOf(s, item.now, item.uuids, item.messages)
  }

  /** Everything served is one run: the results on votes, limits and checkpoints apply to it. */
  lemma {:induction false} ServingIsARun(s: Mcp.Server, kv: Kv, items: seq<Item>)
    ensures ServeAll(s, kv, items) == Run(s.host, kv, Arrivals(s, items)).kv
  {
    if items != [] {
      var n := |items| - 1;
      var before, item := ServeAll(s, kv, items[..n]), items[n];
      ServingIsARun(s, kv, items[..n]);
      if item.Body? {
        BatchIsARun(s, Mcp.Effect(before, 0), item.now, item.uuids, item.messages);
        RunsCompose(s.host, kv, Arrivals(s, items[..n]), ArrivalsOf(s, item.now, item.uuids, item.messages));
      } else {
        RunOneMore(s.host, kv, Arrivals(s, items[..n]), item.arrival);
      }
    }
  }

  /**
   Isolation of messages: after any bodies and other requests, a read_checkpoint message that is let
   through answers with the last value a message wrote under the same session and skill, unless it
   has lapsed, and otherwise with null or what the namespace began with.
   */
  lemma MessagesSeeTheirOwnWrites(s: Mcp.Server, kv: Kv, items: seq<Item>, now: int, uuid: string, message: Json)
    requires s.host.Lawful()
    requires var (_, response) := Mcp.Handle(s, Mcp.Effect(ServeAll(s, kv, items), 0), now, uuid, message);
             && AsRequest(s, uuid, message).Some? && AsRequest(s, uuid, message).value.ReadCheckpoint?
             && response.Some? && response.value.body.Result? && response.value.body.reply.Value?
    ensures var req := AsRequest(s, uuid, message).value;
            var session := s.host.gate.sanitize(req.session);
            && session.Some? && s.host.gate.accepts(session.value)
            && var trace := Run(s.host, kv, Arrivals(s, items)).trace;
               var (_, response) := Mcp.Handle(s, Mcp.Effect(ServeAll(s, kv, items), 0), now, uuid, message);
               response.value.body.reply.checkpoint ==
               Visible(s.host, kv, LastWrite(s.host, trace, session.value, req.skill),
                       Checkpoint(session.value, req.skill), now)
  {
    var arrivals, req := Arrivals(s, items), AsRequest(s, uuid, message).value;
    ServingIsARun(s, kv, items);
    MessageIsItsRequest(s, Mcp.Effect(ServeAll(s, kv, items), 0), now, uuid, message);
    RunOneMore(s.host, kv, arrivals, Arrival(now, req));
    ReadsSeeTheirOwnWrites(s.host, kv, arrivals + [Arrival(now, req)], |arrivals|);
    var whole := Run(s.host, kv, arrivals + [Arrival(now, req)]).trace;
    assert whole[..|arrivals|] == Run(s.host, kv, arrivals).trace;
  }

  // ---- create, write, read: by the text of the messages ----

  function Arg(message: Json, name: string): Option<Json> {
    Prop(Prop(Prop(Some(message), "params"), "arguments"), name)
  }

  /** A JSON-RPC 2.0 request, with an id, for one tool. */
  predicate Calls(message: Json, tool: string) {
    && message.Obj?
    && IsText(Prop(Some(message), "jsonrpc"), "2.0") && IsText(Prop(Some(message), "method"), "tools/call")
    && IsText(Prop(Prop(Some(message), "params"), "name"), tool)
    && Prop(Some(message), "id").Some?
  }

  /** The skill argument is this catalog text; `String(v)` leaves a text as it is. */
  predicate Names(s: Mcp.Server, message: Json, skill: string) {
    && Arg(message, "skill") == Some(Str(skill)) && s.text(Str(skill)) == skill
    && skill in s.host.skills
  }

  function Answer(message: Json, body: Mcp.Body): Option<Mcp.Response> {
    var id := Prop(Some(message), "id"); if id.None? then None else Some(Mcp.Response(id.value, body))
  }

  /** create_checkpoint_session answers with the signed token of its uuid, which is accepted from then on. */
  lemma CreateMessages(s: Mcp.Server, signer: Signer, e: Mcp.Effect, now: int, uuid: string, message: Json)
    requires s.host.gate == GateOf(Some(signer)) && signer.Sized() && IsUuidV4(uuid)
    requires Calls(message, "create_checkpoint_session")
    ensures var (e', response) := Mcp.Handle(s, e, now, uuid, message);
            && e'.kv == e.kv
            && response == Answer(message, Mcp.Result(Issued(Token(signer, uuid))))
    ensures Accepted(s.host, Some(Str(Token(signer, uuid))))
    ensures s.host.gate.sanitize(Some(Str(Token(signer, uuid)))) == Some(Token(signer, uuid))
  {
    IssuedTokensAreAccepted(signer, uuid);
  }

  /** write_checkpoint stores an object of at most 64 KiB under an accepted session, and says so. */
  lemma WriteMessages(s: Mcp.Server, e: Mcp.Effect, now: int, uuid: string, message: Json, skill: string,
                      checkpoint: Json)
    requires Calls(message, "write_checkpoint") && Names(s, message, skill)
    requires Accepted(s.host, Arg(message, "sessionId"))
    requires Arg(message, "checkpoint") == Some(checkpoint) && checkpoint.Obj?
    requires s.host.bytes(s.host.codec.stringify(checkpoint)) <= 65536
    ensures var (e', response) := Mcp.Handle(s, e, now, uuid, message);
            var session := s.host.gate.sanitize(Arg(message, "sessionId")).value;
            && response == Answer(message, Mcp.Result(Written))
            && e'.kv == Put(e.kv, Checkpoint(session, skill), s.host.codec.stringify(checkpoint),
                            Some(now + CHECKPOINT_TTL))
  {
    WritesAreAnswered(s.host, e.kv, now, skill, Arg(message, "sessionId"), checkpoint);
    MessageIsItsRequest(s, e, now, uuid, message);
  }

  /** read_checkpoint answers an accepted session with a value, null or the stored one. */
  lemma ReadMessages(s: Mcp.Server, e: Mcp.Effect, now: int, uuid: string, message: Json, skill: string)
    requires Calls(message, "read_checkpoint") && Names(s, message, skill)
    requires Accepted(s.host, Arg(message, "sessionId"))
    ensures var (e', response) := Mcp.Handle(s, e, now, uuid, message);
            var session := s.host.gate.sanitize(Arg(message, "sessionId")).value;
            && e'.kv == e.kv
            && response
               == Answer(message, Mcp.Result(Value(Parsed(s.host, Get(e.kv, Checkpoint(session, skill), now)))))
  {
    ReadsAreAnswered(s.host, e.kv, now, skill, Arg(message, "sessionId"));
    MessageIsItsRequest(s, e, now, uuid, message);
  }

  /**
   What is written is read: a good write message answers Written, and after any bodies and requests
   that store nothing else under its session and skill, a read message within thirty days answers
   with the very checkpoint.
   */
  lemma WrittenMessagesAreRead(s: Mcp.Server, e: Mcp.Effect, at: int, uuid: string, write: Json, items: seq<Item>,
                               later: int, uuid': string, read: Json, skill: string, checkpoint: Json)
    requires s.host.Lawful()
    requires Calls(write, "write_checkpoint") && Names(s, write, skill) && Accepted(s.host, Arg(write, "sessionId"))
    requires Arg(write, "checkpoint") == Some(checkpoint) && checkpoint.Obj?
    requires s.host.bytes(s.host.codec.stringify(checkpoint)) <= 65536
    requires Calls(read, "read_checkpoint") && Names(s, read, skill)
    requires Arg(read, "sessionId") == Arg(write, "sessionId")
    requires later < at + 30 * 24 * 3600 * 1000
    requires var kv := Mcp.Handle(s, e, at, uuid, write).0.kv;
             var session := s.host.gate.sanitize(Arg(write, "sessionId")).value;
             LastWrite(s.host, Run(s.host, kv, Arrivals(s, items)).trace, session, skill).None?
    ensures var (e', written) := Mcp.Handle(s, e, at, uuid, write);
            var (_, answer) := Mcp.Handle(s, Mcp.Effect(ServeAll(s, e'.kv, items), 0), later, uuid', read);
            && written == Answer(write, Mcp.Result(Written))
            && answer == Answer(read, Mcp.Result(Value(Some(checkpoint))))
  {
    var kv := Mcp.Handle(s, e, at, uuid, write).0.kv;
    var session := s.host.gate.sanitize(Arg(write, "sessionId")).value;
    WriteMessages(s, e, at, uuid, write, skill, checkpoint);
    ServingIsARun(s, kv, items);
    CheckpointEntry(s.host, kv, Arrivals(s, items), session, skill);
    ReadMessages(s, Mcp.Effect(ServeAll(s, kv, items), 0), later, uuid', read, skill);
  }
}
