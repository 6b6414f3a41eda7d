/** The reader loop of Serve in the code's own form, on the server object. */
module ServeObject {
  import opened Text
  import opened Protocol
  import opened ClientRpc
  import opened Cancels
  import opened Turn
  import opened System
  import opened ServerObject

  // ----- What a stretch of input asks for, by the classification of each line -----

  /** The requests for which handlers are started, in order. */
  function Requests(lines: seq<InputLine>): seq<Message> {
    if lines == [] then []
    else
      var n := |lines| - 1;
      var action := Classify(lines[n]);
      Requests(lines[..n]) + (if action.Spawn? then [action.msg] else [])
  }

  /** The errors the reader answers itself, in order. */
  function Rejections(lines: seq<InputLine>): seq<Payload> {
    if lines == [] then []
    else
      var n := |lines| - 1;
      var action := Classify(lines[n]);
      Rejections(lines[..n]) + (if action.Reject? then [Respond(NormalizeId(action.id), Failure(action.code))] else [])
  }

  /** The sessions whose prompts are to be cancelled. */
  function Cancelled(lines: seq<InputLine>): set<string> {
    if lines == [] then {}
    else
      var n := |lines| - 1;
      var action := Classify(lines[n]);
      Cancelled(lines[..n]) + (if action.CancelNote? then {action.sid} else {})
  }

  // ----- What responses do to the tables of the correlation, and cancellations to the contexts -----

  /** The response a line brings, if any; `uid` is the number of the line. */
  function Brought(line: InputLine, uid: nat): seq<Reply> {
    var action := Classify(line);
    if action.Correlate? then [Reply(uid, action.rid, action.body)] else []
  }

  function Replies(lines: seq<InputLine>): seq<Reply> {
    if lines == [] then []
    else
      var n := |lines| - 1;
      Replies(lines[..n]) + Brought(lines[n], n)
  }

  /** A context is cancelled by a cancellation of a session it is registered for. */
  ghost predicate Hit(active: map<string, PromptContext>, sids: set<string>, c: PromptContext) {
    exists sid :: sid in sids && sid in active && active[sid] == c
  }

  ghost function Struck(err: Ctx, hit: bool): Ctx {
    if hit && err.Live? then Canceled else err
  }

  /** The session a line cancels has this context registered. */
  ghost predicate Strikes(active: map<string, PromptContext>, line: InputLine, c: PromptContext) {
    var action := Classify(line);
    action.CancelNote? && action.sid in active && active[action.sid] == c
  }

  lemma HitNext(active: map<string, PromptContext>, lines: seq<InputLine>, i: nat)
    requires i < |lines|
    ensures forall c | c in active.Values ::
              Hit(active, Cancelled(lines[..i + 1]), c)
              <==> Hit(active, Cancelled(lines[..i]), c) || Strikes(active, lines[i], c)
  {
    assert lines[..i + 1][..i] == lines[..i];
    forall c | c in active.Values
      ensures Hit(active, Cancelled(lines[..i + 1]), c)
              <==> Hit(active, Cancelled(lines[..i]), c) || Strikes(active, lines[i], c)
    {
      var action := Classify(lines[i]);
      if action.CancelNote? {
      } else {
        assert Cancelled(lines[..i]) + {} == Cancelled(lines[..i]);
      }
    }
  }

  lemma NothingMore<T>(past: seq<T>)
    ensures past + [] == past
  {
  }

  lemma MeaningOf(msg: Message, uid: nat)
    requires !Classify(Parsed(msg)).Spawn? && !Classify(Parsed(msg)).Reject? && msg.jsonrpc == "2.0"
    ensures Classify(Parsed(msg))
            == if Blank(msg.methodName) then (if HasId(msg.id) then Correlate(msg.id, msg.body) else Skip)
               else if msg.methodName == "session/cancel" && !msg.params.BadJson? then CancelNote(msg.params.sessionId)
               else Skip
    ensures Brought(Parsed(msg), uid)
            == if Blank(msg.methodName) && HasId(msg.id) then [Reply(uid, msg.id, msg.body)] else []
  {
  }

  /** A message that is no request: a response is correlated, a cancellation cancels. */
  method Absorb(server: Server, msg: Message, uid: nat, ghost t0: Tables<Channel>, ghost past: seq<Reply>)
    requires server.Handled(t0, past)
    requires !Classify(Parsed(msg)).Spawn? && !Classify(Parsed(msg)).Reject? && msg.jsonrpc == "2.0"
    modifies server`cancelFlags, server`pendingResponses, server`earlyResponses
    modifies server.pendingResponses.Values, server.activeCancels.Values
    ensures server.Handled(t0, past + Brought(Parsed(msg), uid))
    ensures server.pendingResponses.Values <= old(server.pendingResponses.Values)
    ensures var action := Classify(Parsed(msg));
            server.CancelTables() == if action.CancelNote? then RaiseFlag(old(server.CancelTables()), action.sid).0
                                     else old(server.CancelTables())
    ensures forall c | c in server.activeCancels.Values ::
              c.err == Struck(old(c.err), Strikes(server.activeCancels, Parsed(msg), c))
  {
    MeaningOf(msg, uid);
    NothingMore(past);
    hide Classify, Brought;
    if Blank(msg.methodName) {
      if HasId(msg.id) {
        server.HandleNext(Reply(uid, msg.id, msg.body), t0, past);
      }
    } else if msg.methodName == "session/cancel" && !msg.params.BadJson? {
      server.CancelSession(msg.params.sessionId);
    }
  }

  /** One line of input; `uid` is its number. */
  method ReadOne(server: Server, line: InputLine, uid: nat, ghost t0: Tables<Channel>, ghost past: seq<Reply>)
    returns (request: Option<Message>)
    requires server.Handled(t0, past)
    modifies server`out, server`cancelFlags, server`pendingResponses, server`earlyResponses
    modifies server.pendingResponses.Values, server.activeCancels.Values
    ensures server.Handled(t0, past + Brought(line, uid))
    ensures server.pendingResponses.Values <= old(server.pendingResponses.Values)
    ensures var action := Classify(line);
            && request == (if action.Spawn? then Some(action.msg) else None)
            && server.out
               == (if action.Reject? then old(server.out) + [Respond(NormalizeId(action.id), Failure(action.code))]
                   else old(server.out))
            && server.CancelTables() == (if action.CancelNote? then RaiseFlag(old(server.CancelTables()), action.sid).0
                                         else old(server.CancelTables()))
    ensures forall c | c in server.activeCancels.Values ::
              c.err == Struck(old(c.err), Strikes(server.activeCancels, line, c))
  {
    NothingMore(past);
    request := None;
    if line.BlankLine? {
      return;
    }
    if line.Garbage? {
      server.Write(Respond(NormalizeId(NoId), Failure(PARSE_ERROR)));
      return;
    }
    var msg := line.msg;
    if msg.jsonrpc != "2.0" {
      if HasId(msg.id) {
        server.Write(Respond(NormalizeId(msg.id), Failure(INVALID_REQUEST)));
      }
      return;
    }
    if !Blank(msg.methodName) && HasId(msg.id) {
      return Some(msg);
    }
    Absorb(server, msg, uid, t0, past);
  }

  /** What has become of the server's tables and output after some lines. */
  ghost predicate Absorbed(server: Server, t0: Tables<Channel>, flags0: set<string>, out0: seq<Payload>,
                           lines: seq<InputLine>)
    reads server, server.pendingResponses.Values, t0.pending.Values
  {
    && server.Handled(t0, Replies(lines))
    && server.out == out0 + Rejections(lines)
    && server.CancelTables().flags == flags0 + Cancelled(lines)
  }

  lemma LinesNext(lines: seq<InputLine>, i: nat)
    requires i < |lines|
    ensures var (past, upTo, action) := (lines[..i], lines[..i + 1], Classify(lines[i]));
            && Replies(upTo) == Replies(past) + Brought(lines[i], i)
            && Rejections(upTo)
               == Rejections(past)
               + (if action.Reject? then [Respond(NormalizeId(action.id), Failure(action.code))] else [])
            && Cancelled(upTo) == Cancelled(past) + (if action.CancelNote? then {action.sid} else {})
  {
    assert lines[..i + 1][..i] == lines[..i];
  }

  /** The next line of the input. */
  method ReadNext(server: Server, lines: seq<InputLine>, i: nat,
                  ghost t0: Tables<Channel>, ghost flags0: set<string>, ghost out0: seq<Payload>)
    returns (request: Option<Message>)
    requires i < |lines| && Absorbed(server, t0, flags0, out0, lines[..i])
    modifies server`out, server`cancelFlags, server`pendingResponses, server`earlyResponses
    modifies server.pendingResponses.Values, server.activeCancels.Values
    ensures Absorbed(server, t0, flags0, out0, lines[..i + 1])
    ensures server.pendingResponses.Values <= old(server.pendingResponses.Values)
    ensures request == if Classify(lines[i]).Spawn? then Some(Classify(lines[i]).msg) else None
    ensures forall c | c in server.activeCancels.Values ::
              c.err == Struck(old(c.err), Strikes(server.activeCancels, lines[i], c))
  {
    LinesNext(lines, i);
    request := ReadOne(server, lines[i], i, t0, Replies(lines[..i]));
  }

  /** The scan loop, whatever the lines are: each request gets a handler, each malformed line its error;
      each waiting call gets the first response with its key, and the other responses are kept; each
      cancellation raises its flag and cancels the context registered for its session, and no other. */
  method ReadAll(server: Server, lines: seq<InputLine>) returns (requests: seq<Message>)
    requires server.RpcValid()
    modifies server`out, server`cancelFlags, server`pendingResponses, server`earlyResponses
    modifies server.pendingResponses.Values, server.activeCancels.Values
    ensures requests == Requests(lines)
    ensures server.Handled(old(server.RpcTables()), Replies(lines))
    ensures server.out == old(server.out) + Rejections(lines)
    ensures server.CancelTables().flags == old(server.CancelTables()).flags + Cancelled(lines)
    ensures server.activeCancels == old(server.activeCancels)
    ensures forall c | c in server.activeCancels.Values ::
              c.err == Struck(old(c.err), Hit(server.activeCancels, Cancelled(lines), c))
  {
    requests := [];
    ghost var (t0, flags0, out0) := (server.RpcTables(), server.CancelTables().flags, server.out);
    for i := 0 to |lines|
      invariant requests == Requests(lines[..i])
      invariant Absorbed(server, t0, flags0, out0, lines[..i])
      invariant server.pendingResponses.Values <= old(server.pendingResponses.Values)
      invariant forall c | c in server.activeCancels.Values ::
                  c.err == Struck(old(c.err), Hit(server.activeCancels, Cancelled(lines[..i]), c))
    {
      assert lines[..i + 1][..i] == lines[..i];
      var request := ReadNext(server, lines, i, t0, flags0, out0);
      if request.Some? {
        requests := requests + [request.value];
      }
      HitNext(server.activeCancels, lines, i);
    }
    assert lines[..|lines|] == lines;
  }
}
