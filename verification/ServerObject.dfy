/** The server's own object: its fields, and the critical sections that update them in place. The
    step systems use the functions these methods are proved against. */
module ServerObject {
  import opened Text
  import opened Paths
  import opened Protocol
  import opened ClientRpc
  import opened Cancels
  import opened Turn

  /** A response channel of capacity one. */
  class Channel {
    var buffer: seq<Reply>

    constructor ()
      ensures buffer == []
    {
      buffer := [];
    }

    method Send(r: Reply)
      requires buffer == []
      modifies this
      ensures buffer == [r]
    {
      buffer := [r];
    }
  }

  // ----- What a series of responses does to the tables -----

  /** handleClientResponse on the tables. */
  ghost function Claimed(t: Tables<Channel>, reply: Reply): Tables<Channel> {
    if HasId(reply.id) then ClaimKey(t, ServerKey(reply.id), reply).0 else t
  }

  ghost function ClaimedAll(t: Tables<Channel>, replies: seq<Reply>): Tables<Channel> {
    if replies == [] then t
    else
      var n := |replies| - 1;
      Claimed(ClaimedAll(t, replies[..n]), replies[n])
  }

  predicate Matches(reply: Reply, key: string) {
    HasId(reply.id) && ServerKey(reply.id) == key
  }

  /** The first response with a key. */
  function FirstReply(replies: seq<Reply>, key: string): Option<Reply> {
    if replies == [] then None
    else
      var n := |replies| - 1;
      var before := FirstReply(replies[..n], key);
      if before.Some? then before else if Matches(replies[n], key) then Some(replies[n]) else None
  }

  function CountReplies(replies: seq<Reply>, key: string): nat {
    if replies == [] then 0
    else
      var n := |replies| - 1;
      CountReplies(replies[..n], key) + (if Matches(replies[n], key) then 1 else 0)
  }

  /** Each waiting call's channel holds the first response with its key; without one the call waits on. */
  ghost predicate Delivered(before: map<string, Channel>, after: map<string, Channel>, replies: seq<Reply>)
    reads before.Values
  {
    forall k | k in before ::
      match FirstReply(replies, k)
      case None => k in after && after[k] == before[k] && before[k].buffer == []
      case Some(r) => before[k] !in after.Values && before[k].buffer == [r]
  }

  /** A key waits on exactly if no response has it; it is early exactly if a response with it was over. */
  lemma {:induction false} ClaimedKeys(t: Tables<Channel>, replies: seq<Reply>, key: string)
    requires key in t.pending ==> key !in t.early
    ensures var (after, count) := (ClaimedAll(t, replies), CountReplies(replies, key));
            && after.counter == t.counter
            && (key in after.pending <==> key in t.pending && count == 0)
            && (key in after.early <==> key in t.early || count > (if key in t.pending then 1 else 0))
    ensures FirstReply(replies, key).Some? <==> CountReplies(replies, key) > 0
  {
    if replies != [] {
      ClaimedKeys(t, replies[..|replies| - 1], key);
    }
  }

  // ----- What happens to the tables while a call waits -----

  /** A response comes in, another call takes its number and registers, or a call is unregistered. */
  datatype Event = Came(reply: Reply) | Joined | Left(id: string)

  function NextKey<C>(t: Tables<C>): string {
    PendingKey(RequestId((t.counter + 1) % WORD))
  }

  /** `ch` is the channel of the call that joins. */
  ghost function Happened(t: Tables<Channel>, event: Event, ch: Channel): Tables<Channel> {
    match event
    case Came(reply) => Claimed(t, reply)
    case Joined => RegisterKey(BumpCounter(t), NextKey(t), ch).0
    case Left(id) => UnregisterKey(t, PendingKey(id))
  }

  ghost function HappenedAll(t: Tables<Channel>, events: seq<Event>, chans: seq<Channel>): Tables<Channel>
    requires |chans| == |events|
  {
    if events == [] then t
    else
      var n := |events| - 1;
      Happened(HappenedAll(t, events[..n], chans[..n]), events[n], chans[n])
  }

  function CounterOf(counter: nat, events: seq<Event>): nat {
    if events == [] then counter
    else
      var before := CounterOf(counter, events[..|events| - 1]);
      if events[|events| - 1].Joined? then (before + 1) % WORD else before
  }

  /** The key of the call that joins after these events. */
  function JoinKey(counter: nat, events: seq<Event>): string {
    PendingKey(RequestId((CounterOf(counter, events) + 1) % WORD))
  }

  /** What becomes of a call that waits under a key: it waits on, it gets a response, or another call
      takes its place in the table. */
  datatype Fate = Waiting | Got(reply: Reply) | Displaced

  function FateOf(counter: nat, key: string, events: seq<Event>): Fate {
    if events == [] then Waiting
    else
      var n := |events| - 1;
      var before := FateOf(counter, key, events[..n]);
      if !before.Waiting? then before
      else match events[n]
           case Came(reply) => if Matches(reply, key) then Got(reply) else Waiting
           case Joined => if JoinKey(counter, events[..n]) == key then Displaced else Waiting
           case Left(id) => if PendingKey(id) == key then Displaced else Waiting
  }

  function FirstFate(early: Option<Reply>): Fate {
    match early
    case Some(reply) => Got(reply)
    case None => Waiting
  }

  function FateAfter(early: Option<Reply>, counter: nat, key: string, events: seq<Event>): Fate {
    if early.Some? then Got(early.value) else FateOf(counter, key, events)
  }

  /** The number that the next call takes. */
  lemma {:induction false} CounterAfter(t: Tables<Channel>, events: seq<Event>, chans: seq<Channel>)
    requires |chans| == |events|
    ensures HappenedAll(t, events, chans).counter == CounterOf(t.counter, events)
  {
    if events != [] {
      CounterAfter(t, events[..|events| - 1], chans[..|events| - 1]);
    }
  }

  lemma JoinsNext(t: Tables<Channel>, events: seq<Event>, chans: seq<Channel>)
    requires |chans| == |events|
    ensures NextKey(HappenedAll(t, events, chans)) == JoinKey(t.counter, events)
  {
    hide CounterOf, HappenedAll, PendingKey, RequestId;
    CounterAfter(t, events, chans);
  }

  lemma EventsNext(t: Tables<Channel>, events: seq<Event>, i: nat, chans: seq<Channel>, ch: Channel)
    requires i < |events| && |chans| == i
    ensures HappenedAll(t, events[..i + 1], chans + [ch])
            == Happened(HappenedAll(t, events[..i], chans), events[i], ch)
  {
    hide CounterOf, Happened, FateOf, RepliesOf, Claimed;
    assert events[..i + 1][..i] == events[..i] && (chans + [ch])[..i] == chans;
  }

  /** No other call with this key joins or leaves. */
  predicate Untouched(counter: nat, key: string, events: seq<Event>) {
    forall n | 0 <= n < |events| ::
      && (events[n].Joined? ==> JoinKey(counter, events[..n]) != key)
      && (events[n].Left? ==> PendingKey(events[n].id) != key)
  }

  function RepliesOf(events: seq<Event>): seq<Reply> {
    if events == [] then []
    else
      var n := |events| - 1;
      RepliesOf(events[..n]) + (if events[n].Came? then [events[n].reply] else [])
  }

  lemma UntouchedBefore(counter: nat, key: string, events: seq<Event>)
    requires events != [] && Untouched(counter, key, events)
    ensures Untouched(counter, key, events[..|events| - 1])
  {
    var less := events[..|events| - 1];
    forall n | 0 <= n < |less|
      ensures less[n].Joined? ==> JoinKey(counter, less[..n]) != key
      ensures less[n].Left? ==> PendingKey(less[n].id) != key
    {
      assert less[n] == events[n] && less[..n] == events[..n];
    }
  }

  lemma RepliesNext(events: seq<Event>, key: string)
    requires events != []
    ensures var (n, last) := (|events| - 1, events[|events| - 1]);
            var (before, hit) := (RepliesOf(events[..n]), last.Came? && Matches(last.reply, key));
            && CountReplies(RepliesOf(events), key) == CountReplies(before, key) + (if hit then 1 else 0)
            && FirstReply(RepliesOf(events), key)
               == if FirstReply(before, key).None? && hit then Some(last.reply) else FirstReply(before, key)
  {
    var n := |events| - 1;
    var before := RepliesOf(events[..n]);
    if events[n].Came? {
      assert RepliesOf(events)[..|before|] == before;
    } else {
      assert RepliesOf(events) == before;
    }
  }

  /** A call that no other call with its key disturbs gets the first response with its key, or waits on. */
  lemma {:induction false} UntouchedFate(counter: nat, key: string, events: seq<Event>)
    requires Untouched(counter, key, events)
    ensures FateOf(counter, key, events) == FirstFate(FirstReply(RepliesOf(events), key))
  {
    hide CounterOf;
    if events != [] {
      UntouchedBefore(counter, key, events);
      UntouchedFate(counter, key, events[..|events| - 1]);
      RepliesNext(events, key);
    }
  }

  /** A key that no call takes or gives up meanwhile waits on exactly if no response has it, and is early
      exactly if it was before or more responses had it than a call was waiting for. */
  lemma {:induction false} HappenedKeys(t: Tables<Channel>, events: seq<Event>, chans: seq<Channel>, key: string)
    requires |chans| == |events| && Untouched(t.counter, key, events)
    requires key in t.pending ==> key !in t.early
    ensures var (after, count) := (HappenedAll(t, events, chans), CountReplies(RepliesOf(events), key));
            && (key in after.pending <==> key in t.pending && count == 0)
            && (key in after.early <==> key in t.early || count > (if key in t.pending then 1 else 0))
  {
    hide CounterOf, Happened;
    if events != [] {
      var n := |events| - 1;
      UntouchedBefore(t.counter, key, events);
      HappenedKeys(t, events[..n], chans[..n], key);
      CounterAfter(t, events[..n], chans[..n]);
      RepliesNext(events, key);
      EventKeys(HappenedAll(t, events[..n], chans[..n]), events[n], chans[n], key);
    }
  }

  lemma EventKeys(t: Tables<Channel>, event: Event, ch: Channel, key: string)
    requires (event.Joined? ==> NextKey(t) != key) && (event.Left? ==> PendingKey(event.id) != key)
    ensures var (after, hit) := (Happened(t, event, ch), event.Came? && Matches(event.reply, key));
            && (key in after.pending <==> key in t.pending && !hit)
            && (key in after.early <==> key in t.early || (hit && key !in t.pending))
  {
  }

  /** The context of one prompt, derived from the context of Serve. */
  class PromptContext {
    var err: Ctx

    constructor (parent: Ctx)
      ensures err == parent
    {
      err := parent;
    }

    /** The context it is derived from ends. */
    method End(parent: Ctx)
      modifies this
      ensures err == if old(err).Live? then parent else old(err)
    {
      if err.Live? {
        err := parent;
      }
    }

    method Cancel()
      modifies this
      ensures err == if old(err).Live? then Canceled else old(err)
    {
      if err.Live? {
        err := Canceled;
      }
    }
  }

  /** sessionState; prompts and session/load share the object. */
  class Session {
    var cwd: string
    var mcp: seq<Mcp>

    constructor (cwd: string, mcp: seq<Mcp>)
      ensures View() == Snapshot(cwd, mcp)
    {
      this.cwd := cwd;
      this.mcp := mcp;
    }

    function View(): Snapshot
      reads this
    {
      Snapshot(cwd, mcp)
    }

    method Rebind(cwd: string, mcp: seq<Mcp>)
      modifies this
      ensures View() == Snapshot(cwd, mcp)
    {
      this.cwd := cwd;
      this.mcp := mcp;
    }
  }

  class Server {
    var requestIDCounter: nat
    var pendingResponses: map<string, Channel>
    var earlyResponses: map<string, Reply>
    var cancelFlags: map<string, bool>
    var activeCancels: map<string, PromptContext>
    var sessions: map<string, Session>
    var clientCaps: Caps
    var out: seq<Payload>

    constructor ()
      ensures RpcValid() && SessionsApart()
      ensures RpcTables() == Tables(0, map[], map[]) && CancelTables() == Cancels({}, map[])
      ensures Bound() == map[] && out == []
    {
      requestIDCounter := 0;
      pendingResponses := map[];
      earlyResponses := map[];
      cancelFlags := map[];
      activeCancels := map[];
      sessions := map[];
      clientCaps := Caps(false, false, false);
      out := [];
    }

    // ----- Requests to the client -----

    ghost function RpcTables(): Tables<Channel>
      reads this`requestIDCounter, this`pendingResponses, this`earlyResponses
    {
      Tables(requestIDCounter, pendingResponses, earlyResponses)
    }

    /** Waiting channels are empty and distinct, and share no key with early responses. */
    ghost predicate RpcValid()
      reads this`requestIDCounter, this`pendingResponses, this`earlyResponses, pendingResponses.Values
    {
      && requestIDCounter < WORD
      && (forall k | k in pendingResponses :: pendingResponses[k].buffer == [] && k !in earlyResponses)
      && (forall k, l | k in pendingResponses && l in pendingResponses && k != l ::
            pendingResponses[k] != pendingResponses[l])
    }

    method NextRequestID() returns (id: string)
      requires RpcValid()
      modifies this`requestIDCounter
      ensures RpcValid()
      ensures RpcTables() == BumpCounter(old(RpcTables())) && id == RequestId(requestIDCounter)
    {
      requestIDCounter := (requestIDCounter + 1) % WORD;
      id := "acp-client-" + Decimal(requestIDCounter);
    }

    method RegisterPendingResponse(id: string) returns (ch: Channel)
      requires RpcValid()
      modifies this`pendingResponses, this`earlyResponses
      ensures RpcValid() && fresh(ch)
      ensures var (t, early) := RegisterKey(old(RpcTables()), PendingKey(id), ch);
              RpcTables() == t && ch.buffer == if early.Some? then [early.value] else []
    {
      var key := "s:" + id;
      ch := new Channel();
      if key in earlyResponses {
        var early := earlyResponses[key];
        earlyResponses := earlyResponses - {key};
        ch.Send(early);
        return;
      }
      pendingResponses := pendingResponses[key := ch];
    }

    method UnregisterPendingResponse(id: string)
      requires RpcValid()
      modifies this`pendingResponses
      ensures RpcValid() && RpcTables() == UnregisterKey(old(RpcTables()), PendingKey(id))
    {
      pendingResponses := pendingResponses - {"s:" + id};
    }

    /** The send cannot block: the claimed channel is empty. */
    method HandleClientResponse(msg: Reply)
      requires RpcValid()
      modifies this`pendingResponses, this`earlyResponses, pendingResponses.Values
      ensures RpcValid() && pendingResponses.Values <= old(pendingResponses.Values)
      ensures !HasId(msg.id) ==> RpcTables() == old(RpcTables())
      ensures HasId(msg.id) ==>
                var (t, ch) := ClaimKey(old(RpcTables()), ServerKey(msg.id), msg);
                RpcTables() == t && (ch.Some? ==> ch.value.buffer == [msg])
    {
      var key := ServerKey(msg.id);
      if key == "" {
        return;
      }
      if key in pendingResponses {
        var ch := pendingResponses[key];
        pendingResponses := pendingResponses - {key};
        ch.Send(msg);
      } else {
        earlyResponses := earlyResponses[key := msg];
      }
    }

    /** These responses have been handled since the tables were t0. */
    ghost predicate Handled(t0: Tables<Channel>, replies: seq<Reply>)
      reads this`requestIDCounter, this`pendingResponses, this`earlyResponses, pendingResponses.Values,
            t0.pending.Values
    {
      && RpcValid() && RpcTables() == ClaimedAll(t0, replies)
      && pendingResponses.Keys <= t0.pending.Keys && Delivered(t0.pending, pendingResponses, replies)
    }

    method HandleNext(reply: Reply, ghost t0: Tables<Channel>, ghost replies: seq<Reply>)
      requires Handled(t0, replies)
      modifies this`pendingResponses, this`earlyResponses, pendingResponses.Values
      ensures Handled(t0, replies + [reply]) && pendingResponses.Values <= old(pendingResponses.Values)
    {
      assert (replies + [reply])[..|replies|] == replies;
      HandleClientResponse(reply);
    }

    /** What the reader does with the responses that come in one after the other. */
    method HandleClientResponses(replies: seq<Reply>)
      requires RpcValid()
      modifies this`pendingResponses, this`earlyResponses, pendingResponses.Values
      ensures Handled(old(RpcTables()), replies) && pendingResponses.Values <= old(pendingResponses.Values)
    {
      ghost var t0 := RpcTables();
      for i := 0 to |replies|
        invariant Handled(t0, replies[..i]) && pendingResponses.Values <= old(pendingResponses.Values)
      {
        assert replies[..i + 1] == replies[..i] + [replies[i]];
        HandleNext(replies[i], t0, replies[..i]);
      }
      assert replies[..|replies|] == replies;
    }

    /** Where the channel of a call stands that has registered under a key. */
    ghost predicate Stands(ch: Channel, key: string, fate: Fate)
      reads this`pendingResponses, ch
    {
      match fate
      case Waiting => key in pendingResponses && pendingResponses[key] == ch && ch.buffer == []
      case Got(reply) => ch !in pendingResponses.Values && ch.buffer == [reply]
      case Displaced => ch !in pendingResponses.Values && ch.buffer == []
    }

    /** One event; the call with channel `own` waits or has waited under `key`. */
    method HandleEvent(event: Event, ghost own: Channel, ghost key: string, ghost fate: Fate)
      returns (ghost ch: Channel)
      requires RpcValid() && Stands(own, key, fate)
      modifies this`requestIDCounter, this`pendingResponses, this`earlyResponses, pendingResponses.Values
      ensures RpcValid() && RpcTables() == Happened(old(RpcTables()), event, ch)
      ensures fresh(pendingResponses.Values - old(pendingResponses.Values))
      ensures Stands(own, key,
                     if !fate.Waiting? then fate
                     else match event
                          case Came(reply) => if Matches(reply, key) then Got(reply) else Waiting
                          case Joined => if NextKey(old(RpcTables())) == key then Displaced else Waiting
                          case Left(id) => if PendingKey(id) == key then Displaced else Waiting)
    {
      ch := own;
      match event
      case Came(reply) => HandleClientResponse(reply);
      case Joined =>
        var id := NextRequestID();
        var other := RegisterPendingResponse(id);
        ch := other;
      case Left(id) => UnregisterPendingResponse(id);
    }

    /** What a call that has registered lives through until it is done waiting. */
    method HandleEvents(events: seq<Event>, ghost own: Channel, ghost key: string, ghost early: Option<Reply>)
      returns (ghost chans: seq<Channel>)
      requires RpcValid() && Stands(own, key, FirstFate(early))
      modifies this`requestIDCounter, this`pendingResponses, this`earlyResponses, pendingResponses.Values
      ensures RpcValid() && |chans| == |events| && RpcTables() == HappenedAll(old(RpcTables()), events, chans)
      ensures fresh(pendingResponses.Values - old(pendingResponses.Values))
      ensures Stands(own, key, FateAfter(early, old(requestIDCounter), key, events))
    {
      chans := [];
      for i := 0 to |events|
        invariant RpcValid() && |chans| == i && RpcTables() == HappenedAll(old(RpcTables()), events[..i], chans)
        invariant fresh(pendingResponses.Values - old(pendingResponses.Values))
        invariant Stands(own, key, FateAfter(early, old(requestIDCounter), key, events[..i]))
      {
        ghost var ch := HandleEvent(events[i], own, key, FateAfter(early, old(requestIDCounter), key, events[..i]));
        JoinsNext(old(RpcTables()), events[..i], chans);
        EventsNext(old(RpcTables()), events, i, chans, ch);
        assert events[..i + 1][..i] == events[..i];
        chans := chans + [ch];
      }
      assert events[..|events|] == events;
    }

    // ----- Cancellation -----

    ghost function CancelTables(): Cancels<PromptContext>
      reads this`cancelFlags, this`activeCancels
    {
      Cancels((set sid | sid in cancelFlags && cancelFlags[sid]), activeCancels)
    }

    /** The flag goes up, and the prompt that is registered for the session, and no other, is cancelled. */
    method CancelSession(sid: string)
      modifies this`cancelFlags, if sid in activeCancels then {activeCancels[sid]} else {}
      ensures var (t, cancel) := RaiseFlag(old(CancelTables()), sid);
              CancelTables() == t
              && forall c | c in activeCancels.Values ::
                   c.err == if cancel == Some(c) && old(c.err).Live? then Canceled else old(c.err)
    {
      cancelFlags := cancelFlags[sid := true];
      if sid in activeCancels {
        var cancel := activeCancels[sid];
        cancel.Cancel();
      }
    }

    method SetActiveCancel(sid: string, cancel: PromptContext)
      modifies this`activeCancels
      ensures CancelTables() == SetActive(old(CancelTables()), sid, cancel)
    {
      activeCancels := activeCancels[sid := cancel];
    }

    method ClearActiveCancel(sid: string)
      modifies this`activeCancels
      ensures CancelTables() == ClearActive(old(CancelTables()), sid)
    {
      activeCancels := activeCancels - {sid};
    }

    method ClearCancelFlag(sid: string)
      modifies this`cancelFlags
      ensures CancelTables() == ClearFlag(old(CancelTables()), sid)
    {
      cancelFlags := cancelFlags - {sid};
    }

    method ConsumeCancelFlag(sid: string) returns (up: bool)
      modifies this`cancelFlags
      ensures (CancelTables(), up) == ConsumeFlag(old(CancelTables()), sid)
    {
      up := sid in cancelFlags && cancelFlags[sid];
      cancelFlags := cancelFlags - {sid};
      assert CancelTables().flags == old(CancelTables()).flags - {sid};
    }

    // ----- Sessions -----

    ghost predicate SessionsApart()
      reads this`sessions
    {
      forall a, b | a in sessions && b in sessions && a != b :: sessions[a] != sessions[b]
    }

    ghost function Bound(): map<string, Snapshot>
      reads this`sessions, sessions.Values
    {
      map sid | sid in sessions :: sessions[sid].View()
    }

    method Write(line: Payload)
      modifies this`out
      ensures out == old(out) + [line]
    {
      out := out + [line];
    }

    method AddSession(sid: string, cwd: string, mcp: seq<Mcp>)
      requires SessionsApart() && sid !in sessions
      modifies this`sessions, this`cancelFlags
      ensures SessionsApart()
      ensures Bound() == old(Bound())[sid := Snapshot(cwd, mcp)]
      ensures CancelTables() == ClearFlag(old(CancelTables()), sid)
    {
      var session := new Session(cwd, mcp);
      sessions := sessions[sid := session];
      ClearCancelFlag(sid);
    }

    method HandleNewSession(id: Id, params: Params, newId: string)
      requires SessionsApart() && newId !in sessions
      modifies this`sessions, this`cancelFlags, this`out
      ensures SessionsApart()
      ensures var entry := EntryOf(Method.NewSession, params);
              if entry.NamingSession? then
                && Bound() == old(Bound())[newId := Snapshot(params.cwd, params.mcp)]
                && CancelTables() == ClearFlag(old(CancelTables()), newId)
                && out == old(out) + [Respond(NormalizeId(id), Plain)]
              else
                entry.Answering? && Bound() == old(Bound()) && CancelTables() == old(CancelTables())
                && out == old(out) + [Respond(NormalizeId(id), entry.answer)]
    {
      if params.BadJson? || params.cwd == "" || !IsAbs(params.cwd) {
        Write(Respond(NormalizeId(id), Failure(INVALID_PARAMS)));
        return;
      }
      AddSession(newId, params.cwd, params.mcp);
      Write(Respond(NormalizeId(id), Plain));
    }

    /** The session object stays the same: a prompt that has looked it up sees the new binding. */
    method RebindSession(sid: string, cwd: string, mcp: seq<Mcp>)
      requires SessionsApart() && sid in sessions
      modifies this`cancelFlags, sessions[sid]
      ensures Bound() == old(Bound())[sid := Snapshot(cwd, mcp)]
      ensures CancelTables() == ClearFlag(old(CancelTables()), sid)
    {
      var session := sessions[sid];
      session.Rebind(cwd, mcp);
      assert forall k | k in sessions && k != sid :: sessions[k] != session;
      ClearCancelFlag(sid);
    }

    /** session/load once its parameters are checked. */
    method LoadSession(id: Id, sid: string, cwd: string, mcp: seq<Mcp>)
      requires SessionsApart()
      modifies this`cancelFlags, this`out, sessions.Values
      ensures SessionsApart()
      ensures if sid in sessions then
                && Bound() == old(Bound())[sid := Snapshot(cwd, mcp)]
                && CancelTables() == ClearFlag(old(CancelTables()), sid)
                && out == old(out) + [Respond(NormalizeId(id), Plain)]
              else
                Bound() == old(Bound()) && CancelTables() == old(CancelTables())
                && out == old(out) + [Respond(NormalizeId(id), Failure(INVALID_PARAMS))]
    {
      if sid !in sessions {
        Write(Respond(NormalizeId(id), Failure(INVALID_PARAMS)));
        return;
      }
      RebindSession(sid, cwd, mcp);
      Write(Respond(NormalizeId(id), Plain));
    }

    method HandleLoadSession(id: Id, params: Params)
      requires SessionsApart()
      modifies this`cancelFlags, this`out, sessions.Values
      ensures SessionsApart()
      ensures var entry := EntryOf(Method.LoadSession, params);
              if entry.FindingSession? && TrimSpace(params.sessionId) in sessions then
                var sid := TrimSpace(params.sessionId);
                && Bound() == old(Bound())[sid := Snapshot(params.cwd, params.mcp)]
                && CancelTables() == ClearFlag(old(CancelTables()), sid)
                && out == old(out) + [Respond(NormalizeId(id), Plain)]
              else
                Bound() == old(Bound()) && CancelTables() == old(CancelTables())
                && out == old(out) + [Respond(NormalizeId(id), Failure(INVALID_PARAMS))]
    {
      if params.BadJson? || TrimSpace(params.sessionId) == "" || Blank(params.cwd) || !IsAbs(params.cwd) {
        Write(Respond(NormalizeId(id), Failure(INVALID_PARAMS)));
        return;
      }
      LoadSession(id, TrimSpace(params.sessionId), params.cwd, params.mcp);
    }

    method HandleInitialize(id: Id, params: Params)
      modifies this`clientCaps, this`out
      ensures clientCaps == if params.BadJson? then old(clientCaps) else params.caps
      ensures out == old(out) + [Respond(NormalizeId(id), if params.BadJson? then Failure(INVALID_PARAMS) else Plain)]
    {
      if params.BadJson? {
        Write(Respond(NormalizeId(id), Failure(INVALID_PARAMS)));
        return;
      }
      clientCaps := params.caps;
      Write(Respond(NormalizeId(id), Plain));
    }
  }
}
