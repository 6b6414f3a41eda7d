/** The objects a prompt works with, in the code's own form: the update writer, the tool invoker and
    the loops around them. */
module PromptObjects {
  import opened Text
  import opened Protocol
  import opened ClientRpc
  import opened Tools
  import opened Cancels
  import opened Turn
  import opened TurnProofs
  import opened ServerObject
  import RP = ClientRpcProofs

  // ----- Texts and names -----

  lemma {:induction false} PromptLinesAppend(blocks: seq<Block>, block: Block)
    ensures PromptLines(blocks + [block]) == PromptLines(blocks) + TextLine(block)
  {
    if blocks == [] {
      assert [] + [block] == [block] && [block][1..] == [] && PromptLines([]) == [];
      assert TextLine(block) + [] == TextLine(block) == [] + TextLine(block);
    } else {
      assert (blocks + [block])[1..] == blocks[1..] + [block];
      PromptLinesAppend(blocks[1..], block);
    }
  }

  method ExtractText(blocks: seq<Block>) returns (text: string)
    ensures text == ExtractPromptText(blocks)
  {
    var lines: seq<string> := [];
    for i := 0 to |blocks|
      invariant lines == PromptLines(blocks[..i])
    {
      assert blocks[..i + 1] == blocks[..i] + [blocks[i]];
      PromptLinesAppend(blocks[..i], blocks[i]);
      if blocks[i].kind == "text" {
        var trimmed := TrimSpace(blocks[i].text);
        if trimmed != "" {
          lines := lines + [trimmed];
        }
      }
    }
    assert blocks[..|blocks|] == blocks;
    text := Join(lines, "\n");
  }

  method ToolInfos(caps: Caps) returns (names: seq<string>)
    ensures names == ToolNames(caps)
  {
    names := [];
    if caps.readFile {
      names := names + [READ_FILE];
    }
    if caps.writeFile {
      names := names + [WRITE_FILE];
    }
    if caps.terminal {
      names := names + [TERMINAL_CREATE, TERMINAL_OUTPUT, TERMINAL_WAIT, TERMINAL_KILL, TERMINAL_RELEASE];
    }
  }

  lemma {:induction false} NonBlankAppend(mcp: seq<Mcp>, m: Mcp)
    ensures NonBlankNames(mcp + [m]) == NonBlankNames(mcp) + NameOf(m)
  {
    if mcp == [] {
      assert [] + [m] == [m] && [m][1..] == [] && NonBlankNames([]) == [];
      assert NameOf(m) + [] == NameOf(m) == [] + NameOf(m);
    } else {
      assert (mcp + [m])[1..] == mcp[1..] + [m];
      NonBlankAppend(mcp[1..], m);
    }
  }

  method McpNames(mcp: seq<Mcp>) returns (names: seq<string>)
    ensures names == SortStrings(NonBlankNames(mcp))
  {
    names := [];
    for i := 0 to |mcp|
      invariant names == NonBlankNames(mcp[..i])
    {
      assert mcp[..i + 1] == mcp[..i] + [mcp[i]];
      NonBlankAppend(mcp[..i], mcp[i]);
      BlankMeansTrimmedEmpty(mcp[i].name);
      var name := TrimSpace(mcp[i].name);
      if name != "" {
        names := names + [name];
      }
    }
    assert mcp[..|mcp|] == mcp;
    names := SortStrings(names);
  }

  /** A name that survives trimming unchanged. */
  predicate Trimmed(name: string) {
    name != "" && TrimSpace(name) == name
  }

  predicate Plain(name: string) {
    name != "" && 'a' <= name[0] <= 'z' && 'a' <= name[|name| - 1] <= 'z'
  }

  lemma PlainIsTrimmed(name: string)
    requires Plain(name)
    ensures Trimmed(name)
  {
    TrimRooted(name);
  }

  lemma ToolNamesTrimmed(caps: Caps, name: string)
    requires name in ToolNames(caps)
    ensures Trimmed(name)
  {
    hide Trimmed;
    NamesDiffer();
    PlainIsTrimmed(name);
  }

  /** The commands loop: every tool name is trimmed and kept. */
  method CommandList(caps: Caps) returns (commands: seq<string>)
    ensures commands == CommandNames(caps)
  {
    var infos := ToolInfos(caps);
    var sorted := SortStrings(infos);
    SortedAreTrimmed(caps);
    assert AllTrimmed(sorted);
    commands := [];
    for i := 0 to |sorted|
      invariant commands == sorted[..i]
    {
      assert Trimmed(sorted[i]);
      var name := TrimSpace(sorted[i]);
      if name != "" {
        commands := commands + [name];
      }
    }
  }

  method ConfigList(snapshot: Snapshot, caps: Caps) returns (config: seq<ConfigOption>)
    ensures config == SessionConfig(snapshot, caps)
  {
    var names := McpNames(snapshot.mcp);
    config := [ConfigOption("cwd", Text(snapshot.cwd)),
               ConfigOption("mcp_servers", Names(names)),
               ConfigOption("fs_read_text_file_enabled", Flag(caps.readFile)),
               ConfigOption("fs_write_text_file_enabled", Flag(caps.writeFile)),
               ConfigOption("terminal_enabled", Flag(caps.terminal))];
  }

  ghost predicate AllTrimmed(names: seq<string>) {
    forall i | 0 <= i < |names| :: Trimmed(names[i])
  }

  lemma SortedAreTrimmed(caps: Caps)
    ensures AllTrimmed(CommandNames(caps))
  {
    var (names, sorted) := (ToolNames(caps), CommandNames(caps));
    SortStringsSorts(names);
    forall i | 0 <= i < |sorted| ensures Trimmed(sorted[i]) {
      assert sorted[i] in multiset(sorted);
      assert sorted[i] in multiset(names);
      ToolNamesTrimmed(caps, sorted[i]);
    }
  }

  /** session_info_update has a title and a time exactly if they are not blank. */
  method SessionInfo(title: string, updatedAt: string) returns (update: map<string, string>)
    ensures update.Keys == {"sessionUpdate"} + (if Blank(title) then {} else {"title"})
            + (if Blank(updatedAt) then {} else {"updatedAt"})
    ensures update["sessionUpdate"] == "session_info_update"
    ensures !Blank(title) ==> update["title"] == title
    ensures !Blank(updatedAt) ==> update["updatedAt"] == updatedAt
  {
    BlankMeansTrimmedEmpty(title);
    BlankMeansTrimmedEmpty(updatedAt);
    update := map["sessionUpdate" := "session_info_update"];
    assert |"sessionUpdate"| != |"title"| && |"updatedAt"| != |"title"| && |"updatedAt"| != |"sessionUpdate"|;
    if TrimSpace(title) != "" {
      update := update["title" := title];
    }
    if TrimSpace(updatedAt) != "" {
      update := update["updatedAt" := updatedAt];
    }
  }

  // ----- The update writer -----

  /** What a writer call does to the output and to chunkEmitted. */
  predicate Served(call: WriterCall, live: bool, sid: string, ok: bool,
                   before: seq<Payload>, after: seq<Payload>, emitted: bool, emittedAfter: bool)
  {
    match Offer(call, live)
    case Silent => ok && after == before && emittedAfter == emitted
    case Rejected => !ok && after == before && emittedAfter == emitted
    case Accepted(update) =>
      ok && after == before + [Notify(sid, update)] && emittedAfter == (emitted || call.AgentMessageChunk?)
  }

  /** How a prompt's context ends: the reader handles a session/cancel for its session, or the context of
      Serve ends. */
  datatype Ending = SessionCancel | ServeEnds(err: Ctx)

  predicate IsEnding(ending: Ending) {
    ending.ServeEnds? ==> !ending.err.Live?
  }

  function TablesAfter<F>(t: Cancels<F>, sid: string, now: bool, ending: Ending): Cancels<F> {
    if now && ending.SessionCancel? then RaiseFlag(t, sid).0 else t
  }

  function CtxAfter(err: Ctx, now: bool, ending: Ending): Ctx {
    if !now || !err.Live? then err
    else match ending
         case SessionCancel => Canceled
         case ServeEnds(end) => end
  }

  class PromptUpdateWriter {
    const server: Server
    const sessionId: string
    const ctx: PromptContext
    var chunkEmitted: bool

    constructor (server: Server, sessionId: string, ctx: PromptContext)
      ensures this.server == server && this.sessionId == sessionId && this.ctx == ctx && !chunkEmitted
    {
      this.server := server;
      this.sessionId := sessionId;
      this.ctx := ctx;
      chunkEmitted := false;
    }

    method UserMessageChunk(text: string) returns (ok: bool)
      modifies server`out
      ensures Served(WriterCall.UserMessageChunk(text), ctx.err.Live?, sessionId, ok, old(server.out), server.out,
                     chunkEmitted, chunkEmitted)
    {
      BlankMeansTrimmedEmpty(text);
      if TrimSpace(text) == "" {
        return true;
      }
      if !ctx.err.Live? {
        return false;
      }
      server.Write(Notify(sessionId, UserChunk(text)));
      ok := true;
    }

    method AgentMessageChunk(text: string) returns (ok: bool)
      modifies server`out, this`chunkEmitted
      ensures Served(WriterCall.AgentMessageChunk(text), ctx.err.Live?, sessionId, ok,
                     old(server.out), server.out, old(chunkEmitted), chunkEmitted)
    {
      BlankMeansTrimmedEmpty(text);
      if TrimSpace(text) == "" {
        return true;
      }
      if !ctx.err.Live? {
        return false;
      }
      chunkEmitted := true;
      server.Write(Notify(sessionId, AgentChunk(text)));
      ok := true;
    }

    method AgentThoughtChunk(text: string) returns (ok: bool)
      modifies server`out
      ensures Served(WriterCall.AgentThoughtChunk(text), ctx.err.Live?, sessionId, ok, old(server.out), server.out,
                     chunkEmitted, chunkEmitted)
    {
      BlankMeansTrimmedEmpty(text);
      if TrimSpace(text) == "" {
        return true;
      }
      if !ctx.err.Live? {
        return false;
      }
      server.Write(Notify(sessionId, ThoughtChunk(text)));
      ok := true;
    }

    method Plan(entries: seq<PlanEntry>) returns (ok: bool)
      modifies server`out
      ensures Served(WriterCall.Plan(entries), ctx.err.Live?, sessionId, ok, old(server.out), server.out, chunkEmitted,
                     chunkEmitted)
    {
      if !ctx.err.Live? {
        return false;
      }
      server.Write(Notify(sessionId, PlanUpdate(entries)));
      ok := true;
    }

    method AvailableCommands(names: seq<string>) returns (ok: bool)
      modifies server`out
      ensures Served(WriterCall.AvailableCommands(names), ctx.err.Live?, sessionId, ok, old(server.out), server.out,
                     chunkEmitted, chunkEmitted)
    {
      if !ctx.err.Live? {
        return false;
      }
      server.Write(Notify(sessionId, CommandsUpdate(names)));
      ok := true;
    }

    method CurrentMode(mode: string) returns (ok: bool)
      modifies server`out
      ensures Served(WriterCall.CurrentMode(mode), ctx.err.Live?, sessionId, ok, old(server.out), server.out,
                     chunkEmitted, chunkEmitted)
    {
      BlankMeansTrimmedEmpty(mode);
      if TrimSpace(mode) == "" {
        return false;
      }
      if !ctx.err.Live? {
        return false;
      }
      server.Write(Notify(sessionId, ModeUpdate(mode)));
      ok := true;
    }

    method ConfigOptions(options: seq<ConfigOption>) returns (ok: bool)
      modifies server`out
      ensures Served(WriterCall.ConfigOptions(options), ctx.err.Live?, sessionId, ok, old(server.out), server.out,
                     chunkEmitted, chunkEmitted)
    {
      if !ctx.err.Live? {
        return false;
      }
      server.Write(Notify(sessionId, ConfigUpdate(options)));
      ok := true;
    }

    /** Raw leaves chunkEmitted alone, whatever the update is. */
    method Raw(update: Option<RawUpdate>) returns (ok: bool)
      modifies server`out
      ensures Served(WriterCall.Raw(update), ctx.err.Live?, sessionId, ok, old(server.out), server.out, chunkEmitted,
                     chunkEmitted)
    {
      if !ctx.err.Live? {
        return false;
      }
      if update.None? {
        return false;
      }
      BlankMeansTrimmedEmpty(update.value.kind);
      if TrimSpace(update.value.kind) == "" {
        return false;
      }
      server.Write(Notify(sessionId, Custom(update.value)));
      ok := true;
    }

    /** The prompt's cancel function is the one registered for its session. */
    ghost predicate Registered()
      reads server`activeCancels
    {
      sessionId in server.activeCancels && server.activeCancels[sessionId] == ctx
    }

    /** The context of the prompt may end between any two steps. */
    method Interrupt(now: bool, ending: Ending)
      requires Registered()
      modifies server`cancelFlags, ctx
      ensures server.CancelTables() == TablesAfter(old(server.CancelTables()), sessionId, now, ending)
      ensures ctx.err == CtxAfter(old(ctx.err), now, ending)
    {
      if now {
        match ending
        case SessionCancel => server.CancelSession(sessionId);
        case ServeEnds(err) => ctx.End(err);
      }
    }

    /** The first two updates of the announcement. */
    method EmitModeAndCommands(tools: Caps, cut: nat, ending: Ending, ghost updates: seq<Update>)
      returns (ok: bool, ghost passed: nat)
      requires Registered() && IsEnding(ending) && |updates| == 3
      requires updates[0] == ModeUpdate("default") && updates[1] == CommandsUpdate(CommandNames(tools))
      modifies server`out, server`cancelFlags, ctx
      ensures passed == (if old(ctx.err).Live? then (if cut < 2 then cut else 2) else 0) && (ok <==> passed == 2)
      ensures server.out == old(server.out) + Notes(sessionId, updates[..passed])
      ensures var reached := cut == 0 || (cut < 2 && old(ctx.err).Live?);
              && server.CancelTables() == TablesAfter(old(server.CancelTables()), sessionId, reached, ending)
              && ctx.err == CtxAfter(old(ctx.err), reached, ending)
    {
      DefaultIsNotBlank();
      ghost var out := server.out;
      NoNotes(out, sessionId, updates);
      Interrupt(cut == 0, ending);
      ok := CurrentMode("default");
      if !ok {
        return ok, 0;
      }
      NoteNext(out, sessionId, updates, 0);
      var commands := CommandList(tools);
      Interrupt(cut == 1, ending);
      ok := AvailableCommands(commands);
      if !ok {
        return ok, 1;
      }
      NoteNext(out, sessionId, updates, 1);
      passed := 2;
    }

    /** The context ends just before check number `cut`, if the code gets there. The announcement is mode,
        commands and configuration, cut off at the first check that finds the context ended. */
    method EmitSessionContextUpdates(snapshot: Snapshot, tools: Caps, cut: nat, ending: Ending)
      returns (ok: bool, ghost passed: nat)
      requires Registered() && IsEnding(ending)
      modifies server`out, server`cancelFlags, ctx
      ensures passed == (if old(ctx.err).Live? then (if cut < 3 then cut else 3) else 0) && (ok <==> passed == 3)
      ensures server.out
              == old(server.out) + Notes(sessionId, ContextUpdates(snapshot, tools, server.clientCaps)[..passed])
      ensures var reached := cut == 0 || (cut < 3 && old(ctx.err).Live?);
              && server.CancelTables() == TablesAfter(old(server.CancelTables()), sessionId, reached, ending)
              && ctx.err == CtxAfter(old(ctx.err), reached, ending)
    {
      ghost var updates := ContextUpdates(snapshot, tools, server.clientCaps);
      ghost var out := server.out;
      ok, passed := EmitModeAndCommands(tools, cut, ending, updates);
      if !ok {
        return;
      }
      var config := ConfigList(snapshot, server.clientCaps);
      Interrupt(cut == 2, ending);
      ok := ConfigOptions(config);
      NoteNext(out, sessionId, updates, 2);
      passed := if ok then 3 else 2;
    }
  }

  function ContextUpdates(snapshot: Snapshot, tools: Caps, flags: Caps): (updates: seq<Update>)
    ensures |updates| == 3
  {
    [ModeUpdate("default"), CommandsUpdate(CommandNames(tools)), ConfigUpdate(SessionConfig(snapshot, flags))]
  }

  lemma DefaultIsNotBlank()
    ensures !Blank("default")
  {
    assert !IsSpace("default"[0]);
  }

  lemma NoteNext(out: seq<Payload>, sid: string, updates: seq<Update>, k: nat)
    requires k < |updates|
    ensures out + Notes(sid, updates[..k]) + [Notify(sid, updates[k])] == out + Notes(sid, updates[..k + 1])
  {
    assert updates[..k + 1] == updates[..k] + [updates[k]];
    NotesAppend(sid, updates[..k], updates[k]);
  }

  lemma NoNotes(out: seq<Payload>, sid: string, updates: seq<Update>)
    ensures out + Notes(sid, updates[..0]) == out
  {
    assert updates[..0] == [] && Notes(sid, []) == [];
  }

  // ----- The tool invoker -----

  /** What a call meets: whether its request can be written, what happens to the tables while it waits,
      and whether its context ends the wait. */
  datatype Wait = Wait(sent: bool, events: seq<Event>, ended: bool)

  function During(wait: Wait): seq<Event> {
    if wait.sent then wait.events else []
  }

  /** What one callClient leaves of the tables; its own channel is the first, the others are those of the
      calls that join. */
  ghost function AfterCall(t: Tables<Channel>, wait: Wait, chans: seq<Channel>): Tables<Channel>
    requires |chans| == |During(wait)| + 1
  {
    var registered := RegisterKey(BumpCounter(t), NextKey(t), chans[0]).0;
    UnregisterKey(HappenedAll(registered, During(wait), chans[1..]), NextKey(t))
  }

  function EarlyReply<C>(t: Tables<C>, key: string): Option<Reply> {
    if key in t.early then Some(t.early[key]) else None
  }

  /** How the call ends: with the early response with its key, or with what becomes of it while it waits. */
  ghost function Ended(t: Tables<Channel>, wait: Wait): Exit {
    if !wait.sent then WriteFailed
    else Chosen(wait.ended, FateAfter(EarlyReply(t, NextKey(t)), (t.counter + 1) % WORD, NextKey(t), wait.events))
  }

  /** What the select gives: the response that is there, unless the context's end is chosen. */
  function Chosen(ended: bool, fate: Fate): Exit {
    if fate.Got? && !ended then Answered(fate.reply) else CtxDone
  }

  /** A call whose request goes out and that no other call with its key disturbs gets the early response
      with its key, or else the first that comes in. */
  lemma UndisturbedCall(t: Tables<Channel>, wait: Wait)
    requires Untouched((t.counter + 1) % WORD, NextKey(t), wait.events)
    ensures var early := EarlyReply(t, NextKey(t));
            var first := if early.Some? then early else FirstReply(RepliesOf(wait.events), NextKey(t));
            && (Ended(t, wait) == WriteFailed <==> !wait.sent)
            && (forall r :: Ended(t, wait) == Answered(r) <==> wait.sent && !wait.ended && first == Some(r))
  {
    UntouchedFate((t.counter + 1) % WORD, NextKey(t), wait.events);
  }

  function Joins(events: seq<Event>): nat {
    if events == [] then 0 else Joins(events[..|events| - 1]) + (if events[|events| - 1].Joined? then 1 else 0)
  }

  lemma WrapOne(a: nat, b: nat)
    ensures ((a + b) % WORD + 1) % WORD == (a + b + 1) % WORD
  {
  }

  lemma NoWrap(a: nat, b: nat)
    requires a < WORD && 0 < b < WORD
    ensures (a + b) % WORD != a
  {
  }

  /** Each call that joins takes the next number. */
  lemma {:induction false} JoinsCount(counter: nat, events: seq<Event>)
    requires counter < WORD
    ensures CounterOf(counter, events) == (counter + Joins(events)) % WORD
  {
    if events != [] {
      JoinsCount(counter, events[..|events| - 1]);
      WrapOne(counter, Joins(events[..|events| - 1]));
    }
  }

  lemma {:induction false} JoinsGrow(events: seq<Event>, n: nat)
    requires n < |events| && events[n].Joined?
    ensures Joins(events[..n]) < Joins(events)
  {
    var m := |events| - 1;
    if n < m {
      JoinsGrow(events[..m], n);
      assert events[..m][..n] == events[..n];
    }
  }

  /** A call that joins after fewer than 2^64 - 1 others has another key. */
  lemma JoinsApart(counter: nat, events: seq<Event>)
    requires counter < WORD && Joins(events) + 1 < WORD
    ensures JoinKey(counter, events) != PendingKey(RequestId(counter))
  {
    JoinsCount(counter, events);
    var n := CounterOf(counter, events);
    WrapOne(counter, Joins(events));
    NoWrap(counter, Joins(events) + 1);
    RP.SameKeySameNumber((n + 1) % WORD, counter);
  }

  /** Fewer than 2^64 calls that join while it waits cannot disturb a call. */
  lemma OnlyWrappingDisturbs(t: Tables<Channel>, events: seq<Event>)
    requires Joins(events) < WORD
    requires forall n | 0 <= n < |events| && events[n].Left? :: PendingKey(events[n].id) != NextKey(t)
    ensures Untouched((t.counter + 1) % WORD, NextKey(t), events)
  {
    hide JoinKey, NextKey;
    forall n | 0 <= n < |events| && events[n].Joined?
      ensures JoinKey((t.counter + 1) % WORD, events[..n]) != NextKey(t)
    {
      JoinsGrow(events, n);
      JoinsApart((t.counter + 1) % WORD, events[..n]);
      NextKeyIs(t);
    }
  }

  lemma NextKeyIs(t: Tables<Channel>)
    ensures NextKey(t) == PendingKey(RequestId((t.counter + 1) % WORD))
  {
  }

  /** A call uses up its number and leaves no pending entry; of the calls that no other call with their
      key disturbs those wait on for which nothing came; and of the responses exactly those stay behind
      that no call had a use for. */
  lemma CallLeavesNothing(t: Tables<Channel>, wait: Wait, chans: seq<Channel>, k: string)
    requires t.pending.Keys !! t.early.Keys && |chans| == |During(wait)| + 1
    requires Untouched((t.counter + 1) % WORD, k, During(wait))
    ensures var (after, key) := (AfterCall(t, wait, chans), NextKey(t));
            var count := CountReplies(RepliesOf(During(wait)), k);
            && after.counter == CounterOf((t.counter + 1) % WORD, During(wait)) && key !in after.pending
            && (k in after.pending <==> k != key && k in t.pending && count == 0)
            && (k == key ==> (k in after.early <==> count > (if k in t.early then 0 else 1)))
            && (k != key ==> (k in after.early <==> k in t.early || count > (if k in t.pending then 1 else 0)))
  {
    CounterAfter(RegisterKey(BumpCounter(t), NextKey(t), chans[0]).0, During(wait), chans[1..]);
    HappenedKeys(RegisterKey(BumpCounter(t), NextKey(t), chans[0]).0, During(wait), chans[1..], k);
  }

  class ToolInvoker {
    const server: Server
    const sessionId: string
    const cwd: string
    const caps: Caps

    constructor (server: Server, sessionId: string, cwd: string)
      ensures this.server == server && this.sessionId == sessionId && this.cwd == cwd && caps == server.clientCaps
    {
      this.server := server;
      this.sessionId := sessionId;
      this.cwd := cwd;
      caps := server.clientCaps;
    }

    /** A call takes its number and registers; an early response is in its channel at once. */
    method Open() returns (reqId: string, respCh: Channel)
      requires server.RpcValid()
      modifies server`requestIDCounter, server`pendingResponses, server`earlyResponses
      ensures server.RpcValid() && fresh(respCh)
      ensures var (t, key) := (old(server.RpcTables()), NextKey(old(server.RpcTables())));
              && server.requestIDCounter == (t.counter + 1) % WORD && reqId == RequestId(server.requestIDCounter)
              && server.RpcTables() == RegisterKey(BumpCounter(t), key, respCh).0
              && server.Stands(respCh, key, FirstFate(EarlyReply(t, key)))
      ensures fresh(server.pendingResponses.Values - old(server.pendingResponses.Values))
    {
      reqId := server.NextRequestID();
      respCh := server.RegisterPendingResponse(reqId);
    }

    method CallClient(request: ClientRequest, wait: Wait)
      returns (exit: Exit, asked: Option<Payload>, ghost chans: seq<Channel>)
      requires server.RpcValid()
      modifies server`requestIDCounter, server`pendingResponses, server`earlyResponses, server`out
      modifies server.pendingResponses.Values
      ensures server.RpcValid() && fresh(server.pendingResponses.Values - old(server.pendingResponses.Values))
      ensures |chans| == |During(wait)| + 1 && server.RpcTables() == AfterCall(old(server.RpcTables()), wait, chans)
      ensures exit == Ended(old(server.RpcTables()), wait)
      ensures asked == if wait.sent then Some(Ask(StrId(RequestId((old(server.requestIDCounter) + 1) % WORD)), request))
                       else None
      ensures server.out == old(server.out) + Request(asked)
    {
      hide FateOf, CounterOf, RegisterKey;
      ghost var t := server.RpcTables();
      var reqId, respCh := Open();
      ghost var others := [];
      if wait.sent {
        asked := Some(Ask(StrId(reqId), request));
        server.Write(asked.value);
        others := server.HandleEvents(wait.events, respCh, NextKey(t), EarlyReply(t, NextKey(t)));
        exit := if wait.ended || respCh.buffer == [] then CtxDone else Answered(respCh.buffer[0]);
      } else {
        asked := None;
        exit := WriteFailed;
      }
      server.UnregisterPendingResponse(reqId);
      chans := [respCh] + others;
      assert chans[1..] == others;
    }

    /** The dispatch on the tool: its request if the gate passes. */
    method Dispatch(name: string, gate: Gate, wait: Wait)
      returns (verdict: Verdict, asked: Option<Payload>, ghost chans: seq<Channel>)
      requires server.RpcValid()
      modifies server`requestIDCounter, server`pendingResponses, server`earlyResponses, server`out
      modifies server.pendingResponses.Values
      ensures server.RpcValid() && fresh(server.pendingResponses.Values - old(server.pendingResponses.Values))
      ensures verdict == (if gate.Send? then ToolVerdict(name, Ended(old(server.RpcTables()), wait)) else FAILED)
              && (asked.Some? <==> gate.Send? && wait.sent)
              && (asked.Some? ==> asked.value.Ask? && asked.value.request == gate.request)
      ensures if gate.Send? then
                |chans| == |During(wait)| + 1 && server.RpcTables() == AfterCall(old(server.RpcTables()), wait, chans)
              else server.RpcTables() == old(server.RpcTables())
      ensures server.out == old(server.out) + Request(asked)
    {
      hide FateOf, CounterOf, RegisterKey;
      if gate.Send? {
        var exit;
        exit, asked, chans := CallClient(gate.request, wait);
        verdict := ToolVerdict(name, exit);
      } else {
        asked, chans := None, [];
        verdict := FAILED;
      }
    }

    /** tool_call, at most one client request, tool_call_update; refused tools send no request. */
    method InvokeTool(rawId: string, newId: string, name: string, args: ToolArgs, wait: Wait)
      returns (verdict: Verdict, asked: Option<Payload>, ghost chans: seq<Channel>)
      requires server.RpcValid()
      modifies server`requestIDCounter, server`pendingResponses, server`earlyResponses, server`out
      modifies server.pendingResponses.Values
      ensures server.RpcValid() && fresh(server.pendingResponses.Values - old(server.pendingResponses.Values))
      ensures var gate := GateTool(caps, cwd, name, args);
              && verdict == (if gate.Send? then ToolVerdict(name, Ended(old(server.RpcTables()), wait)) else FAILED)
              && (asked.Some? <==> gate.Send? && wait.sent)
              && (asked.Some? ==> asked.value.Ask? && asked.value.request == gate.request)
              && if gate.Send? then
                   |chans| == |During(wait)| + 1
                   && server.RpcTables() == AfterCall(old(server.RpcTables()), wait, chans)
                 else server.RpcTables() == old(server.RpcTables())
      ensures server.out == old(server.out)
              + ActLines(sessionId, Used(ToolUse(EffectiveCallId(rawId, newId), name, args), asked, verdict))
    {
      hide FateOf, CounterOf, RegisterKey, GateTool;
      var callId := TrimSpace(rawId);
      BlankMeansTrimmedEmpty(rawId);
      if callId == "" {
        callId := newId;
      }
      server.Write(Notify(sessionId, ToolStarted(callId, name)));
      var gate := GateTool(caps, cwd, name, args);
      verdict, asked, chans := Dispatch(name, gate, wait);
      server.Write(Notify(sessionId, ToolEnded(callId, verdict.ok, verdict.output)));
      Regroup(old(server.out), [Notify(sessionId, ToolStarted(callId, name))], Request(asked),
              [Notify(sessionId, ToolEnded(callId, verdict.ok, verdict.output))]);
    }
  }

  lemma Regroup<T>(a: seq<T>, b: seq<T>, c: seq<T>, d: seq<T>)
    ensures a + b + c + d == a + (b + c + d)
  {
  }
}
