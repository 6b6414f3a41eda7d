/** Where the results of tools come from: each completed tool use reports a line that the client sent as
    the response to that tool use's own request. */
module ToolReplies {
  import opened Text
  import opened Protocol
  import opened Tools
  import opened Turn
  import opened TurnProofs
  import opened TurnFrames
  import opened System
  import opened SystemInv
  import opened SystemTheorems
  import R = ClientRpc
  import RT = ClientRpcTheorems

  // ----- Responses and the lines that brought them -----

  function Arrivals(inputs: seq<InLine>): nat {
    if inputs == [] then 0
    else
      var n := |inputs| - 1;
      Arrivals(inputs[..n]) + (if Classify(inputs[n].line).Correlate? then 1 else 0)
  }

  /** Line n brought this response. */
  predicate CameIn(inputs: seq<InLine>, n: nat, r: R.Reply) {
    n < |inputs| && Classify(inputs[n].line) == Correlate(r.id, r.body) && Arrivals(inputs[..n]) == r.uid
  }

  ghost predicate HasLine(inputs: seq<InLine>, r: R.Reply) {
    exists n: nat :: CameIn(inputs, n, r)
  }

  ghost predicate ReceivedFrom(inputs: seq<InLine>, received: seq<R.Reply>) {
    |received| == Arrivals(inputs) && forall u | 0 <= u < |received| :: HasLine(inputs, received[u])
  }

  lemma HasLineStill(inputs: seq<InLine>, line: InLine, r: R.Reply)
    requires HasLine(inputs, r)
    ensures HasLine(inputs + [line], r)
  {
    var n: nat :| CameIn(inputs, n, r);
    assert (inputs + [line])[..n] == inputs[..n];
    assert CameIn(inputs + [line], n, r);
  }

  lemma LineComes(inputs: seq<InLine>, received: seq<R.Reply>, line: InLine)
    requires ReceivedFrom(inputs, received)
    ensures var action := Classify(line.line);
            ReceivedFrom(inputs + [line],
                         if action.Correlate? then received + [R.Reply(|received|, action.rid, action.body)]
                         else received)
  {
    var (more, n) := (inputs + [line], |inputs|);
    assert more[..n] == inputs && more[n] == line;
    forall u | 0 <= u < |received| ensures HasLine(more, received[u]) {
      HasLineStill(inputs, line, received[u]);
    }
    var action := Classify(line.line);
    if action.Correlate? {
      assert CameIn(more, n, R.Reply(|received|, action.rid, action.body));
    }
  }

  lemma ReceivedStep(s: State, step: Step)
    requires ReceivedFrom(s.inputs, s.rpc.received) && Enabled(s, step)
    ensures ReceivedFrom(Apply(s, step).inputs, Apply(s, step).rpc.received)
  {
    hide Apply;
    if step.Read? {
      ReadReceives(s, step.line);
      LineComes(s.inputs, s.rpc.received, InLine(s.conn, step.line));
    } else {
      OnlyReadReceives(s, step);
    }
  }

  lemma ReadReceives(s: State, line: InputLine)
    requires Enabled(s, Read(line))
    ensures var (t, action) := (Apply(s, Read(line)), Classify(line));
            && t.inputs == s.inputs + [InLine(s.conn, line)]
            && t.rpc.received
               == if action.Correlate? then s.rpc.received + [R.Reply(|s.rpc.received|, action.rid, action.body)]
                  else s.rpc.received
  {
    hide Advance;
  }

  lemma OnlyReadReceives(s: State, step: Step)
    requires Enabled(s, step) && !step.Read?
    ensures Apply(s, step).inputs == s.inputs && Apply(s, step).rpc.received == s.rpc.received
  {
    hide Advance;
  }

  // ----- Tool uses and the calls that gave their results -----

  /** The call behind each completed tool use, found by the handler and the number of its act. */
  type Links = map<(nat, nat), nat>

  /** Call c of handler i got the response that a tool use reports, to the request of that tool use. */
  predicate Gave(calls: seq<R.Call>, i: nat, tool: ToolUse, request: Option<Payload>, verdict: Verdict, c: nat) {
    && c < |calls| && calls[c].owner == i && calls[c].pc.Finished? && calls[c].pc.exit.Answered?
    && verdict == ToolVerdict(tool.name, calls[c].pc.exit)
    && request.Some? && IsRequest(request.value, c)
  }

  predicate IsRequest(line: Payload, c: nat) {
    line.Ask? && line.reqId == StrId(R.RequestId((c + 1) % R.WORD))
  }

  predicate Completed(h: Handler, k: nat) {
    k < |h.acts| && h.acts[k].Used? && h.acts[k].verdict.ok
  }

  ghost predicate ActsLinked(calls: seq<R.Call>, i: nat, h: Handler, links: Links) {
    forall k | 0 <= k < |h.acts| && Completed(h, k) ::
      (i, k) in links && Gave(calls, i, h.acts[k].tool, h.acts[k].request, h.acts[k].verdict, links[(i, k)])
  }

  predicate PointLinked(calls: seq<R.Call>, i: nat, h: Handler, links: Links) {
    && (h.pc.ToolCalling? && h.pc.asked.Some? ==> IsRequest(h.pc.asked.value, h.pc.rpc))
    && (h.pc.ToolClosing? && h.pc.verdict.ok ==>
          (i, |h.acts|) in links && Gave(calls, i, h.pc.tool, h.pc.asked, h.pc.verdict, links[(i, |h.acts|)]))
  }

  /** Every linked call is over and behind one tool use only. */
  ghost predicate LinksApart(s: State, links: Links) {
    && (forall p | p in links :: links[p] < |s.rpc.calls| && s.rpc.calls[links[p]].pc.Finished?)
    && (forall p, i | p in links && 0 <= i < |s.handlers| :: !InCall(s, i, links[p]))
    && (forall p, q | p in links && q in links && p != q :: links[p] != links[q])
  }

  ghost predicate LinksOk(s: State, links: Links) {
    && (forall i | 0 <= i < |s.handlers| ::
          ActsLinked(s.rpc.calls, i, s.handlers[i], links) && PointLinked(s.rpc.calls, i, s.handlers[i], links))
    && LinksApart(s, links)
  }

  /** Calls that are over stay as they are. */
  predicate CallsStay(before: seq<R.Call>, after: seq<R.Call>) {
    |before| <= |after| && forall c | 0 <= c < |before| && before[c].pc.Finished? ::
      after[c].pc == before[c].pc && after[c].owner == before[c].owner
  }

  lemma CallsStep(s: State, step: Step)
    requires Enabled(s, step)
    ensures CallsStay(s.rpc.calls, Apply(s, step).rpc.calls)
  {
    match step
    case Rpc(r) =>
      forall c | 0 <= c < |s.rpc.calls| && s.rpc.calls[c].pc.Finished?
        ensures Apply(s, step).rpc.calls[c].pc == s.rpc.calls[c].pc
                && Apply(s, step).rpc.calls[c].owner == s.rpc.calls[c].owner
      {
        RpcKeepsOthers(s.rpc, r, c);
      }
    case _ =>
  }

  /** The links after a step: FinishCall adds the call that completed. */
  function Relinked(s: State, step: Step, links: Links): Links {
    if !Enabled(s, step) then links else
    match step
    case FinishCall(i) =>
      var h := s.handlers[i];
      if ToolVerdict(h.pc.tool.name, s.rpc.calls[h.pc.rpc].pc.exit).ok then links[(i, |h.acts|) := h.pc.rpc] else links
    case _ => links
  }

  /** What a handler's links need: the calls behind its acts stay, and so do its entries. */
  lemma ActsStay(before: seq<R.Call>, after: seq<R.Call>, i: nat, h: Handler, g: Handler, links: Links, more: Links)
    requires ActsLinked(before, i, h, links) && CallsStay(before, after) && g.acts == h.acts
    requires forall k | 0 <= k < |h.acts| && (i, k) in links :: (i, k) in more && more[(i, k)] == links[(i, k)]
    ensures ActsLinked(after, i, g, more)
  {
    forall k | 0 <= k < |g.acts| && Completed(g, k)
      ensures (i, k) in more && Gave(after, i, g.acts[k].tool, g.acts[k].request, g.acts[k].verdict, more[(i, k)])
    {
      assert Completed(h, k);
    }
  }

  lemma OwnStep(calls: seq<R.Call>, i: nat, h: Handler, sh: Shared, choice: Choice, links: Links)
    requires CanAdvance(h, sh, choice) && ActsLinked(calls, i, h, links) && PointLinked(calls, i, h, links)
    ensures var g := Advance(i, h, sh, choice).h; ActsLinked(calls, i, g, links) && PointLinked(calls, i, g, links)
  {
    var g := Advance(i, h, sh, choice).h;
    assert g.acts == h.acts + (if h.pc.ToolClosing? then [Used(h.pc.tool, h.pc.asked, h.pc.verdict)]
                               else if h.pc.ExecWriting? then [Wrote(h.pc.call, h.pc.update)] else []);
    forall k | 0 <= k < |g.acts| && Completed(g, k)
      ensures (i, k) in links && Gave(calls, i, g.acts[k].tool, g.acts[k].request, g.acts[k].verdict, links[(i, k)])
    {
      if k < |h.acts| { assert Completed(h, k); }
    }
  }

  lemma ChangedLinks(s: State, step: Step, links: Links, i: nat)
    requires WaitsOk(s) && LinksOk(s, links) && Enabled(s, step) && Changed(s, step) == Some(i) && i < |s.handlers|
    ensures var t := Apply(s, step);
            ActsLinked(t.rpc.calls, i, t.handlers[i], Relinked(s, step, links))
            && PointLinked(t.rpc.calls, i, t.handlers[i], Relinked(s, step, links))
  {
    var (t, h) := (Apply(s, step), s.handlers[i]);
    CallsStep(s, step);
    match step
    case Handle(_, choice) => OwnStep(s.rpc.calls, i, h, s.sh, choice, links);
    case FinishCall(_) =>
      ActsStay(s.rpc.calls, t.rpc.calls, i, h, t.handlers[i], links, Relinked(s, step, links));
    case WriteRequest(c) =>
      ActsStay(s.rpc.calls, t.rpc.calls, i, h, t.handlers[i], links, links);
    case StartCall(_) => ActsStay(s.rpc.calls, t.rpc.calls, i, h, t.handlers[i], links, links);
    case CallCancel =>
      ActsStay(s.rpc.calls, t.rpc.calls, i, h, t.handlers[i], links, links);
  }

  lemma OtherLinks(s: State, step: Step, links: Links, i: nat)
    requires LinksOk(s, links) && Enabled(s, step) && Changed(s, step) != Some(i) && i < |Apply(s, step).handlers|
    ensures var t := Apply(s, step);
            ActsLinked(t.rpc.calls, i, t.handlers[i], Relinked(s, step, links))
            && PointLinked(t.rpc.calls, i, t.handlers[i], Relinked(s, step, links))
  {
    hide Advance;
    var t := Apply(s, step);
    HandlersFrame(s, step);
    CallsStep(s, step);
    if i < |s.handlers| {
      ActsStay(s.rpc.calls, t.rpc.calls, i, s.handlers[i], t.handlers[i], links, Relinked(s, step, links));
    } else {
      EntryPoint(Classify(step.line).msg.methodName, Classify(step.line).msg.params);
    }
  }

  /** A call in use is not behind any tool use yet. */
  lemma NotInUse(s: State, step: Step, i: nat, c: nat)
    requires Enabled(s, step) && c < |s.rpc.calls| && s.rpc.calls[c].pc.Finished?
    requires forall j | 0 <= j < |s.handlers| :: !InCall(s, j, c)
    ensures !InCall(Apply(s, step), i, c)
  {
    HandlersFrame(s, step);
    if i < |s.handlers| { assert !InCall(s, i, c); }
    match step
    case Handle(j, choice) => AdvanceFrame(j, s.handlers[j], s.sh, choice);
    case Read(line) =>
      if Classify(line).Spawn? { EntryPoint(Classify(line).msg.methodName, Classify(line).msg.params); }
    case _ =>
  }

  lemma LinksApartStep(s: State, step: Step, links: Links)
    requires WaitsOk(s) && LinksApart(s, links) && Enabled(s, step)
    ensures LinksApart(Apply(s, step), Relinked(s, step, links))
  {
    var (t, more) := (Apply(s, step), Relinked(s, step, links));
    CallsStep(s, step);
    forall p, i | p in links && 0 <= i < |t.handlers| ensures !InCall(t, i, links[p]) {
      NotInUse(s, step, i, links[p]);
    }
    if step.FinishCall? {
      var c := s.handlers[step.i].pc.rpc;
      assert InCall(s, step.i, c);
      forall i | 0 <= i < |t.handlers| ensures !InCall(t, i, c) {
        assert i < |s.handlers| && InCall(s, i, c) ==> s.rpc.calls[c].owner == i;
      }
    }
  }

  lemma LinksStep(s: State, step: Step, links: Links)
    requires WaitsOk(s) && LinksOk(s, links) && Enabled(s, step)
    ensures LinksOk(Apply(s, step), Relinked(s, step, links))
  {
    hide Advance;
    var t := Apply(s, step);
    HandlersFrame(s, step);
    forall i | 0 <= i < |t.handlers|
      ensures ActsLinked(t.rpc.calls, i, t.handlers[i], Relinked(s, step, links))
              && PointLinked(t.rpc.calls, i, t.handlers[i], Relinked(s, step, links))
    {
      if Changed(s, step) == Some(i) { ChangedLinks(s, step, links, i); } else { OtherLinks(s, step, links, i); }
    }
    LinksApartStep(s, step, links);
  }

  lemma {:induction false} RunLinks(s: State, run: seq<Step>, links: Links) returns (after: Links)
    requires Inv(s) && Valid(s, run) && LinksOk(s, links) && ReceivedFrom(s.inputs, s.rpc.received)
    ensures var t := After(s, run); Inv(t) && LinksOk(t, after) && ReceivedFrom(t.inputs, t.rpc.received)
    decreases |run|
  {
    if run == [] {
      after := links;
    } else {
      StepKeepsInv(s, run[0]);
      LinksStep(s, run[0], links);
      ReceivedStep(s, run[0]);
      after := RunLinks(Apply(s, run[0]), run[1..], Relinked(s, run[0], links));
    }
  }

  // ----- The result -----

  /** Line n is the client's response to the request of a completed tool use, and gave its result. */
  predicate ResultCameIn(inputs: seq<InLine>, act: Act, n: nat) {
    && act.Used? && act.request.Some? && act.request.value.Ask? && act.request.value.reqId.StrId?
    && n < |inputs| && Classify(inputs[n].line).Correlate?
    && var (rid, body) := (Classify(inputs[n].line).rid, Classify(inputs[n].line).body);
       && ServerKey(rid) == "s:" + act.request.value.reqId.text
       && act.verdict == ToolVerdict(act.tool.name, R.Answered(R.Reply(Arrivals(inputs[..n]), rid, body)))
  }

  /** Each completed tool use has its line, and no line is behind two of them. */
  ghost predicate ResultsApart(s: State, lines: map<(nat, nat), nat>) {
    && (forall i, k | 0 <= i < |s.handlers| && 0 <= k && Completed(s.handlers[i], k) ::
          (i, k) in lines && ResultCameIn(s.inputs, s.handlers[i].acts[k], lines[(i, k)]))
    && (forall p, q | p in lines && q in lines && p != q :: lines[p] != lines[q])
  }

  /** Each completed tool use reports the result in a response line of the client: a line read before,
      with the id of that tool use's own request, decoded as that tool's result is; and no line, however
      often its id comes, is behind two tool uses, whatever the sessions and connections. */
  lemma EveryResultHasItsOwnLine(run: seq<Step>)
    requires Valid(Init(), run)
    ensures exists lines :: ResultsApart(After(Init(), run), lines)
  {
    InitInv();
    var links := RunLinks(Init(), run, map[]);
    var lines := ResultLines(After(Init(), run), links);
  }

  lemma ResultLines(s: State, links: Links) returns (lines: map<(nat, nat), nat>)
    requires Inv(s) && LinksOk(s, links) && ReceivedFrom(s.inputs, s.rpc.received)
    ensures ResultsApart(s, lines)
  {
    lines := LinesOf(s, links);
    forall i, k | 0 <= i < |s.handlers| && 0 <= k && Completed(s.handlers[i], k)
      ensures (i, k) in lines && ResultCameIn(s.inputs, s.handlers[i].acts[k], lines[(i, k)])
    {
      assert ActsLinked(s.rpc.calls, i, s.handlers[i], links);
    }
  }

  predicate HasReply(calls: seq<R.Call>, c: nat) {
    c < |calls| && calls[c].pc.Finished? && calls[c].pc.exit.Answered?
  }

  /** Line n brought the response that call c got. */
  ghost predicate Fed(s: State, c: nat, n: nat) {
    HasReply(s.rpc.calls, c) && CameIn(s.inputs, n, s.rpc.calls[c].pc.exit.reply)
  }

  lemma FedBySome(s: State, c: nat) returns (n: nat)
    requires Inv(s) && ReceivedFrom(s.inputs, s.rpc.received) && HasReply(s.rpc.calls, c)
    ensures Fed(s, c, n)
  {
    var r := s.rpc.calls[c].pc.exit.reply;
    RT.OwnReply(s.rpc, c, r.uid);
    assert HasLine(s.inputs, s.rpc.received[r.uid]);
    n :| CameIn(s.inputs, n, r);
  }

  lemma FedApart(s: State, c: nat, d: nat, n: nat)
    requires Inv(s) && Fed(s, c, n) && Fed(s, d, n)
    ensures c == d
  {
    RT.OwnReply(s.rpc, c, Arrivals(s.inputs[..n]));
    assert RT.Answers(s.rpc, d, Arrivals(s.inputs[..n]));
  }

  lemma LinesOf(s: State, links: Links) returns (lines: map<(nat, nat), nat>)
    requires Inv(s) && LinksApart(s, links) && ReceivedFrom(s.inputs, s.rpc.received)
    ensures forall p | p in links && HasReply(s.rpc.calls, links[p]) :: p in lines && Fed(s, links[p], lines[p])
    ensures forall p, q | p in lines && q in lines && p != q :: lines[p] != lines[q]
  {
    forall p | p in links && HasReply(s.rpc.calls, links[p]) ensures exists n :: Fed(s, links[p], n) {
      var n := FedBySome(s, links[p]);
    }
    lines := map p | p in links && HasReply(s.rpc.calls, links[p]) :: (var n :| Fed(s, links[p], n); n);
    forall p, q | p in lines && q in lines && p != q ensures lines[p] != lines[q] {
      if lines[p] == lines[q] { FedApart(s, links[p], links[q], lines[p]); }
    }
  }
}
