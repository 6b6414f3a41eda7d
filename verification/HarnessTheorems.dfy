/** What a call of Do returns, in every run of driver and server. */
module HarnessTheorems {
  import opened Text
  import opened Protocol
  import opened Turn
  import opened TurnProofs
  import opened Transcript
  import opened RoundTrip
  import opened Window
  import opened Harness
  import opened HarnessInv
  import opened SystemTurns
  import S = System
  import SI = SystemInv
  import T = SystemTheorems
  import D = Driver

  // ----- Every run is linked -----

  lemma {:induction false} TextsReached(s: S.State, run: seq<S.Step>)
    requires TextsOk(s) && S.Valid(s, run)
    ensures TextsOk(S.After(s, run))
    decreases |run|
  {
    hide S.Apply;
    if run != [] {
      TextsStep(s, run[0]);
      TextsReached(S.Apply(s, run[0]), run[1..]);
    }
  }

  lemma StartLinked(s: S.State)
    requires T.Inv(s) && TextsOk(s) && s.reader.Stopped?
    ensures Linked(Start(s))
  {
    var p := Start(s);
    ServerStep(State(s, D.Init(), [], map[], 0, 0), S.Accept);
    assert p.server.out == s.out && p.server.handlers == s.handlers;
    forall i | 0 <= i < |s.handlers| ensures s.handlers[i].pc.Done? {
      assert SI.ConnOk(s);
    }
  }

  /** A driver started on a server after any earlier connections. */
  lemma Reached(before: seq<S.Step>, run: seq<Step>)
    requires S.Valid(S.Init(), before) && S.After(S.Init(), before).reader.Stopped?
    requires Valid(Start(S.After(S.Init(), before)), run)
    ensures Linked(After(Start(S.After(S.Init(), before)), run))
  {
    var s := S.After(S.Init(), before);
    T.Reached(before);
    TextsReached(S.Init(), before);
    StartLinked(s);
    RunKeepsLinked(Start(s), run);
  }

  // ----- The handler behind a response -----

  /** What Linked says about one handler and its lines. */
  lemma HandlerFacts(p: State, i: nat)
    requires Ends(p) && i < |p.server.handlers|
    ensures var h := p.server.handlers[i];
            LocalInv(h) && TextOk(h) && SI.WrittenBy(p.server.out, i) == h.trace
            && EndsWithAnswer(h.trace, h.id, h.answered)
  {
    assert SI.LocalOk(p.server) && SI.OutOk(p.server);
    TraceEndsWithAnswer(p.server.handlers[i]);
  }

  lemma WriterExists(p: State, k: nat)
    requires Ends(p) && k < |p.server.out| && p.server.out[k].origin.By?
    ensures p.server.out[k].origin.i < |p.server.handlers|
  {
    hide *;
    EndsGiveOut(p);
  }

  /** A line without a method is its writer's answer. */
  lemma AnswerLine(p: State, k: nat)
    requires Ends(p) && k < |p.server.out| && p.server.out[k].origin.By? && !HasMethod(p.server.out[k].payload)
    ensures var i := p.server.out[k].origin.i;
            i < |p.server.handlers| && p.server.handlers[i].answered.Some?
            && p.server.out[k].payload
               == Respond(NormalizeId(p.server.handlers[i].id), p.server.handlers[i].answered.value)
  {
    hide *;
    var i := p.server.out[k].origin.i;
    WriterExists(p, k);
    HandlerFacts(p, i);
    LineInTrace(p.server.out, k, i);
  }

  lemma KeyIsId(m: int, n: int)
    ensures D.DriverKey(NumId(m)) == D.DriverKey(NumId(n)) <==> m == n
  {
    NumeralInjective(m, n);
    assert D.DriverKey(NumId(m))[2..] == Numeral(m);
    assert D.DriverKey(NumId(n))[2..] == Numeral(n);
  }

  predicate Exchanged(d: D.State, n: nat) {
    n < |d.calls| && d.calls[n].pc.Returned? && d.calls[n].pc.result.Exchange?
  }

  /** The server line that answered a Do. */
  function AnswerAt(p: State, n: nat): int {
    if Exchanged(p.driver, n) then p.lines + p.driver.calls[n].pc.result.response.seqNo - 1 else -1
  }

  /** The first server line of a Do's window. */
  function WindowStart(p: State, n: nat): nat {
    if n < |p.driver.calls| then p.lines + p.driver.calls[n].start else 0
  }

  lemma CallFacts(d: D.State, n: nat)
    requires D.Inv(d) && Exchanged(d, n)
    ensures var (call, r) := (d.calls[n], d.calls[n].pc.result);
            && D.IsFirstResponse(d.messages, call, r.response) && call.key == D.DriverKey(NumId(n + 1))
            && r.messages == d.messages[call.start..r.response.seqNo]
  {
    assert D.CallOk(d, n);
  }

  /** The response a Do returns is a line of the server without a method. */
  lemma ResponseLine(p: State, n: nat)
    requires LogLinked(p.lines, p.driver.messages, p.server.out) && D.Inv(p.driver) && Exchanged(p.driver, n)
    ensures var (k, content) := (AnswerAt(p, n), p.driver.calls[n].pc.result.response.content);
            && WindowStart(p, n) <= k < |p.server.out|
            && content == Encode(p.server.out[k].payload) && !HasMethod(p.server.out[k].payload)
            && D.DriverKey(content.id) == D.DriverKey(NumId(n + 1))
  {
    CallFacts(p.driver, n);
    var response := p.driver.calls[n].pc.result.response;
    assert p.driver.messages[response.seqNo - 1] == response;
  }

  lemma HandlerOfRequest(p: State, i: nat)
    requires HandlersLinked(p.driver, p.wire, p.server.handlers, p.handlers) && p.handlers <= i < |p.server.handlers|
    ensures FromDriver(p.driver, p.server.handlers[i].id)
  {
  }

  lemma SameId(id: Id, answer: Answer, n: nat)
    requires id.NumId? && D.DriverKey(Encode(Respond(NormalizeId(id), answer)).id) == D.DriverKey(NumId(n + 1))
    ensures id == NumId(n + 1)
  {
    KeyIsId(id.n, n + 1);
  }

  /** What is known of the handler behind the response of a Do: it serves that Do's request, with the
      parameters Do was called with, and the response is its answer. */
  predicate AnsweredBy(p: State, n: nat, i: nat) {
    var k := AnswerAt(p, n);
    && Exchanged(p.driver, n)
    && WindowStart(p, n) <= k < |p.server.out| && p.server.out[k].origin == S.By(i)
    && p.handlers <= i < |p.server.handlers| && p.server.handlers[i].id == NumId(n + 1)
    && p.server.handlers[i].answered.Some?
    && p.server.out[k].payload == Respond(NumId(n + 1), p.server.handlers[i].answered.value)
    && p.driver.calls[n].pc.result.response.content == Encode(p.server.out[k].payload)
    && NumId(n + 1) in p.asked && p.server.handlers[i].fields == FieldsOf(p.asked[NumId(n + 1)])
  }

  /** A Do is answered by the response of the one handler that serves its request. */
  lemma AnsweredByItsHandler(p: State, n: nat) returns (i: nat)
    requires Linked(p) && Exchanged(p.driver, n)
    ensures AnsweredBy(p, n, i)
  {
    ResponseLine(p, n);
    var k := AnswerAt(p, n);
    AnswerLine(p, k);
    i := p.server.out[k].origin.i;
    var h := p.server.handlers[i];
    HandlerOfRequest(p, i);
    SameId(h.id, h.answered.value, n);
  }

  // ----- The window of a Do -----

  function Contents(entries: seq<D.Entry>): (cs: seq<D.Content>)
    ensures |cs| == |entries| && forall k | 0 <= k < |entries| :: cs[k] == entries[k].content
  {
    seq(|entries|, k requires 0 <= k < |entries| => entries[k].content)
  }

  /** The server lines between a Do's start mark and its response. */
  function WindowLines(p: State, n: nat): seq<S.OutLine> {
    if WindowStart(p, n) <= AnswerAt(p, n) < |p.server.out| then p.server.out[WindowStart(p, n)..AnswerAt(p, n) + 1]
    else []
  }

  /** The k-th message a Do returns is the server's line at that place of its window ... */
  lemma MessageIsLine(p: State, n: nat, i: nat, k: nat)
    requires LogLinked(p.lines, p.driver.messages, p.server.out) && D.Inv(p.driver) && AnsweredBy(p, n, i)
    ensures |p.driver.calls[n].pc.result.messages| == |WindowLines(p, n)|
    ensures k < |WindowLines(p, n)| ==>
              p.driver.calls[n].pc.result.messages[k].content == Encode(WindowLines(p, n)[k].payload)
  {
    CallFacts(p.driver, n);
    var (call, r) := (p.driver.calls[n], p.driver.calls[n].pc.result);
    if k < |WindowLines(p, n)| {
      assert r.messages[k] == p.driver.messages[call.start + k];
      assert WindowLines(p, n)[k] == p.server.out[p.lines + (call.start + k)];
    }
  }

  /** ... so the messages are the server's lines in the window. */
  lemma MessagesAreTheWindow(p: State, n: nat, i: nat)
    requires LogLinked(p.lines, p.driver.messages, p.server.out) && D.Inv(p.driver) && AnsweredBy(p, n, i)
    ensures Contents(p.driver.calls[n].pc.result.messages) == EncodeAll(Payloads(WindowLines(p, n)))
  {
    hide LogLinked, D.Inv, WindowLines;
    MessageIsLine(p, n, i, 0);
    forall k | 0 <= k < |WindowLines(p, n)|
      ensures p.driver.calls[n].pc.result.messages[k].content == Encode(WindowLines(p, n)[k].payload)
    {
      MessageIsLine(p, n, i, k);
    }
  }

  lemma WindowOfTrace(p: State, n: nat, i: nat, id: Id, answered: Option<Answer>)
    requires MarksLinked(p.driver, p.server.out, p.lines, p.server.handlers, p.handlers)
    requires HandlersLinked(p.driver, p.wire, p.server.handlers, p.handlers)
    requires Exchanged(p.driver, n) && AnsweredBy(p, n, i)
    requires EndsWithAnswer(SI.WrittenBy(p.server.out, i), id, answered)
    ensures SI.WrittenBy(WindowLines(p, n), i) == SI.WrittenBy(p.server.out, i)
  {
    hide S.Apply;
    WholeTraceInWindow(p.server.out, i, id, answered, WindowStart(p, n), AnswerAt(p, n));
  }

  /** The window holds every line its handler ever writes. */
  lemma WindowHoldsTheTurn(p: State, n: nat, i: nat)
    requires Linked(p) && Exchanged(p.driver, n) && AnsweredBy(p, n, i)
    ensures SI.WrittenBy(WindowLines(p, n), i) == p.server.handlers[i].trace
  {
    var h := p.server.handlers[i];
    HandlerFacts(p, i);
    WindowOfTrace(p, n, i, h.id, h.answered);
  }

  /** In every interleaving, a successful Do returns the response of the one handler that serves its
      request, and among its messages are all lines that handler writes: one complete turn. */
  lemma DoReturnsOneCompleteTurn(before: seq<S.Step>, run: seq<Step>, n: nat) returns (i: nat)
    requires S.Valid(S.Init(), before) && S.After(S.Init(), before).reader.Stopped?
    requires Valid(Start(S.After(S.Init(), before)), run)
    requires Exchanged(After(Start(S.After(S.Init(), before)), run).driver, n)
    ensures var p := After(Start(S.After(S.Init(), before)), run);
            && AnsweredBy(p, n, i)
            && Contents(p.driver.calls[n].pc.result.messages) == EncodeAll(Payloads(WindowLines(p, n)))
            && var h := p.server.handlers[i];
               SI.WrittenBy(WindowLines(p, n), i) == TurnLines(h, h.passed, h.acts, h.marks.fell, h.answered.value)
  {
    Reached(before, run);
    var p := After(Start(S.After(S.Init(), before)), run);
    i := AnsweredByItsHandler(p, n);
    MessagesAreTheWindow(p, n, i);
    WindowHoldsTheTurn(p, n, i);
    HandlerFacts(p, i);
    AnsweredTurn(p.server.handlers[i]);
  }

  // ----- Round trips -----

  /** The other call was answered before this one began, or began after this one was answered. */
  predicate Apart(d: D.State, n: nat, m: nat) {
    Exchanged(d, n) && m < |d.calls|
    && ((Exchanged(d, m) && d.calls[m].pc.result.response.seqNo <= d.calls[n].start)
        || d.calls[n].pc.result.response.seqNo <= d.calls[m].start)
  }

  /** No other Do that has sent its request overlaps this one. */
  predicate Alone(d: D.State, n: nat) {
    forall m | 0 <= m < |d.calls| && m != n && WasSent(d, m) :: Apart(d, n, m)
  }

  lemma NoLineAfterAnswer(out: seq<S.OutLine>, j: nat, id: Id, answered: Option<Answer>, at: nat, k: nat)
    requires EndsWithAnswer(SI.WrittenBy(out, j), id, answered) && at < k < |out|
    requires out[at].origin == S.By(j) && !HasMethod(out[at].payload)
    ensures out[k].origin != S.By(j)
  {
    hide *;
    var (first, rest) := (out[..at + 1], out[at + 1..]);
    assert first + rest == out;
    SI.WrittenByConcat(first, rest, j);
    WrittenUpTo(first, j);
    NothingAfterAnswer(SI.WrittenBy(first, j), SI.WrittenBy(rest, j), id, answered);
    if out[k].origin == S.By(j) {
      LineInTrace(rest, k - at - 1, j);
    }
  }

  /** A handler whose Do was answered before line k did not write line k. */
  lemma SilentAfterwards(p: State, m: nat, j: nat, k: nat)
    requires Linked(p) && Exchanged(p.driver, m) && p.handlers <= j < |p.server.handlers|
    requires p.server.handlers[j].id == NumId(m + 1) && AnswerAt(p, m) < k < |p.server.out|
    ensures p.server.out[k].origin != S.By(j)
  {
    var i := AnsweredByItsHandler(p, m);
    assert i == j;
    HandlerFacts(p, j);
    var h := p.server.handlers[j];
    NoLineAfterAnswer(p.server.out, j, h.id, h.answered, AnswerAt(p, m), k);
  }

  /** Calls apart write apart. */
  lemma ApartIsSilent(p: State, n: nat, m: nat, j: nat, k: nat)
    requires Linked(p) && Exchanged(p.driver, n) && m < |p.driver.calls| && Apart(p.driver, n, m)
    requires p.handlers <= j < |p.server.handlers| && p.server.handlers[j].id == NumId(m + 1)
    requires WindowStart(p, n) <= k <= AnswerAt(p, n) && k < |p.server.out|
    ensures p.server.out[k].origin != S.By(j)
  {
    if p.driver.calls[n].pc.result.response.seqNo <= p.driver.calls[m].start {
    } else {
      SilentAfterwards(p, m, j, k);
    }
  }

  lemma WindowIsOwn(p: State, n: nat, i: nat, k: nat)
    requires Linked(p) && Exchanged(p.driver, n) && AnsweredBy(p, n, i) && Alone(p.driver, n)
    requires WindowStart(p, n) <= k <= AnswerAt(p, n)
    ensures p.server.out[k].origin == S.By(i)
  {
    WriterExists(p, k);
    var j := p.server.out[k].origin.i;
    OthersAreSilent(p, n, i, j, k);
  }

  lemma OthersAreSilent(p: State, n: nat, i: nat, j: nat, k: nat)
    requires Linked(p) && Exchanged(p.driver, n) && AnsweredBy(p, n, i) && Alone(p.driver, n)
    requires p.handlers <= j < |p.server.handlers| && WindowStart(p, n) <= k <= AnswerAt(p, n)
    ensures j != i ==> p.server.out[k].origin != S.By(j)
  {
    HandlerOfRequest(p, j);
    var m := p.server.handlers[j].id.n - 1;
    if m == n {
      assert i == j;
    } else {
      ApartIsSilent(p, n, m, j, k);
    }
  }

  /** What the driver makes of a turn, whatever else is in the window, as long as no other turn wrote
      an update there. */
  lemma WindowParses(p: State, n: nat, i: nat)
    requires Linked(p) && Exchanged(p.driver, n) && AnsweredBy(p, n, i)
    requires forall k | WindowStart(p, n) <= k <= AnswerAt(p, n) ::
               p.server.out[k].origin == S.By(i) || !p.server.out[k].payload.Notify?
    ensures var (h, r) := (p.server.handlers[i], p.driver.calls[n].pc.result);
            PartsOf(Contents(r.messages)) == LineParts(h.trace)
  {
    MessagesAreTheWindow(p, n, i);
    WindowHoldsTheTurn(p, n, i);
    OthersAreQuiet(p, n, i);
  }

  lemma OthersAreQuiet(p: State, n: nat, i: nat)
    requires Exchanged(p.driver, n) && AnsweredBy(p, n, i)
    requires forall k | WindowStart(p, n) <= k <= AnswerAt(p, n) ::
               p.server.out[k].origin == S.By(i) || !p.server.out[k].payload.Notify?
    ensures LineParts(Payloads(WindowLines(p, n))) == LineParts(SI.WrittenBy(WindowLines(p, n), i))
  {
    var lines := WindowLines(p, n);
    forall k | 0 <= k < |lines| && lines[k].origin != S.By(i) ensures !lines[k].payload.Notify? {
      assert lines[k] == p.server.out[WindowStart(p, n) + k];
    }
    OthersAddNothing(lines, i);
  }

  lemma AnsweredFacts(h: Handler)
    requires LocalInv(h) && h.answered.Some?
    ensures h.trace == TurnLines(h, h.passed, h.acts, h.marks.fell, h.answered.value) && h.passed <= 4
    ensures h.answered == Some(Stop(EndTurn)) ==> h.passed == 4 && (h.marks.fell <==> !Blank(h.reply) && !Spoke(h.acts))
    ensures forall k | 0 <= k < |h.acts| :: ActOk(h, h.acts[k])
  {
    AnsweredTurn(h);
  }

  /** The round trip: a prompt that the driver runs on its own and that ends with `end_turn`, by an
      executor that composes no raw updates and no user chunks, is reported with the prompt's own
      text, the agent's texts (or the reply, if there were none) and the tool events of the turn, in
      order and without anything of other turns. */
  lemma PromptRoundTrip(before: seq<S.Step>, run: seq<Step>, n: nat) returns (i: nat)
    requires S.Valid(S.Init(), before) && S.After(S.Init(), before).reader.Stopped?
    requires Valid(Start(S.After(S.Init(), before)), run)
    requires Exchanged(After(Start(S.After(S.Init(), before)), run).driver, n)
    requires Alone(After(Start(S.After(S.Init(), before)), run).driver, n)
    ensures var p := After(Start(S.After(S.Init(), before)), run);
            && AnsweredBy(p, n, i)
            && var (h, r) := (p.server.handlers[i], p.driver.calls[n].pc.result);
               h.answered == Some(Stop(EndTurn)) && Unmixed(h.acts) ==>
                 ParseTurn(Contents(r.messages), r.response.content) == Reported(h)
  {
    hide *;
    Reached(before, run);
    var p := After(Start(S.After(S.Init(), before)), run);
    i := AnsweredByItsHandler(p, n);
    AloneParses(p, n, i);
  }

  lemma AloneParses(p: State, n: nat, i: nat)
    requires Linked(p) && Exchanged(p.driver, n) && AnsweredBy(p, n, i) && Alone(p.driver, n)
    ensures var (h, r) := (p.server.handlers[i], p.driver.calls[n].pc.result);
            h.answered == Some(Stop(EndTurn)) && Unmixed(h.acts) ==>
              ParseTurn(Contents(r.messages), r.response.content) == Reported(h)
  {
    var (h, r) := (p.server.handlers[i], p.driver.calls[n].pc.result);
    if h.answered == Some(Stop(EndTurn)) && Unmixed(h.acts) {
      forall k | WindowStart(p, n) <= k <= AnswerAt(p, n) ensures p.server.out[k].origin == S.By(i) {
        WindowIsOwn(p, n, i, k);
      }
      WindowParses(p, n, i);
      HandlerFacts(p, i);
      AnsweredFacts(h);
      CompletedTurnParses(h);
    }
  }
}
