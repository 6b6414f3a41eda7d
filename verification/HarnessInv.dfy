/** What links the two ends in every run. */
module HarnessInv {
  import opened Text
  import opened Protocol
  import opened Turn
  import opened TurnFrames
  import opened Transcript
  import opened Harness
  import S = System
  import SI = SystemInv
  import T = SystemTheorems
  import D = Driver

  // ----- The text a prompt announces -----

  predicate TextOk(h: Handler) {
    h.text == ExtractPromptText(h.fields.prompt)
  }

  ghost predicate TextsOk(s: S.State) {
    forall i | 0 <= i < |s.handlers| :: TextOk(s.handlers[i])
  }

  lemma TextStays(s: S.State, step: S.Step, i: nat)
    requires S.Enabled(s, step) && i < |s.handlers|
    ensures i < |S.Apply(s, step).handlers|
    ensures var (h, g) := (s.handlers[i], S.Apply(s, step).handlers[i]); g.text == h.text && g.fields == h.fields
  {
    S.HandlersFrame(s, step);
    match step
    case Handle(j, choice) => AdvanceFrame(j, s.handlers[j], s.sh, choice);
    case CallCancel =>
    case StartCall(_) =>
    case WriteRequest(_) =>
    case FinishCall(_) =>
    case _ =>
  }

  lemma TextsStep(s: S.State, step: S.Step)
    requires TextsOk(s) && S.Enabled(s, step)
    ensures TextsOk(S.Apply(s, step))
  {
    hide Advance;
    var t := S.Apply(s, step);
    S.HandlersFrame(s, step);
    forall i | 0 <= i < |t.handlers| ensures TextOk(t.handlers[i]) {
      if i < |s.handlers| {
        assert TextOk(s.handlers[i]);
        TextStays(s, step, i);
      } else {
      }
    }
  }

  // ----- The invariant -----

  /** The driver's request of this call has been written to the wire. */
  predicate WasSent(d: D.State, n: nat) {
    n < |d.calls|
    && match d.calls[n].pc
       case Registering => false
       case Sending => false
       case Waiting => true
       case Removing(result) => !result.SendFailed? && !result.Closed?
       case Collecting(_) => true
       case Returned(result) => !result.SendFailed? && !result.Closed?
  }

  /** A request of the driver that has been sent. */
  predicate FromDriver(d: D.State, id: Id) {
    id.NumId? && id.n >= 1 && WasSent(d, id.n - 1)
  }

  predicate IsRequest(m: Message) {
    !Blank(m.methodName)
  }

  /** The driver's log is the beginning of what the server has written since line `base`. */
  ghost predicate LogLinked(base: nat, log: seq<D.Entry>, out: seq<S.OutLine>) {
    && base + |log| <= |out|
    && forall k | 0 <= k < |log| :: log[k].content == Encode(out[base + k].payload)
  }

  /** Messages on the wire are version 2.0 with an id; requests are the driver's own, each once. */
  ghost predicate WireLinked(d: D.State, wire: seq<Message>) {
    && (forall x | 0 <= x < |wire| :: wire[x].jsonrpc == "2.0" && HasId(wire[x].id))
    && (forall x | 0 <= x < |wire| && IsRequest(wire[x]) :: FromDriver(d, wire[x].id))
    && (forall x, y | 0 <= x < y < |wire| && IsRequest(wire[x]) && IsRequest(wire[y]) :: wire[x].id != wire[y].id)
  }

  /** The handlers numbered from `first` serve the driver's requests, each once. */
  ghost predicate HandlersLinked(d: D.State, wire: seq<Message>, handlers: seq<Handler>, first: nat) {
    && first <= |handlers|
    && (forall i | first <= i < |handlers| :: FromDriver(d, handlers[i].id))
    && (forall i, j | first <= i < j < |handlers| :: handlers[i].id != handlers[j].id)
    && (forall i, x | first <= i < |handlers| && 0 <= x < |wire| && IsRequest(wire[x]) :: handlers[i].id != wire[x].id)
  }

  /** Earlier handlers are done, and the lines since `base` are all by later ones. */
  ghost predicate LinesLinked(out: seq<S.OutLine>, base: nat, handlers: seq<Handler>, first: nat) {
    && base <= |out| && first <= |handlers|
    && (forall i | 0 <= i < first :: handlers[i].pc.Done?)
    && (forall k | base <= k < |out| :: out[k].origin.By? && out[k].origin.i >= first)
  }

  ghost predicate StartsOk(d: D.State) {
    forall n | 0 <= n < |d.calls| :: d.calls[n].start <= |d.messages|
  }

  /** A request's lines come after the driver's start mark. */
  ghost predicate MarksLinked(d: D.State, out: seq<S.OutLine>, base: nat, handlers: seq<Handler>, first: nat) {
    forall i, k | first <= i < |handlers| && FromDriver(d, handlers[i].id)
                  && 0 <= k < |out| && k < base + d.calls[handlers[i].id.n - 1].start ::
      out[k].origin != S.By(i)
  }

  /** Requests on the wire and handlers carry the parameters their Do was called with. */
  ghost predicate ParamsLinked(asked: map<Id, Params>, wire: seq<Message>, handlers: seq<Handler>, first: nat) {
    && (forall x | 0 <= x < |wire| && IsRequest(wire[x]) :: wire[x].id in asked && asked[wire[x].id] == wire[x].params)
    && (forall i | first <= i < |handlers| ::
          handlers[i].id in asked && handlers[i].fields == FieldsOf(asked[handlers[i].id]))
  }

  ghost predicate Ends(p: State) {
    T.Inv(p.server) && TextsOk(p.server) && D.Inv(p.driver)
  }

  ghost predicate Links(p: State) {
    && LogLinked(p.lines, p.driver.messages, p.server.out)
    && WireLinked(p.driver, p.wire)
    && HandlersLinked(p.driver, p.wire, p.server.handlers, p.handlers)
    && LinesLinked(p.server.out, p.lines, p.server.handlers, p.handlers) && !p.server.reader.Rejecting?
    && StartsOk(p.driver) && MarksLinked(p.driver, p.server.out, p.lines, p.server.handlers, p.handlers)
    && ParamsLinked(p.asked, p.wire, p.server.handlers, p.handlers)
  }

  ghost predicate Linked(p: State) {
    Ends(p) && Links(p)
  }

  // ----- Steps of the driver -----

  /** Calls stay, and a sent request stays sent and keeps its start mark. */
  ghost predicate DriverFrame(d: D.State, t: D.State) {
    && |d.calls| <= |t.calls|
    && (forall n | 0 <= n < |d.calls| && WasSent(d, n) :: WasSent(t, n) && t.calls[n].start == d.calls[n].start)
  }

  lemma MarksStay(d: D.State, t: D.State, wire: seq<Message>, out: seq<S.OutLine>, base: nat, handlers: seq<Handler>,
                  first: nat)
    requires MarksLinked(d, out, base, handlers, first) && HandlersLinked(d, wire, handlers, first) && DriverFrame(d, t)
    ensures MarksLinked(t, out, base, handlers, first)
  {
  }

  /** The links survive a step of the driver, apart from what it logs or sends. */
  lemma DriverKeepsLinks(p: State, step: D.Step)
    requires Links(p) && D.LogOk(p.driver) && D.Enabled(p.driver, step)
    ensures var t := D.Apply(p.driver, step);
            && WireLinked(t, p.wire) && HandlersLinked(t, p.wire, p.server.handlers, p.handlers)
            && StartsOk(t) && MarksLinked(t, p.server.out, p.lines, p.server.handlers, p.handlers)
  {
    var t := D.Apply(p.driver, step);
    MarksStay(p.driver, t, p.wire, p.server.out, p.lines, p.server.handlers, p.handlers);
  }

  lemma QuietDriver(d: D.State, step: D.Step)
    requires D.Enabled(d, step)
    ensures !step.Log? ==> D.Apply(d, step).messages == d.messages
    ensures step.Log? ==> D.Apply(d, step).messages == d.messages + [D.Entry(d.seqNo + 1, step.content)]
  {
  }

  lemma DriveKeepsLinks(p: State, step: D.Step)
    requires Links(p) && D.LogOk(p.driver) && Enabled(p, Drive(step))
    ensures Links(Apply(p, Drive(step)))
  {
    hide S.Apply;
    DriverKeepsLinks(p, step);
    QuietDriver(p.driver, step);
  }

  lemma LogGrows(p: State, t: D.State)
    requires LogLinked(p.lines, p.driver.messages, p.server.out) && Enabled(p, LogLine)
    requires t.messages == p.driver.messages + [D.Entry(p.driver.seqNo + 1, NextLine(p))]
    ensures LogLinked(p.lines, t.messages, p.server.out)
  {
  }

  lemma LogKeepsLinks(p: State)
    requires Links(p) && D.LogOk(p.driver) && Enabled(p, LogLine)
    ensures Links(Apply(p, LogLine))
  {
    hide S.Apply;
    var t := D.Apply(p.driver, D.Log(NextLine(p)));
    DriverKeepsLinks(p, D.Log(NextLine(p)));
    QuietDriver(p.driver, D.Log(NextLine(p)));
    LogGrows(p, t);
    assert Apply(p, LogLine) == p.(driver := t);
  }

  /** A message written by the driver: a request not seen before, or no request. */
  lemma WireGrows(d: D.State, wire: seq<Message>, handlers: seq<Handler>, first: nat, m: Message)
    requires WireLinked(d, wire) && HandlersLinked(d, wire, handlers, first) && m.jsonrpc == "2.0" && HasId(m.id)
    requires IsRequest(m) ==> FromDriver(d, m.id)
    requires IsRequest(m) ==> forall x | 0 <= x < |wire| && IsRequest(wire[x]) :: wire[x].id != m.id
    requires IsRequest(m) ==> forall i | first <= i < |handlers| :: handlers[i].id != m.id
    ensures WireLinked(d, wire + [m]) && HandlersLinked(d, wire + [m], handlers, first)
  {
  }

  lemma NewId(d: D.State, wire: seq<Message>, handlers: seq<Handler>, first: nat, id: Id)
    requires WireLinked(d, wire) && HandlersLinked(d, wire, handlers, first) && !FromDriver(d, id)
    ensures forall x | 0 <= x < |wire| && IsRequest(wire[x]) :: wire[x].id != id
    ensures forall i | first <= i < |handlers| :: handlers[i].id != id
  {
  }

  lemma ParamsGrow(asked: map<Id, Params>, wire: seq<Message>, handlers: seq<Handler>, first: nat, m: Message)
    requires ParamsLinked(asked, wire, handlers, first)
    requires IsRequest(m) ==> forall x | 0 <= x < |wire| && IsRequest(wire[x]) :: wire[x].id != m.id
    requires IsRequest(m) ==> forall i | first <= i < |handlers| :: handlers[i].id != m.id
    ensures ParamsLinked(if IsRequest(m) then asked[m.id := m.params] else asked, wire + [m], handlers, first)
  {
  }

  lemma SendMarks(d: D.State, n: nat)
    requires D.Enabled(d, D.Send(n))
    ensures WasSent(D.Apply(d, D.Send(n)), n) && !WasSent(d, n)
  {
  }

  lemma SendKeepsLinks(p: State, n: nat, methodName: string, params: Params)
    requires Links(p) && D.LogOk(p.driver) && Enabled(p, SendRequest(n, methodName, params))
    ensures Links(Apply(p, SendRequest(n, methodName, params)))
  {
    hide S.Apply;
    var t := D.Apply(p.driver, D.Send(n));
    var m := RequestMessage(n, methodName, params);
    DriverKeepsLinks(p, D.Send(n));
    QuietDriver(p.driver, D.Send(n));
    SendMarks(p.driver, n);
    NewId(p.driver, p.wire, p.server.handlers, p.handlers, m.id);
    WireGrows(t, p.wire, p.server.handlers, p.handlers, m);
    ParamsGrow(p.asked, p.wire, p.server.handlers, p.handlers, m);
  }

  lemma ReplyKeepsLinks(p: State, k: nat, body: Body)
    requires Links(p) && Enabled(p, SendReply(k, body))
    ensures Links(Apply(p, SendReply(k, body)))
  {
    hide S.Apply;
    var m := ReplyMessage(p.driver.messages[k].content.id, body);
    WireGrows(p.driver, p.wire, p.server.handlers, p.handlers, m);
    ParamsGrow(p.asked, p.wire, p.server.handlers, p.handlers, m);
  }

  // ----- Steps of the server -----

  lemma DoneStays(s: S.State, step: S.Step, i: nat)
    requires S.Enabled(s, step) && i < |s.handlers| && s.handlers[i].pc.Done?
    ensures i < |S.Apply(s, step).handlers| && S.Apply(s, step).handlers[i].pc.Done?
  {
    S.HandlersFrame(s, step);
    match step
    case CallCancel =>
    case _ =>
  }

  /** What a step of the server other than a read does to lines and handlers. */
  ghost predicate ServerFrame(s: S.State, t: S.State) {
    && s.out <= t.out && |s.handlers| == |t.handlers|
    && (forall i | 0 <= i < |s.handlers| ::
          t.handlers[i].id == s.handlers[i].id && t.handlers[i].fields == s.handlers[i].fields)
    && (forall i | 0 <= i < |s.handlers| && s.handlers[i].pc.Done? :: t.handlers[i].pc.Done?)
    && (forall k | |s.out| <= k < |t.out| ::
          t.out[k].origin.By? && t.out[k].origin.i < |s.handlers| && !s.handlers[t.out[k].origin.i].pc.Done?)
  }

  lemma ServerFramed(s: S.State, step: S.Step)
    requires S.Enabled(s, step) && !step.Read? && !s.reader.Rejecting?
    ensures ServerFrame(s, S.Apply(s, step))
  {
    var t := S.Apply(s, step);
    S.HandlersFrame(s, step);
    forall i | 0 <= i < |s.handlers|
      ensures t.handlers[i].id == s.handlers[i].id && t.handlers[i].fields == s.handlers[i].fields
    {
      T.IdentityOf(s, step, i);
      TextStays(s, step, i);
    }
    forall i | 0 <= i < |s.handlers| && s.handlers[i].pc.Done? ensures t.handlers[i].pc.Done? {
      DoneStays(s, step, i);
    }
    forall k | |s.out| <= k < |t.out|
      ensures t.out[k].origin.By? && t.out[k].origin.i < |s.handlers| && !s.handlers[t.out[k].origin.i].pc.Done?
    {
      assert t.out[k] == S.Written(s, step)[k - |s.out|];
    }
  }

  lemma ServedHandlers(d: D.State, wire: seq<Message>, s: S.State, t: S.State, first: nat)
    requires HandlersLinked(d, wire, s.handlers, first) && ServerFrame(s, t)
    ensures HandlersLinked(d, wire, t.handlers, first)
  {
  }

  lemma ServedParams(asked: map<Id, Params>, wire: seq<Message>, s: S.State, t: S.State, first: nat)
    requires ParamsLinked(asked, wire, s.handlers, first) && ServerFrame(s, t)
    ensures ParamsLinked(asked, wire, t.handlers, first)
  {
  }

  lemma ServedLines(s: S.State, t: S.State, base: nat, first: nat)
    requires LinesLinked(s.out, base, s.handlers, first) && ServerFrame(s, t)
    ensures LinesLinked(t.out, base, t.handlers, first)
  {
  }

  lemma ServedMarks(d: D.State, s: S.State, t: S.State, base: nat, first: nat)
    requires MarksLinked(d, s.out, base, s.handlers, first) && StartsOk(d) && base + |d.messages| <= |s.out|
             && ServerFrame(s, t)
    ensures MarksLinked(d, t.out, base, t.handlers, first)
  {
    forall i, k | first <= i < |t.handlers| && FromDriver(d, t.handlers[i].id)
                  && 0 <= k < |t.out| && k < base + d.calls[t.handlers[i].id.n - 1].start
      ensures t.out[k].origin != S.By(i)
    {
      assert t.out[k] == s.out[k];
    }
  }

  lemma ServeKeepsLinks(p: State, step: S.Step)
    requires Links(p) && Enabled(p, Serve(step))
    ensures Links(Apply(p, Serve(step)))
  {
    var t := S.Apply(p.server, step);
    ServerFramed(p.server, step);
    ServedHandlers(p.driver, p.wire, p.server, t, p.handlers);
    ServedLines(p.server, t, p.lines, p.handlers);
    ServedMarks(p.driver, p.server, t, p.lines, p.handlers);
    ServedParams(p.asked, p.wire, p.server, t, p.handlers);
  }

  // ----- The reader takes the next message off the wire -----

  lemma ReadResult(s: S.State, m: Message)
    requires S.Enabled(s, S.Read(Parsed(m))) && m.jsonrpc == "2.0" && HasId(m.id)
    ensures var t := S.Apply(s, S.Read(Parsed(m)));
            t.out == s.out && !t.reader.Rejecting?
            && t.handlers == if IsRequest(m) then s.handlers + [Spawned(s.conn, m)] else s.handlers
  {
    hide Advance;
    if IsRequest(m) {
      assert S.Classify(Parsed(m)) == S.Spawn(m);
    } else {
      assert S.Classify(Parsed(m)) == S.Correlate(m.id, m.body);
    }
  }

  lemma WireShrinks(d: D.State, wire: seq<Message>, handlers: seq<Handler>, first: nat)
    requires WireLinked(d, wire) && HandlersLinked(d, wire, handlers, first) && wire != []
    ensures WireLinked(d, wire[1..]) && HandlersLinked(d, wire[1..], handlers, first)
  {
  }

  lemma ParamsRead(asked: map<Id, Params>, wire: seq<Message>, handlers: seq<Handler>, first: nat, conn: nat)
    requires ParamsLinked(asked, wire, handlers, first) && wire != []
    ensures ParamsLinked(asked, wire[1..], handlers, first)
    ensures IsRequest(wire[0]) ==> ParamsLinked(asked, wire[1..], handlers + [Spawned(conn, wire[0])], first)
  {
  }

  lemma NewHandler(d: D.State, wire: seq<Message>, handlers: seq<Handler>, first: nat, h: Handler)
    requires WireLinked(d, wire) && HandlersLinked(d, wire, handlers, first)
    requires wire != [] && IsRequest(wire[0]) && h.id == wire[0].id
    ensures HandlersLinked(d, wire[1..], handlers + [h], first)
  {
    var (n, more) := (|handlers|, handlers + [h]);
    WireShrinks(d, wire, handlers, first);
    forall i, j | first <= i < j < |more| ensures more[i].id != more[j].id {
      if j == n { assert handlers[i].id != wire[0].id; }
    }
    forall i, x | first <= i < |more| && 0 <= x < |wire[1..]| && IsRequest(wire[1..][x])
      ensures more[i].id != wire[1..][x].id
    {
      if i == n { assert wire[1..][x] == wire[x + 1]; }
    }
  }

  lemma NewMarks(d: D.State, s: S.State, base: nat, first: nat, h: Handler)
    requires MarksLinked(d, s.out, base, s.handlers, first) && SI.OutOk(s)
    ensures MarksLinked(d, s.out, base, s.handlers + [h], first)
  {
    var n := |s.handlers|;
    forall k | 0 <= k < |s.out| ensures s.out[k].origin != S.By(n) {
    }
  }

  lemma ReadKeepsLinks(p: State)
    requires Links(p) && SI.OutOk(p.server) && Enabled(p, ReadLine)
    ensures Links(Apply(p, ReadLine))
  {
    var m := p.wire[0];
    ReadResult(p.server, m);
    ParamsRead(p.asked, p.wire, p.server.handlers, p.handlers, p.server.conn);
    if IsRequest(m) {
      WireShrinks(p.driver, p.wire, p.server.handlers, p.handlers);
      NewHandler(p.driver, p.wire, p.server.handlers, p.handlers, Spawned(p.server.conn, m));
      NewMarks(p.driver, p.server, p.lines, p.handlers, Spawned(p.server.conn, m));
    } else {
      WireShrinks(p.driver, p.wire, p.server.handlers, p.handlers);
    }
  }

  // ----- Every run -----

  lemma ServerStep(p: State, step: S.Step)
    requires T.Inv(p.server) && TextsOk(p.server) && S.Enabled(p.server, step)
    ensures T.Inv(S.Apply(p.server, step)) && TextsOk(S.Apply(p.server, step))
  {
    hide *;
    T.StepKeepsInv(p.server, step);
    TextsStep(p.server, step);
  }

  lemma EndsStep(p: State, step: Step)
    requires Ends(p) && Enabled(p, step)
    ensures Ends(Apply(p, step))
  {
    match step
    case Serve(s) => ServerStep(p, s);
    case ReadLine => ServerStep(p, S.Read(Parsed(p.wire[0])));
    case Drive(s) => D.StepKeepsInv(p.driver, s);
    case LogLine => D.StepKeepsInv(p.driver, D.Log(NextLine(p)));
    case SendRequest(n, _, _) => D.StepKeepsInv(p.driver, D.Send(n));
    case SendReply(_, _) =>
  }

  lemma LinksStep(p: State, step: Step)
    requires Links(p) && SI.OutOk(p.server) && D.LogOk(p.driver) && Enabled(p, step)
    ensures Links(Apply(p, step))
  {
    hide *;
    match step
    case Serve(s) => ServeKeepsLinks(p, s);
    case ReadLine => ReadKeepsLinks(p);
    case Drive(s) => DriveKeepsLinks(p, s);
    case LogLine => LogKeepsLinks(p);
    case SendRequest(n, methodName, params) => SendKeepsLinks(p, n, methodName, params);
    case SendReply(k, body) => ReplyKeepsLinks(p, k, body);
  }

  lemma EndsGiveOut(p: State)
    requires Ends(p)
    ensures SI.OutOk(p.server) && D.LogOk(p.driver)
  {
  }

  lemma {:induction false} RunKeepsLinked(p: State, run: seq<Step>)
    requires Linked(p) && Valid(p, run)
    ensures Linked(After(p, run))
    decreases |run|
  {
    if run != [] {
      EndsGiveOut(p);
      EndsStep(p, run[0]);
      LinksStep(p, run[0]);
      RunKeepsLinked(Apply(p, run[0]), run[1..]);
    }
  }
}
