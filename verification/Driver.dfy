/** The test driver at the other end of the connection: its log of server lines and its pending
    requests, with any number of Do calls and one read loop. */
module Driver {
  import opened Text
  import opened Protocol

  // ----- Decoded lines -----

  /** The members of an update that parseTurn looks at. */
  datatype Wire = Wire(kind: string, text: string, tool: ToolFields)

  /** One decoded line; a line that does not decode has no id, no method and no update. */
  datatype Content = Content(id: Id, methodName: string, update: Option<Wire>, stop: string, failed: bool)

  /** A line in the driver's log, numbered from 1. */
  datatype Entry = Entry(seqNo: nat, content: Content)

  /** A missing or null id decodes to nil. */
  predicate HasDriverId(content: Content) {
    content.id != NoId && content.id != NULL_ID
  }

  /** The driver's own rpcIDKey. */
  function DriverKey(id: Id): string {
    match id
    case NoId => "null"
    case StrId(s) => "s:" + s
    case NumId(n) => "n:" + Numeral(n)
    case BoolId(b) => if b then "j:true" else "j:false"
    case RawId(raw) => if raw == "null" then "null" else "j:" + raw
  }

  predicate IsResponse(content: Content, key: string) {
    content.methodName == "" && HasDriverId(content) && DriverKey(content.id) == key
  }

  /** messagesInRange: the entries numbered from lo to hi. */
  function InRange(log: seq<Entry>, lo: nat, hi: nat): seq<Entry> {
    if log == [] then []
    else
      var last := log[|log| - 1];
      InRange(log[..|log| - 1], lo, hi) + (if lo <= last.seqNo <= hi then [last] else [])
  }

  // ----- The step system -----

  datatype Result = Exchange(messages: seq<Entry>, response: Entry) | Closed | SendFailed | TimedOut | CtxDone

  datatype DoPC =
    | Registering
    | Sending
    | Waiting
    | Removing(result: Result)
    | Collecting(response: Entry)
    | Returned(result: Result)

  /** One call of Do; `buffer` is its response channel (capacity one), `sends` the sends it ever got. */
  datatype DoCall = DoCall(id: Id, key: string, pc: DoPC, start: nat, buffer: seq<Entry>, sends: nat)

  datatype Delivery = Delivery(entry: Entry, call: nat)

  datatype State = State(
    nextId: nat,
    seqNo: nat,
    messages: seq<Entry>,
    pending: map<string, nat>,
    calls: seq<DoCall>,
    hand: Option<Delivery>,
    closed: bool)

  function Init(): State {
    State(1, 0, [], map[], [], None, false)
  }

  datatype Step =
    | TakeId
    | Register(d: nat)
    | Send(d: nat)
    | FailSend(d: nat)
    | Receive(d: nat)
    | Expire(d: nat)
    | End(d: nat)
    | Remove(d: nat)
    | Collect(d: nat)
    | Log(content: Content)
    | Deliver
    | Close

  predicate Enabled(s: State, step: Step) {
    match step
    case TakeId => true
    case Register(d) => d < |s.calls| && s.calls[d].pc.Registering?
    case Send(d) => d < |s.calls| && s.calls[d].pc.Sending?
    case FailSend(d) => d < |s.calls| && s.calls[d].pc.Sending?
    case Receive(d) => d < |s.calls| && s.calls[d].pc.Waiting? && s.calls[d].buffer != []
    case Expire(d) => d < |s.calls| && s.calls[d].pc.Waiting?
    case End(d) => d < |s.calls| && s.calls[d].pc.Waiting?
    case Remove(d) => d < |s.calls| && s.calls[d].pc.Removing?
    case Collect(d) => d < |s.calls| && s.calls[d].pc.Collecting?
    case Log(_) => s.hand.None?
    case Deliver => s.hand.Some? && s.hand.value.call < |s.calls| && s.calls[s.hand.value.call].buffer == []
    case Close => true
  }

  function SetPC(s: State, d: nat, pc: DoPC): State
    requires d < |s.calls|
  {
    s.(calls := s.calls[d := s.calls[d].(pc := pc)])
  }

  /** readLoop: a response claims the request it answers; C stands for the response channels. */
  function Claim<C>(pending: map<string, C>, content: Content): (map<string, C>, Option<C>) {
    var key := DriverKey(content.id);
    if content.methodName == "" && HasDriverId(content) && key in pending then (pending - {key}, Some(pending[key]))
    else (pending, None)
  }

  /** readLoop's critical section: number and keep the line, and claim the request it answers. */
  function ApplyLog(s: State, content: Content): State {
    var entry := Entry(s.seqNo + 1, content);
    var (pending, claimed) := Claim(s.pending, content);
    s.(seqNo := s.seqNo + 1, messages := s.messages + [entry], pending := pending,
       hand := if claimed.Some? then Some(Delivery(entry, claimed.value)) else s.hand)
  }

  /** The state after a step; a step that is not enabled changes nothing. */
  function Apply(s: State, step: Step): State {
    if !Enabled(s, step) then s else
    match step
    case TakeId =>
      var id := NumId(s.nextId);
      s.(nextId := s.nextId + 1, calls := s.calls + [DoCall(id, DriverKey(id), Registering, 0, [], 0)])
    case Register(d) =>
      if s.closed then SetPC(s, d, Returned(Closed))
      else s.(pending := s.pending[s.calls[d].key := d],
              calls := s.calls[d := s.calls[d].(pc := Sending, start := s.seqNo)])
    case Send(d) => SetPC(s, d, Waiting)
    case FailSend(d) => SetPC(s, d, Removing(SendFailed))
    case Receive(d) =>
      s.(calls := s.calls[d := s.calls[d].(pc := Collecting(s.calls[d].buffer[0]), buffer := s.calls[d].buffer[1..])])
    case Expire(d) => SetPC(s, d, Removing(TimedOut))
    case End(d) => SetPC(s, d, Returned(CtxDone))
    case Remove(d) => SetPC(s.(pending := s.pending - {s.calls[d].key}), d, Returned(s.calls[d].pc.result))
    case Collect(d) =>
      var response := s.calls[d].pc.response;
      SetPC(s, d, Returned(Exchange(InRange(s.messages, s.calls[d].start + 1, response.seqNo), response)))
    case Log(content) => ApplyLog(s, content)
    case Deliver =>
      var d := s.hand.value.call;
      var call := s.calls[d];
      s.(calls := s.calls[d := call.(buffer := call.buffer + [s.hand.value.entry], sends := call.sends + 1)],
         hand := None)
    case Close => s.(closed := true)
  }

  predicate Valid(s: State, run: seq<Step>)
    decreases |run|
  {
    run == [] || (Enabled(s, run[0]) && Valid(Apply(s, run[0]), run[1..]))
  }

  function After(s: State, run: seq<Step>): State
    decreases |run|
  {
    if run == [] then s else After(Apply(s, run[0]), run[1..])
  }

  // ----- The invariant -----

  ghost predicate LogOk(s: State) {
    s.seqNo == |s.messages| && forall k | 0 <= k < |s.messages| :: s.messages[k].seqNo == k + 1
  }

  /** The first response with the call's key since its start mark. */
  ghost predicate IsFirstResponse(messages: seq<Entry>, call: DoCall, entry: Entry) {
    && call.start < entry.seqNo <= |messages| && messages[entry.seqNo - 1] == entry
    && IsResponse(entry.content, call.key)
    && forall k | call.start <= k < entry.seqNo - 1 :: !IsResponse(messages[k].content, call.key)
  }

  /** Registered and still waiting for its response to be read. */
  ghost predicate Awaiting(s: State, d: nat)
    requires d < |s.calls|
  {
    var call := s.calls[d];
    && call.sends == 0 && call.buffer == [] && call.start <= |s.messages|
    && !call.pc.Registering? && !call.pc.Collecting? && !(call.pc.Returned? && call.pc.result.Exchange?)
    && (s.hand.Some? ==> s.hand.value.call != d)
    && forall k | call.start <= k < |s.messages| :: !IsResponse(s.messages[k].content, call.key)
  }

  ghost predicate CallOk(s: State, d: nat)
    requires d < |s.calls|
  {
    var call := s.calls[d];
    && call.id == NumId(d + 1) && call.key == DriverKey(call.id)
    && call.sends <= 1 && |call.buffer| <= call.sends
    && (call.pc.Registering? ==> call.sends == 0 && (s.hand.Some? ==> s.hand.value.call != d))
    && (call.buffer != [] ==> IsFirstResponse(s.messages, call, call.buffer[0]))
    && (call.pc.Collecting? ==>
        call.buffer == [] && call.sends == 1 && IsFirstResponse(s.messages, call, call.pc.response))
    && (call.pc.Returned? && call.pc.result.Exchange? ==>
          var r := call.pc.result;
          IsFirstResponse(s.messages, call, r.response) && r.messages == s.messages[call.start..r.response.seqNo])
    && (call.pc.Removing? ==> !call.pc.result.Exchange?)
  }

  ghost predicate Inv(s: State) {
    && LogOk(s)
    && s.nextId == |s.calls| + 1
    && (forall d | 0 <= d < |s.calls| :: CallOk(s, d))
    && (forall k | k in s.pending ::
          s.pending[k] < |s.calls| && s.calls[s.pending[k]].key == k && Awaiting(s, s.pending[k]))
    && (s.hand.Some? ==>
          var (d, entry) := (s.hand.value.call, s.hand.value.entry);
          d < |s.calls| && s.calls[d].sends == 0 && s.calls[d].buffer == [] && !s.calls[d].pc.Collecting?
          && !(s.calls[d].pc.Returned? && s.calls[d].pc.result.Exchange?)
          && IsFirstResponse(s.messages, s.calls[d], entry))
  }

  // ----- Proofs -----

  lemma {:induction false} RangeToEnd(log: seq<Entry>, start: nat, end: nat)
    requires forall k | 0 <= k < |log| :: log[k].seqNo == k + 1
    requires start <= |log| <= end
    ensures InRange(log, start + 1, end) == log[start..]
  {
    if start < |log| {
      RangeToEnd(log[..|log| - 1], start, end);
    } else if log != [] {
      RangeBefore(log, start, end);
    }
  }

  lemma {:induction false} RangeBefore(log: seq<Entry>, start: nat, end: nat)
    requires forall k | 0 <= k < |log| :: log[k].seqNo == k + 1
    requires |log| <= start
    ensures InRange(log, start + 1, end) == []
  {
    if log != [] { RangeBefore(log[..|log| - 1], start, end); }
  }

  /** In a log numbered from 1, a range of numbers is a slice. */
  lemma {:induction false} RangeIsSlice(log: seq<Entry>, start: nat, end: nat)
    requires forall k | 0 <= k < |log| :: log[k].seqNo == k + 1
    requires start <= end <= |log|
    ensures InRange(log, start + 1, end) == log[start..end]
  {
    if end == |log| {
      RangeToEnd(log, start, end);
    } else {
      RangeIsSlice(log[..|log| - 1], start, end);
    }
  }

  lemma CallKeysDiffer(s: State, d: nat, e: nat)
    requires d < |s.calls| && e < |s.calls| && d != e && CallOk(s, d) && CallOk(s, e)
    ensures s.calls[d].key != s.calls[e].key
  {
    NumeralInjective(d + 1, e + 1);
    assert s.calls[d].key[2..] == Numeral(d + 1);
    assert s.calls[e].key[2..] == Numeral(e + 1);
  }

  lemma LogStep(s: State, step: Step)
    requires LogOk(s) && Enabled(s, step)
    ensures LogOk(Apply(s, step)) && s.messages <= Apply(s, step).messages
    ensures |Apply(s, step).messages| <= |s.messages| + 1 && (|Apply(s, step).messages| > |s.messages| ==> step.Log?)
  {
  }

  /** The call a step works on. */
  function Actor(s: State, step: Step): Option<nat> {
    match step
    case Register(d) => Some(d)
    case Send(d) => Some(d)
    case FailSend(d) => Some(d)
    case Receive(d) => Some(d)
    case Expire(d) => Some(d)
    case End(d) => Some(d)
    case Remove(d) => Some(d)
    case Collect(d) => Some(d)
    case Deliver => if s.hand.Some? then Some(s.hand.value.call) else None
    case _ => None
  }

  lemma CollectingCall(s: State, d: nat)
    requires Inv(s) && Enabled(s, Collect(d))
    ensures CallOk(Apply(s, Collect(d)), d)
  {
    assert CallOk(s, d);
    RangeIsSlice(s.messages, s.calls[d].start, s.calls[d].pc.response.seqNo);
  }

  lemma ActingCall(s: State, step: Step, d: nat)
    requires Inv(s) && Enabled(s, step) && Actor(s, step) == Some(d)
    ensures CallOk(Apply(s, step), d)
  {
    assert CallOk(s, d);
    match step
    case Collect(_) => CollectingCall(s, d);
    case Receive(_) =>
    case Deliver =>
    case _ =>
  }

  lemma CallsStep(s: State, step: Step)
    requires Inv(s) && Enabled(s, step)
    ensures var t := Apply(s, step);
            t.nextId == |t.calls| + 1 && forall d | 0 <= d < |t.calls| :: CallOk(t, d)
  {
    var t := Apply(s, step);
    LogStep(s, step);
    forall d | 0 <= d < |t.calls| ensures CallOk(t, d) {
      if d == |s.calls| {
      } else if Actor(s, step) == Some(d) {
        ActingCall(s, step, d);
      } else {
        assert CallOk(s, d);
        NotHanded(s, step, d);
      }
    }
  }

  /** A registering call is never handed a response. */
  lemma NotHanded(s: State, step: Step, d: nat)
    requires Inv(s) && Enabled(s, step) && d < |s.calls| && Actor(s, step) != Some(d)
    ensures d < |Apply(s, step).calls| && Apply(s, step).calls[d] == s.calls[d]
    ensures Apply(s, step).hand.Some? ==> Apply(s, step).hand.value.call != d || !s.calls[d].pc.Registering?
  {
    assert CallOk(s, d);
  }

  lemma PendingAt(s: State, step: Step, k: string)
    requires Inv(s) && Enabled(s, step) && k in Apply(s, step).pending
    ensures var t := Apply(s, step);
            t.pending[k] < |t.calls| && t.calls[t.pending[k]].key == k && Awaiting(t, t.pending[k])
  {
    var t := Apply(s, step);
    LogStep(s, step);
    if step.Register? && t.pending[k] == step.d {
      assert CallOk(s, step.d);
    } else {
      var d := s.pending[k];
      assert k in s.pending && t.pending[k] == d && Awaiting(s, d) && CallOk(s, d);
    }
  }

  lemma HandStep(s: State, step: Step)
    requires Inv(s) && Enabled(s, step) && Apply(s, step).hand.Some?
    ensures var t := Apply(s, step);
            var (d, entry) := (t.hand.value.call, t.hand.value.entry);
            d < |t.calls| && t.calls[d].sends == 0 && t.calls[d].buffer == [] && !t.calls[d].pc.Collecting?
            && !(t.calls[d].pc.Returned? && t.calls[d].pc.result.Exchange?)
            && IsFirstResponse(t.messages, t.calls[d], entry)
  {
    var t := Apply(s, step);
    var d := t.hand.value.call;
    if step.Log? {
      assert Awaiting(s, d);
    } else {
      assert CallOk(s, d);
    }
  }

  lemma StepKeepsInv(s: State, step: Step)
    requires Inv(s) && Enabled(s, step)
    ensures Inv(Apply(s, step))
  {
    var t := Apply(s, step);
    LogStep(s, step);
    CallsStep(s, step);
    forall k | k in t.pending
      ensures t.pending[k] < |t.calls| && t.calls[t.pending[k]].key == k && Awaiting(t, t.pending[k])
    {
      PendingAt(s, step, k);
    }
    if t.hand.Some? { HandStep(s, step); }
  }

  lemma {:induction false} RunKeepsInv(s: State, run: seq<Step>)
    requires Inv(s) && Valid(s, run)
    ensures Inv(After(s, run))
    decreases |run|
  {
    if run != [] {
      StepKeepsInv(s, run[0]);
      RunKeepsInv(Apply(s, run[0]), run[1..]);
    }
  }

  // ----- What the driver guarantees -----

  /** In every interleaving the log is numbered from 1 without gaps. */
  lemma LogIsNumbered(run: seq<Step>, k: nat)
    requires Valid(Init(), run) && k < |After(Init(), run).messages|
    ensures After(Init(), run).messages[k].seqNo == k + 1
  {
    RunKeepsInv(Init(), run);
  }

  /** The read loop never blocks on a response channel, and no channel gets two responses. */
  lemma DeliveryNeverBlocks(run: seq<Step>)
    requires Valid(Init(), run)
    ensures var s := After(Init(), run);
            (s.hand.Some? ==> Enabled(s, Deliver))
            && forall d | 0 <= d < |s.calls| :: s.calls[d].sends <= 1 && |s.calls[d].buffer| <= 1
  {
    RunKeepsInv(Init(), run);
    var s := After(Init(), run);
    forall d | 0 <= d < |s.calls| ensures s.calls[d].sends <= 1 && |s.calls[d].buffer| <= 1 {
      assert CallOk(s, d);
    }
  }

  /** A Do that succeeds returns the contiguous slice of the log from its start mark to the first
      response with its own id, which is the slice's last entry. */
  lemma DoReturnsItsWindow(run: seq<Step>, d: nat)
    requires Valid(Init(), run) && d < |After(Init(), run).calls|
    requires var pc := After(Init(), run).calls[d].pc; pc.Returned? && pc.result.Exchange?
    ensures var s := After(Init(), run);
            var (call, r) := (s.calls[d], s.calls[d].pc.result);
            && call.key == DriverKey(NumId(d + 1))
            && IsFirstResponse(s.messages, call, r.response)
            && r.messages == s.messages[call.start..r.response.seqNo]
            && r.messages != [] && r.messages[|r.messages| - 1] == r.response
  {
    RunKeepsInv(Init(), run);
    assert CallOk(After(Init(), run), d);
  }

  /** No line answers two Do calls. */
  lemma NoLineAnswersTwoCalls(run: seq<Step>, d: nat, e: nat)
    requires Valid(Init(), run) && d < |After(Init(), run).calls| && e < |After(Init(), run).calls|
    requires var s := After(Init(), run);
             && s.calls[d].pc.Returned? && s.calls[d].pc.result.Exchange?
             && s.calls[e].pc.Returned? && s.calls[e].pc.result.Exchange?
             && s.calls[d].pc.result.response == s.calls[e].pc.result.response
    ensures d == e
  {
    DoReturnsItsWindow(run, d);
    DoReturnsItsWindow(run, e);
    RunKeepsInv(Init(), run);
    if d != e { CallKeysDiffer(After(Init(), run), d, e); }
  }
}
