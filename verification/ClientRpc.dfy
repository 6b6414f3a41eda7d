/** Requests from the agent to the client and the client's responses: any number of concurrent
    calls, one reader, responses that come early, late, twice or unasked. */
module ClientRpc {
  import opened Text
  import opened Protocol

  /** Request ids come from a 64-bit counter that wraps around. */
  const WORD: nat := 0x1_0000_0000_0000_0000

  /** A response of the client; `uid` is its position in the order of arrival. */
  datatype Reply = Reply(uid: nat, id: Id, body: Body)

  // ----- The tables of the server, and the critical sections that change them -----

  /** requestIDCounter, pendingResponses and earlyResponses; C stands for the response channels. */
  datatype Tables<C> = Tables(counter: nat, pending: map<string, C>, early: map<string, Reply>)

  function RequestId(n: nat): string {
    "acp-client-" + Decimal(n)
  }

  function PendingKey(id: string): string {
    "s:" + id
  }

  function BumpCounter<C>(t: Tables<C>): Tables<C> {
    t.(counter := (t.counter + 1) % WORD)
  }

  /** registerPendingResponse: an early response is taken, otherwise the channel is recorded. */
  function RegisterKey<C>(t: Tables<C>, key: string, ch: C): (Tables<C>, Option<Reply>) {
    if key in t.early then (t.(early := t.early - {key}), Some(t.early[key]))
    else (t.(pending := t.pending[key := ch]), None)
  }

  function UnregisterKey<C>(t: Tables<C>, key: string): Tables<C> {
    t.(pending := t.pending - {key})
  }

  /** handleClientResponse: claim the waiting channel, or keep the response for a later call. */
  function ClaimKey<C>(t: Tables<C>, key: string, reply: Reply): (Tables<C>, Option<C>) {
    if key in t.pending then (t.(pending := t.pending - {key}), Some(t.pending[key]))
    else (t.(early := t.early[key := reply]), None)
  }

  // ----- The step system -----

  datatype Exit = CtxDone | WriteFailed | Answered(reply: Reply)

  /** Where one callClient stands: between taking its id and the deferred unregister. */
  datatype CallPC =
    | Registering
    | CarryingEarly(reply: Reply)
    | Writing
    | Selecting
    | Leaving(exit: Exit)
    | Finished(exit: Exit)

  /** `key` is the key of the request id, `buffer` the response channel (capacity one), `sends` the
      number of sends that channel ever got. */
  datatype Call = Call(owner: nat, key: string, pc: CallPC, buffer: seq<Reply>, sends: nat)

  /** What the reader goroutine holds inside handleClientResponse. */
  datatype Hand = Empty | Holding(reply: Reply) | Sending(reply: Reply, call: nat)

  datatype Place = InHand | InBuffer(call: nat) | Carried(call: nat) | Consumed(call: nat)
                 | Early(key: string) | Overwritten(uid: nat)

  /** `received`, `lost` and `ledger` are history: the responses in order of arrival, those
      overwritten in earlyResponses, and where each response went last. */
  datatype State = State(
    tables: Tables<nat>,
    calls: seq<Call>,
    hand: Hand,
    received: seq<Reply>,
    lost: set<nat>,
    ledger: seq<Place>)

  function Init(): State {
    State(Tables(0, map[], map[]), [], Empty, [], {}, [])
  }

  /** The key of the call that took the (c+1)-th number. */
  function Key(c: nat): string {
    PendingKey(RequestId((c + 1) % WORD))
  }

  datatype Step =
    | Begin(owner: nat)
    | Register(c: nat)
    | SendEarly(c: nat)
    | Write(c: nat)
    | FailWrite(c: nat)
    | Abandon(c: nat)
    | Receive(c: nat)
    | Unregister(c: nat)
    | Arrive(id: Id, body: Body)
    | Claim
    | Deliver

  predicate Enabled(s: State, step: Step) {
    match step
    case Begin(_) => true
    case Register(c) => c < |s.calls| && s.calls[c].pc.Registering?
    case SendEarly(c) => c < |s.calls| && s.calls[c].pc.CarryingEarly? && s.calls[c].buffer == []
    case Write(c) => c < |s.calls| && s.calls[c].pc.Writing?
    case FailWrite(c) => c < |s.calls| && s.calls[c].pc.Writing?
    case Abandon(c) => c < |s.calls| && s.calls[c].pc.Selecting?
    case Receive(c) => c < |s.calls| && s.calls[c].pc.Selecting? && s.calls[c].buffer != []
    case Unregister(c) => c < |s.calls| && s.calls[c].pc.Leaving?
    case Arrive(id, _) => HasId(id) && s.hand.Empty?
    case Claim => s.hand.Holding?
    case Deliver => s.hand.Sending? && s.hand.call < |s.calls| && s.calls[s.hand.call].buffer == []
  }

  function SetPC(s: State, c: nat, pc: CallPC): State
    requires c < |s.calls|
  {
    s.(calls := s.calls[c := s.calls[c].(pc := pc)])
  }

  function Move(s: State, uid: nat, place: Place): State {
    if uid < |s.ledger| then s.(ledger := s.ledger[uid := place]) else s
  }

  function ApplyRegister(s: State, c: nat): State
    requires c < |s.calls|
  {
    var (t, early) := RegisterKey(s.tables, s.calls[c].key, c);
    match early
    case Some(r) => Move(SetPC(s.(tables := t), c, CarryingEarly(r)), r.uid, Carried(c))
    case None => SetPC(s.(tables := t), c, Writing)
  }

  function ApplyClaim(s: State): State
    requires s.hand.Holding?
  {
    var r := s.hand.reply;
    var key := ServerKey(r.id);
    var (t, ch) := ClaimKey(s.tables, key, r);
    match ch
    case Some(c) => s.(tables := t, hand := Sending(r, c))
    case None =>
      var s1 := if key in s.tables.early then
                  var prev := s.tables.early[key].uid;
                  Move(s.(lost := s.lost + {prev}), prev, Overwritten(prev))
                else s;
      Move(s1.(tables := t, hand := Empty), r.uid, Early(key))
  }

  /** The state after a step; a step that is not enabled changes nothing. */
  function Apply(s: State, step: Step): State {
    if !Enabled(s, step) then s else
    match step
    case Begin(owner) =>
      var t := BumpCounter(s.tables);
      s.(tables := t, calls := s.calls + [Call(owner, PendingKey(RequestId(t.counter)), Registering, [], 0)])
    case Register(c) => ApplyRegister(s, c)
    case SendEarly(c) =>
      var call := s.calls[c];
      Move(s.(calls := s.calls[c := call.(pc := Writing, buffer := [call.pc.reply], sends := call.sends + 1)]),
           call.pc.reply.uid, InBuffer(c))
    case Write(c) => SetPC(s, c, Selecting)
    case FailWrite(c) => SetPC(s, c, Leaving(WriteFailed))
    case Abandon(c) => SetPC(s, c, Leaving(CtxDone))
    case Receive(c) =>
      var call := s.calls[c];
      var r := call.buffer[0];
      Move(s.(calls := s.calls[c := call.(pc := Leaving(Answered(r)), buffer := call.buffer[1..])]), r.uid, Consumed(c))
    case Unregister(c) => SetPC(s.(tables := UnregisterKey(s.tables, s.calls[c].key)), c, Finished(s.calls[c].pc.exit))
    case Arrive(id, body) =>
      var r := Reply(|s.received|, id, body);
      s.(hand := Holding(r), received := s.received + [r], ledger := s.ledger + [InHand])
    case Claim => ApplyClaim(s)
    case Deliver =>
      var c := s.hand.call;
      var call := s.calls[c];
      Move(s.(calls := s.calls[c := call.(buffer := call.buffer + [s.hand.reply], sends := call.sends + 1)],
              hand := Empty),
           s.hand.reply.uid, InBuffer(c))
  }

  predicate Valid(s: State, run: seq<Step>)
    decreases |run|
  {
    run == [] || (Enabled(s, run[0]) && Valid(Apply(s, run[0]), run[1..]))
  }

  function After(s: State, run: seq<Step>): State
    decreases |run|
  {
    if run == [] then s else After(Apply(s, run[0]), run[1..])
  }

  // ----- The invariant -----

  /** The n-th call, counted from 0, got the (n+1)-th number. */
  ghost predicate KeysOk(s: State) {
    && s.tables.counter == |s.calls| % WORD
    && forall c | 0 <= c < |s.calls| :: s.calls[c].key == Key(c)
  }

  /** Registered, not yet claimed by a response and not yet unregistered. */
  predicate InFlight(s: State, c: nat) {
    c < |s.calls|
    && (s.calls[c].pc.Writing? || s.calls[c].pc.Selecting? || s.calls[c].pc.Leaving?)
    && s.calls[c].sends == 0
    && !(s.hand.Sending? && s.hand.call == c)
  }

  predicate HasExit(pc: CallPC) {
    pc.Leaving? || pc.Finished?
  }

  /** Counts and contents of one call's channel. */
  predicate CallShape(call: Call) {
    && call.sends <= 1
    && (call.pc.Registering? || call.pc.CarryingEarly? ==> call.sends == 0)
    && (call.pc.CarryingEarly? ==> ServerKey(call.pc.reply.id) == call.key)
    && (if HasExit(call.pc) && call.pc.exit.Answered? then
          call.sends == 1 && call.buffer == [] && ServerKey(call.pc.exit.reply.id) == call.key
        else |call.buffer| == call.sends)
    && (call.buffer != [] ==> ServerKey(call.buffer[0].id) == call.key)
  }

  ghost predicate ShapesOk(s: State) {
    forall c | 0 <= c < |s.calls| :: CallShape(s.calls[c])
  }

  /** A pending entry is a call in flight under its own key, and no key is both pending and early. */
  predicate PendingOk(s: State, k: string)
    requires k in s.tables.pending
  {
    InFlight(s, s.tables.pending[k]) && s.calls[s.tables.pending[k]].key == k && k !in s.tables.early
  }

  ghost predicate TablesOk(s: State) {
    && (forall k | k in s.tables.pending :: PendingOk(s, k))
    && (forall k | k in s.tables.early :: ServerKey(s.tables.early[k].id) == k)
  }

  /** Every call in flight is pending; this needs distinct keys. */
  ghost predicate AllPending(s: State) {
    forall c | 0 <= c < |s.calls| && InFlight(s, c) :: s.calls[c].key in s.tables.pending
  }

  predicate HandOk(s: State) {
    s.hand.Sending? ==>
      && s.hand.call < |s.calls|
      && s.calls[s.hand.call].sends == 0
      && !s.calls[s.hand.call].pc.Registering? && !s.calls[s.hand.call].pc.CarryingEarly?
      && ServerKey(s.hand.reply.id) == s.calls[s.hand.call].key
  }

  /** The response at a place, if there is one. */
  function Held(s: State, p: Place): Option<Reply> {
    match p
    case InHand => if s.hand.Empty? then None else Some(s.hand.reply)
    case InBuffer(c) => if c < |s.calls| && s.calls[c].buffer != [] then Some(s.calls[c].buffer[0]) else None
    case Carried(c) => if c < |s.calls| && s.calls[c].pc.CarryingEarly? then Some(s.calls[c].pc.reply) else None
    case Consumed(c) =>
      if c < |s.calls| && HasExit(s.calls[c].pc) && s.calls[c].pc.exit.Answered? then Some(s.calls[c].pc.exit.reply)
      else None
    case Early(k) => if k in s.tables.early then Some(s.tables.early[k]) else None
    case Overwritten(u) => if u in s.lost && u < |s.received| then Some(s.received[u]) else None
  }

  ghost predicate ReceivedOk(s: State) {
    && |s.ledger| == |s.received|
    && (forall u | 0 <= u < |s.received| :: s.received[u].uid == u && HasId(s.received[u].id))
    && (forall u | u in s.lost :: u < |s.received|)
  }

  /** Every place that holds something holds the received response the ledger puts there ... */
  ghost predicate NothingForged(s: State) {
    forall p: Place | Held(s, p).Some? ::
      var r := Held(s, p).value;
      r.uid < |s.received| && r == s.received[r.uid] && r.uid < |s.ledger| && s.ledger[r.uid] == p
  }

  /** ... and every received response is still at the place the ledger names. */
  ghost predicate NothingMissing(s: State) {
    forall u | 0 <= u < |s.ledger| && u < |s.received| :: Held(s, s.ledger[u]) == Some(s.received[u])
  }

  /** The call with this key has stopped waiting: it took its response or was unregistered. */
  ghost predicate Spent(s: State, key: string) {
    key !in s.tables.pending
    && exists c :: 0 <= c < |s.calls| && s.calls[c].key == key && !s.calls[c].pc.Registering?
  }

  /** A response can only be passed over once its call has stopped waiting. */
  ghost predicate NothingSkipped(s: State) {
    forall u | 0 <= u < |s.received| ::
      var key := ServerKey(s.received[u].id);
      key in s.tables.early || s.hand == Holding(s.received[u]) || Spent(s, key)
  }

  /** What holds for any number of calls. */
  ghost predicate Inv(s: State) {
    && KeysOk(s)
    && TablesOk(s) && ShapesOk(s) && HandOk(s)
    && ReceivedOk(s) && NothingForged(s) && NothingMissing(s)
  }

  /** What holds as long as no key is used twice. */
  ghost predicate Tight(s: State) {
    AllPending(s) && NothingSkipped(s)
  }
}
