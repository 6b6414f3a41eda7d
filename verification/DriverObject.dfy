/** The driver's own object, in the code's form: the critical sections of Do and of the read loop, the
    queued replies, and the loops that cut out and parse a turn. */
module DriverObject {
  import opened Text
  import opened Protocol
  import opened Transcript
  import opened Driver

  class ResponseChannel {
    var buffer: seq<Entry>

    constructor ()
      ensures buffer == []
    {
      buffer := [];
    }

    method Send(entry: Entry)
      requires buffer == []
      modifies this
      ensures buffer == [entry]
    {
      buffer := [entry];
    }
  }

  /** A queued or computed reply to a request of the server. */
  datatype ClientReply = ClientReply(failed: bool, text: string)

  const NO_REPLY := ClientReply(false, "null")

  function QueueOf(queues: map<string, seq<ClientReply>>, name: string): seq<ClientReply> {
    if name in queues then queues[name] else []
  }

  /** The reply a method's queue yields, and the queues afterwards. */
  function Dequeue(queues: map<string, seq<ClientReply>>, name: string)
    : (map<string, seq<ClientReply>>, Option<ClientReply>)
  {
    var queue := QueueOf(queues, name);
    if queue != [] then (queues[name := queue[1..]], Some(queue[0])) else (queues, None)
  }

  function Enqueue(queues: map<string, seq<ClientReply>>, name: string, reply: ClientReply)
    : map<string, seq<ClientReply>>
  {
    queues[name := QueueOf(queues, name) + [reply]]
  }

  function EnqueueAll(queues: map<string, seq<ClientReply>>, name: string, replies: seq<ClientReply>)
    : map<string, seq<ClientReply>>
    decreases |replies|
  {
    if replies == [] then queues else EnqueueAll(Enqueue(queues, name, replies[0]), name, replies[1..])
  }

  function DequeueAll(queues: map<string, seq<ClientReply>>, name: string, n: nat): seq<Option<ClientReply>>
    decreases n
  {
    if n == 0 then [] else [Dequeue(queues, name).1] + DequeueAll(Dequeue(queues, name).0, name, n - 1)
  }

  lemma {:induction false} EnqueuedAtEnd(queues: map<string, seq<ClientReply>>, name: string, replies: seq<ClientReply>)
    ensures var after := EnqueueAll(queues, name, replies);
            QueueOf(after, name) == QueueOf(queues, name) + replies
            && forall other | other != name :: QueueOf(after, other) == QueueOf(queues, other)
    decreases |replies|
  {
    var queue := QueueOf(queues, name);
    if replies == [] {
      assert queue + [] == queue;
    } else {
      var next := Enqueue(queues, name, replies[0]);
      EnqueuedAtEnd(next, name, replies[1..]);
      assert queue + [replies[0]] + replies[1..] == queue + replies;
      assert forall other | other != name :: QueueOf(next, other) == QueueOf(queues, other);
    }
  }

  lemma {:induction false} DequeuedInOrder(queues: map<string, seq<ClientReply>>, name: string, n: nat)
    requires n <= |QueueOf(queues, name)|
    ensures |DequeueAll(queues, name, n)| == n
    ensures forall k | 0 <= k < n :: DequeueAll(queues, name, n)[k] == Some(QueueOf(queues, name)[k])
    decreases n
  {
    if n > 0 {
      var rest := Dequeue(queues, name).0;
      assert QueueOf(rest, name) == QueueOf(queues, name)[1..];
      DequeuedInOrder(rest, name, n - 1);
    }
  }

  /** Replies queued for a method are given out in the order queued, after those already there, and
      the queues of other methods are not touched. */
  lemma RepliesInOrder(queues: map<string, seq<ClientReply>>, name: string, replies: seq<ClientReply>)
    ensures var (earlier, after) := (QueueOf(queues, name), EnqueueAll(queues, name, replies));
            var given := DequeueAll(after, name, |earlier| + |replies|);
            && |given| == |earlier| + |replies|
            && (forall k | 0 <= k < |given| :: given[k] == Some((earlier + replies)[k]))
            && forall other | other != name :: QueueOf(after, other) == QueueOf(queues, other)
  {
    EnqueuedAtEnd(queues, name, replies);
    DequeuedInOrder(EnqueueAll(queues, name, replies), name, |QueueOf(queues, name)| + |replies|);
  }

  class TestDriver {
    var lastSeq: nat
    var messages: seq<Entry>
    var pending: map<string, ResponseChannel>
    var nextID: nat
    var clientQueues: map<string, seq<ClientReply>>
    var closed: bool

    constructor ()
      ensures Valid() && messages == [] && pending == map[] && nextID == 1 && clientQueues == map[] && !closed
    {
      lastSeq := 0;
      messages := [];
      pending := map[];
      nextID := 1;
      clientQueues := map[];
      closed := false;
    }

    /** The log is numbered from 1, and waiting channels are empty and distinct. */
    ghost predicate Valid()
      reads this, pending.Values
    {
      && lastSeq == |messages|
      && (forall k | 0 <= k < |messages| :: messages[k].seqNo == k + 1)
      && (forall k | k in pending :: pending[k].buffer == [])
      && (forall k, l | k in pending && l in pending && k != l :: pending[k] != pending[l])
    }

    method NextRequestID() returns (id: nat)
      modifies this`nextID
      ensures id == old(nextID) && nextID == id + 1
    {
      id := nextID;
      nextID := nextID + 1;
    }

    /** Do, up to the write: the start mark is the number of lines read so far. */
    method BeginDo(id: nat) returns (open: bool, start: nat, ch: ResponseChannel)
      requires Valid()
      modifies this`pending
      ensures Valid() && fresh(ch) && open == !closed && start == |messages|
      ensures pending == if open then old(pending)[DriverKey(NumId(id)) := ch] else old(pending)
    {
      ch := new ResponseChannel();
      start := lastSeq;
      open := !closed;
      if open {
        pending := pending[DriverKey(NumId(id)) := ch];
      }
    }

    /** One line through readLoop; the send on the response channel cannot block. */
    method ReadLine(content: Content)
      requires Valid()
      modifies this`lastSeq, this`messages, this`pending, pending.Values
      ensures Valid()
      ensures messages == old(messages) + [Entry(|old(messages)| + 1, content)]
      ensures var (rest, claimed) := Claim(old(pending), content);
              pending == rest && (claimed.Some? ==> claimed.value.buffer == [Entry(|old(messages)| + 1, content)])
    {
      lastSeq := lastSeq + 1;
      var entry := Entry(lastSeq, content);
      messages := messages + [entry];
      if content.methodName == "" && HasDriverId(content) {
        var key := DriverKey(content.id);
        if key in pending {
          var ch := pending[key];
          pending := pending - {key};
          ch.Send(entry);
        }
      }
    }

    method QueueClientReply(name: string, reply: ClientReply)
      modifies this`clientQueues
      ensures clientQueues == Enqueue(old(clientQueues), name, reply)
    {
      var queue := if name in clientQueues then clientQueues[name] else [];
      clientQueues := clientQueues[name := queue + [reply]];
    }

    /** `handled` is what the handler set by the test returns, if it handles the request. */
    method ResolveClientReply(name: string, handled: Option<ClientReply>) returns (reply: ClientReply, found: bool)
      modifies this`clientQueues
      ensures handled.Some? ==> reply == handled.value && found && clientQueues == old(clientQueues)
      ensures handled.None? ==>
                var (rest, queued) := Dequeue(old(clientQueues), name);
                clientQueues == rest && found == queued.Some?
                && reply == (if queued.Some? then queued.value else NO_REPLY)
    {
      if handled.Some? {
        return handled.value, true;
      }
      var queue := if name in clientQueues then clientQueues[name] else [];
      if queue == [] {
        return NO_REPLY, false;
      }
      reply := queue[0];
      found := true;
      clientQueues := clientQueues[name := queue[1..]];
    }
  }

  // ----- Cutting out and parsing a turn -----

  lemma {:induction false} EmptyRange(log: seq<Entry>, lo: nat, hi: nat)
    requires lo > hi
    ensures InRange(log, lo, hi) == []
  {
    if log != [] { EmptyRange(log[..|log| - 1], lo, hi); }
  }

  method MessagesInRange(log: seq<Entry>, lo: nat, hi: nat) returns (found: seq<Entry>)
    ensures found == InRange(log, lo, hi)
  {
    if lo > hi {
      EmptyRange(log, lo, hi);
      return [];
    }
    found := [];
    for i := 0 to |log|
      invariant found == InRange(log[..i], lo, hi)
    {
      assert log[..i + 1] == log[..i] + [log[i]];

      if log[i].seqNo < lo || log[i].seqNo > hi {
        continue;
      }
      found := found + [log[i]];
    }
    assert log[..|log|] == log;
  }

  method Parse(contents: seq<Content>, response: Content) returns (turn: ParsedTurn)
    ensures turn == ParseTurn(contents, response)
  {
    KindsDiffer();
    var userTexts: seq<string> := [];
    var agentTexts: seq<string> := [];
    var toolEvents: seq<ToolEvent> := [];
    for i := 0 to |contents|
      invariant Parts(userTexts, agentTexts, toolEvents) == PartsOf(contents[..i])
    {
      assert contents[..i + 1] == contents[..i] + [contents[i]];

      if contents[i].methodName != "session/update" || contents[i].update.None? {
        continue;
      }
      var w := contents[i].update.value;
      if w.kind == USER_KIND {
        if w.text != "" {
          userTexts := userTexts + [w.text];
        }
      } else if w.kind == AGENT_KIND {
        if w.text != "" {
          agentTexts := agentTexts + [w.text];
        }
      } else if w.kind == TOOL_KIND || w.kind == TOOL_UPDATE_KIND {
        toolEvents := toolEvents + [ToolEvent(w.kind, w.tool)];
      }
    }
    assert contents[..|contents|] == contents;
    turn := ParsedTurn(response.stop, Concat(userTexts), Concat(agentTexts), toolEvents);
  }
}
