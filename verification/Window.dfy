/** One handler's lines inside a window of the server's output. */
module Window {
  import opened Text
  import opened Protocol
  import opened Turn
  import opened TurnProofs
  import opened Transcript
  import opened System
  import opened SystemInv

  // ----- A handler's only response is its last line -----

  /** The driver sees a request or a notification. */
  predicate HasMethod(p: Payload) {
    Encode(p).methodName != ""
  }

  ghost predicate AllHaveMethods(lines: seq<Payload>) {
    forall k | 0 <= k < |lines| :: HasMethod(lines[k])
  }

  lemma {:induction false} NotesHaveMethods(sid: string, updates: seq<Update>)
    ensures AllHaveMethods(Notes(sid, updates))
  {
    if updates != [] { NotesHaveMethods(sid, updates[..|updates| - 1]); }
  }

  lemma {:induction false} LinesHaveMethods(h: Handler, sid: string, acts: seq<Act>)
    requires forall k | 0 <= k < |acts| :: ActOk(h, acts[k])
    ensures AllHaveMethods(Lines(sid, acts))
  {
    if acts != [] {
      LinesHaveMethods(h, sid, acts[..|acts| - 1]);
    }
  }

  lemma OpenedHaveMethods(h: Handler)
    requires ActsOk(h)
    ensures AllHaveMethods(Opened(h))
  {
    match h.pc
    case ToolCalling(tool, _, _, asked) =>
    case ToolClosing(tool, asked, _) =>
    case _ =>
  }

  /** In a handler's trace only the last line can be a response, and it is the handler's answer. */
  ghost predicate EndsWithAnswer(trace: seq<Payload>, id: Id, answered: Option<Answer>) {
    forall k | 0 <= k < |trace| && !HasMethod(trace[k]) ::
      k == |trace| - 1 && answered.Some? && trace[k] == Respond(NormalizeId(id), answered.value)
  }

  lemma TraceEndsWithAnswer(h: Handler)
    requires LocalInv(h)
    ensures EndsWithAnswer(h.trace, h.id, h.answered)
  {
    NotesHaveMethods(h.session, Lead(h, h.passed));
    LinesHaveMethods(h, h.session, h.acts);
    OpenedHaveMethods(h);
    var body := Notes(h.session, Lead(h, h.passed)) + Lines(h.session, h.acts) + Opened(h);
  }

  // ----- Windows -----

  function Payloads(lines: seq<OutLine>): (ps: seq<Payload>)
    ensures |ps| == |lines| && forall k | 0 <= k < |lines| :: ps[k] == lines[k].payload
  {
    seq(|lines|, k requires 0 <= k < |lines| => lines[k].payload)
  }

  lemma {:induction false} NoneWritten(lines: seq<OutLine>, i: nat)
    requires forall k | 0 <= k < |lines| :: lines[k].origin != By(i)
    ensures WrittenBy(lines, i) == []
  {
    if lines != [] { NoneWritten(lines[..|lines| - 1], i); }
  }

  /** A written line is found in its writer's trace. */
  lemma {:induction false} LineInTrace(lines: seq<OutLine>, k: nat, i: nat)
    requires k < |lines| && lines[k].origin == By(i)
    ensures lines[k].payload in WrittenBy(lines, i)
  {
    if k < |lines| - 1 { LineInTrace(lines[..|lines| - 1], k, i); }
  }

  lemma WrittenUpTo(lines: seq<OutLine>, i: nat)
    requires lines != [] && lines[|lines| - 1].origin == By(i)
    ensures var w := WrittenBy(lines, i); w != [] && w[|w| - 1] == lines[|lines| - 1].payload
  {
  }

  lemma NothingAfterAnswer(w: seq<Payload>, rest: seq<Payload>, id: Id, answered: Option<Answer>)
    requires EndsWithAnswer(w + rest, id, answered) && w != [] && !HasMethod(w[|w| - 1])
    ensures rest == []
  {
    assert (w + rest)[|w| - 1] == w[|w| - 1];
  }

  lemma SplitAt<T>(s: seq<T>, lo: nat, hi: nat)
    requires lo <= hi <= |s|
    ensures s[..lo] + s[lo..hi] + s[hi..] == s
  {
  }

  lemma SplitWritten(before: seq<OutLine>, within: seq<OutLine>, rest: seq<OutLine>, i: nat)
    requires forall k | 0 <= k < |before| :: before[k].origin != By(i)
    ensures WrittenBy(before + within + rest, i) == WrittenBy(within, i) + WrittenBy(rest, i)
  {
    WrittenByConcat(before + within, rest, i);
    WrittenByConcat(before, within, i);
    NoneWritten(before, i);
    assert [] + WrittenBy(within, i) == WrittenBy(within, i);
  }

  /** A window that starts before the handler's first line and ends with its response holds exactly
      its whole trace. */
  lemma WholeTraceInWindow(out: seq<OutLine>, i: nat, id: Id, answered: Option<Answer>, lo: nat, hi: nat)
    requires lo <= hi < |out| && EndsWithAnswer(WrittenBy(out, i), id, answered)
    requires forall k | 0 <= k < lo :: out[k].origin != By(i)
    requires out[hi].origin == By(i) && !HasMethod(out[hi].payload)
    ensures WrittenBy(out[lo..hi + 1], i) == WrittenBy(out, i)
  {
    var (before, within, rest) := (out[..lo], out[lo..hi + 1], out[hi + 1..]);
    SplitAt(out, lo, hi + 1);
    SplitWritten(before, within, rest, i);
    assert within[|within| - 1] == out[hi];
    WrittenUpTo(within, i);
    NothingAfterAnswer(WrittenBy(within, i), WrittenBy(rest, i), id, answered);
  }

  /** Lines of others that are not updates leave no mark on what the driver gathers. */
  lemma {:induction false} OthersAddNothing(lines: seq<OutLine>, i: nat)
    requires forall k | 0 <= k < |lines| && lines[k].origin != By(i) :: !lines[k].payload.Notify?
    ensures LineParts(Payloads(lines)) == LineParts(WrittenBy(lines, i))
  {
    if lines == [] {
      assert EncodeAll(Payloads(lines)) == EncodeAll(WrittenBy(lines, i));
    } else {
      var n := |lines| - 1;
      OthersAddNothing(lines[..n], i);
      assert Payloads(lines) == Payloads(lines[..n]) + [lines[n].payload];
      LinesConcat(Payloads(lines[..n]), [lines[n].payload]);
      LineAlone(lines[n].payload);
      if lines[n].origin == By(i) {
        LinesConcat(WrittenBy(lines[..n], i), [lines[n].payload]);
      } else {
        AddNothing(LineParts(Payloads(lines[..n])));
        assert WrittenBy(lines[..n], i) + [] == WrittenBy(lines[..n], i);
      }
    }
  }
}
