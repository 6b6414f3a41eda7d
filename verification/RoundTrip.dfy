/** A prompt through the server and back through the driver: what the driver's Turn says about the
    turn the server ran. */
module RoundTrip {
  import opened Text
  import opened Protocol
  import opened Turn
  import opened TurnProofs
  import opened Transcript
  import opened SystemTurns

  // ----- What a turn amounts to, told by the executor's calls -----

  function AgentTexts(acts: seq<Act>): seq<string> {
    if acts == [] then []
    else
      var last := acts[|acts| - 1];
      AgentTexts(acts[..|acts| - 1]) + (if IsAgentAct(last) then [last.call.text] else [])
  }

  function ToolsOf(act: Act): seq<ToolEvent> {
    if act.Used? then
      [ToolEvent("tool_call", ToolFields(act.tool.callId, "in_progress", act.tool.name, "")),
       ToolEvent("tool_call_update",
                 ToolFields(act.tool.callId, if act.verdict.ok then "completed" else "failed", "", act.verdict.output))]
    else []
  }

  function ToolEvents(acts: seq<Act>): seq<ToolEvent> {
    if acts == [] then [] else ToolEvents(acts[..|acts| - 1]) + ToolsOf(acts[|acts| - 1])
  }

  /** The executor composed no update itself and did not speak for the user. */
  predicate Unmixed(acts: seq<Act>) {
    forall k | 0 <= k < |acts| :: acts[k].Wrote? ==> !acts[k].call.Raw? && !acts[k].call.UserMessageChunk?
  }

  lemma {:induction false} UnmixedParts(acts: seq<Act>)
    requires Unmixed(acts)
    ensures ActsParts(acts) == Parts([], AgentTexts(acts), ToolEvents(acts))
  {
    if acts != [] {
      var n := |acts| - 1;
      UnmixedParts(acts[..n]);
    }
  }

  lemma {:induction false} SpokenTexts(acts: seq<Act>)
    ensures Spoke(acts) <==> AgentTexts(acts) != []
  {
    if acts != [] {
      var n := |acts| - 1;
      SpokenTexts(acts[..n]);
      SpokeAppend(acts[..n], acts[n]);
      assert acts[..n] + [acts[n]] == acts;
    }
  }

  // ----- Reading a turn back -----

  function UserTexts(h: Handler, k: nat): seq<string> {
    if k >= 1 && !Blank(h.text) then [h.text] else []
  }

  lemma NoteReadsBack(sid: string, updates: seq<Update>, u: Update)
    ensures LineParts(Notes(sid, updates + [u])) == Add(LineParts(Notes(sid, updates)), UpdateParts(u))
  {
    NotesAppend(sid, updates, u);
    LinesConcat(Notes(sid, updates), [Notify(sid, u)]);
    UpdateReadsBack(sid, u);
  }

  function StageOf(k: nat): Stage {
    if k == 0 then UserStage else if k == 1 then ModeStage else if k == 2 then CommandsStage else ConfigStage
  }

  lemma LeadReadsOn(h: Handler, k: nat)
    requires 0 < k <= 4 && LineParts(Notes(h.session, Lead(h, k - 1))) == Parts(UserTexts(h, k - 1), [], [])
    ensures LineParts(Notes(h.session, Lead(h, k))) == Parts(UserTexts(h, k), [], [])
  {
    var stage := StageOf(k - 1);
    if stage.UserStage? && Blank(h.text) {
      assert Lead(h, 0) == [] && Lead(h, 1) == [];
    } else {
      NextLead(h, stage);
      NoteReadsBack(h.session, Lead(h, k - 1), StageUpdate(h, stage));
      LeadUpdateParts(h, stage);
    }
  }

  /** Of the announcement, only the user's text counts. */
  lemma {:induction false} LeadReadsBack(h: Handler, k: nat)
    requires k <= 4
    ensures LineParts(Notes(h.session, Lead(h, k))) == Parts(UserTexts(h, k), [], [])
  {
    if k == 0 {
      assert Lead(h, 0) == [] && EncodeAll([]) == [];
    } else {
      LeadReadsBack(h, k - 1);
      LeadReadsOn(h, k);
    }
  }

  lemma LeadUpdateParts(h: Handler, stage: Stage)
    requires !stage.FallbackStage? && (stage.UserStage? ==> !Blank(h.text))
    ensures UpdateParts(StageUpdate(h, stage)) == Parts(if stage.UserStage? then [h.text] else [], [], [])
  {
    if stage.UserStage? { NotBlankNotEmpty(h.text); }
  }

  function FallbackTexts(h: Handler, fell: bool): seq<string> {
    if fell && h.reply != "" then [h.reply] else []
  }

  lemma FallbackReadsBack(h: Handler, fell: bool)
    ensures LineParts(if fell then [Notify(h.session, AgentChunk(h.reply))] else [])
            == Parts([], FallbackTexts(h, fell), [])
  {
    assert EncodeAll([]) == [];
    UpdateReadsBack(h.session, AgentChunk(h.reply));
  }

  lemma InfoReadsBack(sid: string, informed: bool)
    ensures LineParts(if informed then [Notify(sid, InfoUpdate)] else []) == NO_PARTS
  {
    assert EncodeAll([]) == [];
    UpdateReadsBack(sid, InfoUpdate);
  }

  lemma ResponseReadsBack(id: Id, answer: Answer)
    ensures LineParts([Respond(id, answer)]) == NO_PARTS
  {
    LineAlone(Respond(id, answer));
  }

  /** Everything the driver gathers from the lines of one turn. */
  lemma TurnReadsBack(h: Handler, passed: nat, acts: seq<Act>, fell: bool, answer: Answer)
    requires passed <= 4 && forall k | 0 <= k < |acts| :: ActOk(h, acts[k])
    ensures LineParts(TurnLines(h, passed, acts, fell, answer))
            == Add(Add(Parts(UserTexts(h, passed), [], []), ActsParts(acts)), Parts([], FallbackTexts(h, fell), []))
  {
    var lead := Notes(h.session, Lead(h, passed));
    var body := Lines(h.session, acts);
    var fallback := if fell then [Notify(h.session, AgentChunk(h.reply))] else [];
    var info := if answer == Stop(EndTurn) then [Notify(h.session, InfoUpdate)] else [];
    LeadReadsBack(h, passed);
    ActsReadBack(h, h.session, acts);
    FallbackReadsBack(h, fell);
    InfoReadsBack(h.session, answer == Stop(EndTurn));
    ResponseReadsBack(NormalizeId(h.id), answer);
    FiveConcat(lead, body, fallback, info, [Respond(NormalizeId(h.id), answer)]);
  }

  lemma FiveConcat(a: seq<Payload>, b: seq<Payload>, c: seq<Payload>, d: seq<Payload>, e: seq<Payload>)
    requires LineParts(d) == NO_PARTS && LineParts(e) == NO_PARTS
    ensures LineParts(a + b + c + d + e) == Add(Add(LineParts(a), LineParts(b)), LineParts(c))
  {
    LinesConcat(a, b);
    LinesConcat(a + b, c);
    LinesConcat(a + b + c, d);
    LinesConcat(a + b + c + d, e);
    AddNothing(LineParts(a + b + c));
  }

  lemma ParsedFrom(lines: seq<Payload>, id: Id, answer: Answer, user: seq<string>, acted: Parts, fallback: seq<string>)
    requires LineParts(lines) == Add(Add(Parts(user, [], []), acted), Parts([], fallback, []))
    ensures ParseTurn(EncodeAll(lines), Encode(Respond(id, answer)))
            == ParsedTurn(StopText(answer), Concat(user + acted.user), Concat(acted.agent + fallback), acted.tools)
  {
    var parts := LineParts(lines);
    assert parts.user == user + acted.user;
    assert parts.agent == acted.agent + fallback;
    assert parts.tools == acted.tools;
  }

  /** The driver's Turn for the lines of an answered prompt, for every executor and every way out. */
  lemma TurnParses(h: Handler, passed: nat, acts: seq<Act>, fell: bool, answer: Answer)
    requires passed <= 4 && forall k | 0 <= k < |acts| :: ActOk(h, acts[k])
    ensures ParseTurn(EncodeAll(TurnLines(h, passed, acts, fell, answer)), Encode(Respond(NormalizeId(h.id), answer)))
            == ParsedTurn(StopText(answer), Concat(UserTexts(h, passed) + ActsParts(acts).user),
                          Concat(ActsParts(acts).agent + FallbackTexts(h, fell)), ActsParts(acts).tools)
  {
    TurnReadsBack(h, passed, acts, fell, answer);
    ParsedFrom(TurnLines(h, passed, acts, fell, answer), NormalizeId(h.id), answer,
               UserTexts(h, passed), ActsParts(acts), FallbackTexts(h, fell));
  }

  /** What the driver should report of a completed turn. */
  function Reported(h: Handler): ParsedTurn {
    ParsedTurn("end_turn", ExtractPromptText(h.fields.prompt),
               if Spoke(h.acts) then Concat(AgentTexts(h.acts)) else if Blank(h.reply) then "" else h.reply,
               ToolEvents(h.acts))
  }

  lemma UserTextBack(h: Handler)
    requires h.text == ExtractPromptText(h.fields.prompt)
    ensures Concat(UserTexts(h, 4) + []) == ExtractPromptText(h.fields.prompt)
  {
    PromptLinesNotBlank(h.fields.prompt);
    JoinBlank(PromptLines(h.fields.prompt), "\n");
    assert UserTexts(h, 4) + [] == UserTexts(h, 4);
  }

  lemma AgentTextBack(acts: seq<Act>, reply: string, fell: bool)
    requires fell <==> !Blank(reply) && !Spoke(acts)
    ensures Concat(AgentTexts(acts) + (if fell && reply != "" then [reply] else []))
            == if Spoke(acts) then Concat(AgentTexts(acts)) else if Blank(reply) then "" else reply
  {
    SpokenTexts(acts);
    if fell {
      NotBlankNotEmpty(reply);
      assert [] + [reply] == [reply];
    } else {
      assert AgentTexts(acts) + [] == AgentTexts(acts);
    }
  }

  /** The lines of a turn that ended with `end_turn` parse to the prompt's text, the agent's text and
      the tool events of that turn. */
  lemma CompletedTurnParses(h: Handler)
    requires h.text == ExtractPromptText(h.fields.prompt) && Unmixed(h.acts)
    requires h.marks.fell <==> !Blank(h.reply) && !Spoke(h.acts)
    requires forall k | 0 <= k < |h.acts| :: ActOk(h, h.acts[k])
    ensures var answer := Stop(EndTurn);
            ParseTurn(EncodeAll(TurnLines(h, 4, h.acts, h.marks.fell, answer)),
                      Encode(Respond(NormalizeId(h.id), answer)))
            == Reported(h)
  {
    TurnParses(h, 4, h.acts, h.marks.fell, Stop(EndTurn));
    UnmixedParts(h.acts);
    UserTextBack(h);
    AgentTextBack(h.acts, h.reply, h.marks.fell);
  }
}
