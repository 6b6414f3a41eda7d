/** The test driver and the server at the two ends of one connection. The driver's requests and its
    replies to the server's requests reach the server in the order written; the server's lines reach
    the driver in the order written. */
module Harness {
  import opened Protocol
  import opened Transcript
  import S = System
  import D = Driver

  /** `wire` holds the lines written by the driver that the server has not read yet. `asked` records
      the parameters of the requests sent; `lines` and `handlers` count what earlier connections have
      left on the server. */
  datatype State = State(
    server: S.State,
    driver: D.State,
    wire: seq<Message>,
    asked: map<Id, Params>,
    lines: nat,
    handlers: nat)

  /** NewDriver on a server that runs no Serve. */
  function Start(s: S.State): State
    requires s.reader.Stopped?
  {
    State(S.Apply(s, S.Accept), D.Init(), [], map[], |s.out|, |s.handlers|)
  }

  datatype Step =
    | Serve(serverStep: S.Step)
    | Drive(driverStep: D.Step)
    | ReadLine
    | LogLine
    | SendRequest(d: nat, methodName: string, params: Params)
    | SendReply(k: nat, body: Body)

  function NextLine(p: State): D.Content
    requires p.lines + |p.driver.messages| < |p.server.out|
  {
    Encode(p.server.out[p.lines + |p.driver.messages|].payload)
  }

  predicate Enabled(p: State, step: Step) {
    match step
    case Serve(s) => !s.Accept? && !s.Read? && S.Enabled(p.server, s)
    case Drive(s) => !s.Log? && !s.Send? && D.Enabled(p.driver, s)
    case ReadLine => p.wire != [] && S.Enabled(p.server, S.Read(Parsed(p.wire[0])))
    case LogLine => p.lines + |p.driver.messages| < |p.server.out| && D.Enabled(p.driver, D.Log(NextLine(p)))
    case SendRequest(d, _, _) => D.Enabled(p.driver, D.Send(d))
    case SendReply(k, _) =>
      k < |p.driver.messages| && p.driver.messages[k].content.methodName != ""
        && D.HasDriverId(p.driver.messages[k].content)
  }

  function RequestMessage(d: nat, methodName: string, params: Params): Message {
    Message("2.0", NumId(d + 1), methodName, params, NullBody)
  }

  function ReplyMessage(id: Id, body: Body): Message {
    Message("2.0", id, "", BadJson, body)
  }

  /** The state after a step; a step that is not enabled changes nothing. */
  function Apply(p: State, step: Step): State {
    if !Enabled(p, step) then p else
    match step
    case Serve(s) => p.(server := S.Apply(p.server, s))
    case Drive(s) => p.(driver := D.Apply(p.driver, s))
    case ReadLine => p.(server := S.Apply(p.server, S.Read(Parsed(p.wire[0]))), wire := p.wire[1..])
    case LogLine => p.(driver := D.Apply(p.driver, D.Log(NextLine(p))))
    case SendRequest(d, methodName, params) =>
      p.(driver := D.Apply(p.driver, D.Send(d)), wire := p.wire + [RequestMessage(d, methodName, params)],
         asked := p.asked[NumId(d + 1) := params])
    case SendReply(k, body) => p.(wire := p.wire + [ReplyMessage(p.driver.messages[k].content.id, body)])
  }

  ghost predicate Valid(p: State, run: seq<Step>)
    decreases |run|
  {
    run == [] || (Enabled(p, run[0]) && Valid(Apply(p, run[0]), run[1..]))
  }

  ghost function After(p: State, run: seq<Step>): State
    decreases |run|
  {
    if run == [] then p else After(Apply(p, run[0]), run[1..])
  }
}
