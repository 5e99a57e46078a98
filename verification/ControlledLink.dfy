/**
 * The robot link with the controller of module Operation at its far end: what it reads it
 * parses, executes and answers, one message after the other.
 */
module ControlledLink {
  import opened Bytes
  import opened Commands
  import opened RapidParsing
  import opened RobotData
  import opened Operation
  import L = RobotLink
  import LI = RobotLinkInvariant
  import LT = RobotLinkTheorems
  import AnswerPairing
  import P = Pipeline
  import RequestCodec
  import Telemetry

  // ----- the controller at the far end -----

  /** The controller at one of its steps: its state before, its circumstances, what it would report. */
  datatype Step = Step(before: State, env: Env, report: Telemetry.RobotState) {
    /** What is reported fits its places and is the state: the position, the speed and the zone. */
    ghost predicate Valid() {
      && Telemetry.Reportable(report) && |report.time| == 8 && |report.date| == 10
      && At(report.target, env) == before.pos
      && env.value(report.speed) == before.speed
      && report.zone == before.zone
    }
  }

  function Rendered(a: Answer, report: Telemetry.RobotState): seq<byte>
    requires Telemetry.Reportable(report)
  {
    match a
    case Text(text) => Ascii(text)
    case Status => Telemetry.Payload(report)
  }

  function RenderedAll(answers: seq<Answer>, report: Telemetry.RobotState): (r: seq<seq<byte>>)
    requires Telemetry.Reportable(report)
    ensures |r| == |answers|
  {
    seq(|answers|, i requires 0 <= i < |answers| => Rendered(answers[i], report))
  }

  /** The answers to a received message, and the state after it. */
  function Answers(raw: seq<byte>, step: Step): seq<seq<byte>>
    requires step.Valid()
  {
    match Parse(raw)
    case Execute(action) => RenderedAll(ExecuteAction(step.before, action, step.env).answers, step.report)
    case _ => []
  }

  function Next(raw: seq<byte>, step: Step): State {
    match Parse(raw)
    case Execute(action) => ExecuteAction(step.before, action, step.env).state
    case _ => step.before
  }

  predicate InLog(l: L.State, a: nat) {
    && a < |l.served|
    && l.served[a].conn < |l.conns| && l.served[a].index < |l.conns[l.served[a].conn].sent|
  }

  /** What the controller read in step a. */
  function ReadAt(l: L.State, a: nat): seq<byte>
    requires InLog(l, a)
  {
    l.conns[l.served[a].conn].sent[l.served[a].index].request
  }

  ghost predicate Ran(l: L.State, steps: seq<Step>, a: nat) {
    && a < |steps| && InLog(l, a) && steps[a].Valid()
    && l.served[a].answers == Answers(ReadAt(l, a), steps[a])
    && (a + 1 < |steps| ==> steps[a + 1].before == Next(ReadAt(l, a), steps[a]))
  }

  /** Everything the controller has read, it has parsed, executed and answered, one after the other. */
  ghost predicate Controlled(l: L.State, steps: seq<Step>) {
    |steps| == |l.served| && forall a: nat | a < |l.served| :: Ran(l, steps, a)
  }

  // ----- when the controller answers twice -----

  /** In step a the controller started a motion that ended at a kinematic limit. */
  predicate AtLimit(l: L.State, steps: seq<Step>, a: nat)
    requires a < |steps| && InLog(l, a)
  {
    && Parse(ReadAt(l, a)).Execute?
    && StartsMotion(steps[a].before, Parse(ReadAt(l, a)).action, steps[a].env)
    && steps[a].env.motion.KinematicLimit?
  }

  /** On the connection of step `serial`, up to and including it, no started motion met a kinematic limit. */
  ghost predicate NoLimitUpTo(l: L.State, steps: seq<Step>, serial: nat) {
    && serial < |l.served|
    && forall a: nat | a <= serial && l.served[a].conn == l.served[serial].conn ::
         a < |steps| && InLog(l, a) && !AtLimit(l, steps, a)
  }

  lemma AnsweredTwiceExactlyIf(l: L.State, steps: seq<Step>, a: nat)
    requires Ran(l, steps, a)
    ensures |l.served[a].answers| > 1 <==> AtLimit(l, steps, a)
  {
    var parsed := Parse(ReadAt(l, a));
    if parsed.Execute? {
      AnsweredOnceExactlyIf(steps[a].before, parsed.action, steps[a].env);
    }
    hide Parse, ExecuteAction, StartsMotion;
  }

  /** No message of a connection was answered twice exactly if no motion it started met a kinematic limit. */
  lemma PoliteExactlyIf(l: L.State, steps: seq<Step>, serial: nat)
    requires Controlled(l, steps)
    ensures L.PoliteUpTo(l.served, serial) <==> NoLimitUpTo(l, steps, serial)
  {
    forall a: nat | a < |l.served|
      ensures a < |steps| && InLog(l, a) && (|l.served[a].answers| > 1 <==> AtLimit(l, steps, a))
    {
      assert Ran(l, steps, a);
      AnsweredTwiceExactlyIf(l, steps, a);
    }
    hide Ran, AtLimit;
  }

  // ----- completed tasks -----

  /** These bytes were packed from this client's request. */
  predicate PackedFrom(c: ClientRequest, bytes: seq<byte>) {
    Request(Decode(c)).Message? && bytes == Serialize(Request(Decode(c)).msg)
  }

  /**
   * The action was carried out, and had its effect: a motion arrived, a straight one at its
   * target, a new speed or zone is set.
   */
  ghost predicate Accomplished(step: Step, action: Action) {
    var r := ExecuteAction(step.before, action, step.env);
    && (IsMoveCommand(action.cmd) || action.cmd == "ZERO" ==>
          StartsMotion(step.before, action, step.env) && step.env.motion.Arrived?)
    && (action.cmd == "MoveL" ==> action.target.Some? && r.state.pos == At(action.target.value, step.env))
    && (action.cmd == "MoveLOffs" ==>
          action.target.Some? && r.state.pos == Shifted(step.before.pos, At(action.target.value, step.env)))
    && (action.cmd == "SetSpeed" ==>
          && action.speed.Some? && r.state.speed == action.speed.value as real
          && 5.0 <= r.state.speed <= step.env.maxSpeed)
    && (action.cmd == "SetZone" && action.zone.Some? ==> r.state.zone == action.zone.value)
  }

  lemma WholeLine(a: Point, b: Point)
    ensures Along(a, b, 1.0) == b
  {
  }

  /** A move command that starts no motion is refused, and so is a speed that is not set. */
  lemma NoEffectIsRefused(s: State, a: Action, env: Env)
    ensures
      var r := ExecuteAction(s, a, env);
      && r.answers != []
      && ((IsMoveCommand(a.cmd) || a.cmd == "ZERO") && !StartsMotion(s, a, env) ==>
            r.answers == Refusal("MISSING_COORDS") || r.answers == Refusal("SINGULARITY_OR_LIMIT"))
      && (a.cmd == "SetSpeed" ==>
            || (a.speed.Some? && r.state.speed == a.speed.value as real && 5.0 <= r.state.speed <= env.maxSpeed)
            || r.answers == Refusal("MISSING_SPEED") || r.answers == Refusal("SPEED_OUT_OF_RANGE"))
      && (a.cmd == "SetZone" && a.zone.Some? ==> r.state.zone == a.zone.value)
  {
    AnsweredOnceExactlyIf(s, a, env);
    hide MotionAnswers, Refusal, IsSafeTarget, Along, At, Shifted;
  }

  lemma RefusalRefused(text: string)
    ensures Refused(Refusal(text)[0])
  {
    assert ("NACK|" + text)[..4] == "NACK";
  }

  lemma StraightEnd(s: State, a: Action, env: Env)
    requires StartsMotion(s, a, env) && env.motion.Arrived?
    ensures a.cmd == "MoveL" ==> ExecuteAction(s, a, env).state.pos == At(a.target.value, env)
    ensures a.cmd == "MoveLOffs" ==> ExecuteAction(s, a, env).state.pos == Shifted(s.pos, At(a.target.value, env))
  {
    hide IsSafeTarget, Along, At, Shifted, MotionAnswers;
    if a.cmd == "MoveL" {
      WholeLine(s.pos, At(a.target.value, env));
    } else if a.cmd == "MoveLOffs" {
      WholeLine(s.pos, Shifted(s.pos, At(a.target.value, env)));
    }
  }

  /** An action that is not refused has its effect. */
  lemma AcceptedIsAccomplished(step: Step, a: Action)
    requires ExecuteAction(step.before, a, step.env).answers != []
    requires !Refused(ExecuteAction(step.before, a, step.env).answers[0])
    ensures Accomplished(step, a)
  {
    var s, env := step.before, step.env;
    NoEffectIsRefused(s, a, env);
    RefusalChangesNothing(s, a, env);
    RefusalRefused("MISSING_COORDS");
    RefusalRefused("SINGULARITY_OR_LIMIT");
    RefusalRefused("MISSING_SPEED");
    RefusalRefused("SPEED_OUT_OF_RANGE");
    if StartsMotion(s, a, env) && env.motion.Arrived? {
      StraightEnd(s, a, env);
    }
    MoveNeedsTarget(s, a, env);
    hide ExecuteAction, StartsMotion, Refusal, Refused, At, Shifted, IsMoveCommand;
  }

  lemma MoveNeedsTarget(s: State, a: Action, env: Env)
    ensures a.cmd == "MoveL" || a.cmd == "MoveLOffs" ==> IsMoveCommand(a.cmd)
    ensures (a.cmd == "MoveL" || a.cmd == "MoveLOffs") && StartsMotion(s, a, env) ==> a.target.Some?
  {
  }

  /** What the server does not read as a refusal, the controller did not mean as one. */
  lemma RefusedIsRefusal(a: Answer, report: Telemetry.RobotState)
    requires Telemetry.Reportable(report) && Refused(a)
    ensures P.IsRefusal(Rendered(a, report))
  {
    assert Ascii(a.text)[..4] == Ascii("NACK");
  }

  /**
   * In one step the controller read the action, carried it out to its effect, and gave this
   * answer and no other; to a status request, its state before.
   */
  ghost predicate CarriedOut(l: L.State, steps: seq<Step>, serial: nat, action: Action, answer: seq<byte>) {
    && Ran(l, steps, serial)
    && Parse(ReadAt(l, serial)) == Execute(action)
    && l.served[serial].answers == [answer]
    && Accomplished(steps[serial], action)
    && (action.cmd == "GETSTATUS" ==> answer == Telemetry.Payload(steps[serial].report))
  }

  lemma OwnAnswerCarriedOut(l: L.State, steps: seq<Step>, k: nat, c: ClientRequest, bytes: seq<byte>,
                             serial: nat, answer: seq<byte>)
    requires Controlled(l, steps) && PackedFrom(c, bytes) && !P.IsRefusal(answer)
    requires AnswerPairing.IsAnswer(l.served, l.conns, L.Message(L.Client(k), bytes), L.Reply(serial, answer))
    ensures CarriedOut(l, steps, serial, RequestCodec.Intended(c), answer)
  {
    hide *;
    OwnAnswerRan(l, steps, k, bytes, serial, answer);
    Unpacked(c, bytes);
    OneAnswer(steps[serial], bytes, RequestCodec.Intended(c), answer);
    OneAnswerCarriedOut(l, steps, serial, RequestCodec.Intended(c), answer);
  }

  lemma Unpacked(c: ClientRequest, bytes: seq<byte>)
    requires PackedFrom(c, bytes)
    ensures Request(Decode(c)).Message? && Parse(bytes) == Execute(RequestCodec.Intended(c))
  {
    hide Parse, Serialize, Request, Decode, RequestCodec.Intended;
    RequestCodec.RoundTrip(c);
  }

  lemma OwnAnswerRan(l: L.State, steps: seq<Step>, k: nat, bytes: seq<byte>, serial: nat, answer: seq<byte>)
    requires Controlled(l, steps)
    requires AnswerPairing.IsAnswer(l.served, l.conns, L.Message(L.Client(k), bytes), L.Reply(serial, answer))
    ensures Ran(l, steps, serial) && serial < |steps| && steps[serial].Valid()
    ensures InLog(l, serial) && ReadAt(l, serial) == bytes && l.served[serial].answers == [answer]
    ensures Answers(bytes, steps[serial]) == [answer]
  {
    assert Ran(l, steps, serial);
    hide Answers, Next;
  }

  lemma OneAnswerCarriedOut(l: L.State, steps: seq<Step>, serial: nat, action: Action, answer: seq<byte>)
    requires Ran(l, steps, serial) && Parse(ReadAt(l, serial)) == Execute(action)
    requires l.served[serial].answers == [answer] && Accomplished(steps[serial], action)
    ensures CarriedOut(l, steps, serial, action, answer)
  {
    if action.cmd == "GETSTATUS" {
      StatusAnswer(steps[serial], ReadAt(l, serial), action);
    }
    hide Parse, Answers, Next, Accomplished, Telemetry.Payload, Telemetry.Reportable;
  }

  /** An action with one answer that is no refusal had its effect. */
  lemma OneAnswer(step: Step, bytes: seq<byte>, action: Action, answer: seq<byte>)
    requires step.Valid() && Parse(bytes) == Execute(action) && Answers(bytes, step) == [answer] && !P.IsRefusal(answer)
    ensures Accomplished(step, action)
  {
    var answers := ExecuteAction(step.before, action, step.env).answers;
    hide Parse, ExecuteAction, Accomplished, P.IsRefusal, Refused, Rendered, Telemetry.Reportable;
    assert |answers| == |RenderedAll(answers, step.report)| == 1;
    assert RenderedAll(answers, step.report)[0] == Rendered(answers[0], step.report);
    if Refused(answers[0]) {
      RefusedIsRefusal(answers[0], step.report);
    }
    AcceptedIsAccomplished(step, action);
  }

  lemma StatusAnswer(step: Step, bytes: seq<byte>, action: Action)
    requires step.Valid() && Parse(bytes) == Execute(action) && action.cmd == "GETSTATUS"
    ensures Answers(bytes, step) == [Telemetry.Payload(step.report)]
  {
    hide Parse, Telemetry.Payload;
  }

  // ----- settings from one step to a later one -----

  lemma SettingsStep(s: State, a: Action, env: Env)
    ensures
      var t := ExecuteAction(s, a, env).state;
      (a.cmd != "SetSpeed" ==> t.speed == s.speed) && (a.cmd != "SetZone" ==> t.zone == s.zone)
  {
    hide MotionAnswers, Along, IsSafeTarget;
  }

  /** The controller parsed this command in step a. */
  predicate Reads(l: L.State, a: nat, cmd: string) {
    InLog(l, a) && Parse(ReadAt(l, a)).Execute? && Parse(ReadAt(l, a)).action.cmd == cmd
  }

  /** Speed and zone after step a are those before step b if no command between them sets them. */
  lemma {:induction false} SettingsLast(l: L.State, steps: seq<Step>, a: nat, b: nat)
    requires Controlled(l, steps) && a < b < |steps| && InLog(l, a)
    ensures (forall j: nat | a < j < b :: !Reads(l, j, "SetSpeed")) ==>
              steps[b].before.speed == Next(ReadAt(l, a), steps[a]).speed
    ensures (forall j: nat | a < j < b :: !Reads(l, j, "SetZone")) ==>
              steps[b].before.zone == Next(ReadAt(l, a), steps[a]).zone
    decreases b
  {
    hide *;
    SettingsNext(l, steps, b - 1);
    if a < b - 1 {
      SettingsLast(l, steps, a, b - 1);
    }
  }

  /** A step leaves the speed as it was unless it reads a SetSpeed, and the zone unless a SetZone. */
  lemma SettingsNext(l: L.State, steps: seq<Step>, a: nat)
    requires Controlled(l, steps) && a + 1 < |steps|
    ensures InLog(l, a) && steps[a + 1].before == Next(ReadAt(l, a), steps[a])
    ensures !Reads(l, a, "SetSpeed") ==> steps[a + 1].before.speed == steps[a].before.speed
    ensures !Reads(l, a, "SetZone") ==> steps[a + 1].before.zone == steps[a].before.zone
  {
    assert Ran(l, steps, a);
    var parsed := Parse(ReadAt(l, a));
    if parsed.Execute? {
      SettingsStep(steps[a].before, parsed.action, steps[a].env);
    }
    hide Parse, ExecuteAction, Answers;
  }

  /**
   * A status request shows its client the speed, or the zone, set by the last command carried
   * out before it that set one, and where the robot is.
   */
  lemma StatusShowsSettings(l: L.State, steps: seq<Step>, a: nat, setting: Action, ack: seq<byte>,
                            b: nat, query: Action, answer: seq<byte>)
    requires Controlled(l, steps) && a < b
    requires CarriedOut(l, steps, a, setting, ack) && CarriedOut(l, steps, b, query, answer) && query.cmd == "GETSTATUS"
    ensures
      var shown := Telemetry.Unpack(answer);
      && shown.Status? && At(shown.status.target, steps[b].env) == steps[b].before.pos
      && (setting.cmd == "SetSpeed" && (forall j: nat | a < j < b :: !Reads(l, j, "SetSpeed")) ==>
            setting.speed.Some? && steps[b].env.value(shown.status.speed) == setting.speed.value as real)
      && (setting.cmd == "SetZone" && setting.zone.Some? && (forall j: nat | a < j < b :: !Reads(l, j, "SetZone")) ==>
            shown.status.zone == Some(ZoneToValue(setting.zone.value)))
  {
    Telemetry.RoundTrip(steps[b].report);
    SettingsLast(l, steps, a, b);
    hide Parse, ExecuteAction, Telemetry.Unpack, Telemetry.Payload, Reads, StartsMotion, At, Shifted;
  }

  // ----- a controller in calm circumstances -----

  /** Bit patterns standing for the speed and the coordinates of a state. */
  function CalmValue(s: State, w: Float): real {
    if w == 1 then s.speed else if w == 2 then s.pos.x else if w == 3 then s.pos.y else s.pos.z
  }

  function CalmReport(s: State): Telemetry.RobotState {
    Telemetry.RobotState(0, 1, s.zone, ZERO_TARGET.(x := 2, y := 3, z := 4), ZERO_JOINTS,
                         Telemetry.Zeros(8), Telemetry.Zeros(10))
  }

  /** A step from s in which everything is reachable and motions arrive. */
  function CalmStep(s: State): Step {
    Step(s, Env((w: Float) => CalmValue(s, w), p => true, true, 7000.0, Arrived, s.pos), CalmReport(s))
  }

  lemma CalmIsValid(s: State)
    ensures CalmStep(s).Valid()
  {
  }

  // ----- heartbeats -----

  lemma BeatBytes(l: L.State, past: seq<L.Event>, c: nat, i: nat)
    requires LT.Reached(l, past) && c < |l.conns| && i < |l.conns[c].sent|
    requires L.TicketIn(l.conns[c].sent[i]).None?
    ensures var m := l.conns[c].sent[i]; m.request != [] && m.request[0] == L.PINGR
    ensures var m := l.conns[c].sent[i]; m.origin.Heartbeat? ==> |m.request| == 188
  {
    LT.ReachedInv(l, past);
    assert LI.Genuine(l.conns[c].sent[i], l.submitted);
  }

  /**
   * Whatever an idle worker sends, the controller takes for a PINGR, whole, or ignores when it
   * is cut short: a heartbeat leaves the controller as it was, moves nothing, and is answered
   * once at most.
   */
  lemma HeartbeatsOnlyPing(l: L.State, past: seq<L.Event>, steps: seq<Step>, a: nat)
    requires LT.Reached(l, past) && Controlled(l, steps) && a < |l.served| && InLog(l, a)
    requires L.TicketIn(l.conns[l.served[a].conn].sent[l.served[a].index]).None?
    ensures
      var m := l.conns[l.served[a].conn].sent[l.served[a].index];
      && a < |steps| && Next(m.request, steps[a]) == steps[a].before
      && (m.origin.Heartbeat? || |m.request| >= 4 ==>
            && Parse(m.request) == Execute(Action("PINGR", None, None, None, None, None))
            && l.served[a].answers == [Ascii("ACK|PONGRUWU")]
            && ExecuteAction(steps[a].before, Parse(m.request).action, steps[a].env).lines == [])
      && (|m.request| < 4 ==> Parse(m.request) == Ignored && l.served[a].answers == [])
  {
    var m := l.conns[l.served[a].conn].sent[l.served[a].index];
    BeatBytes(l, past, l.served[a].conn, l.served[a].index);
    assert Ran(l, steps, a);
    RequestCodec.PingParses(m.request);
    if |m.request| >= 4 {
      MotionlessCommands(steps[a].before, Parse(m.request).action, steps[a].env);
      PongRendered(steps[a]);
    }
    hide Parse, ExecuteAction, LT.Reached, Controlled, Rendered;
  }

  lemma PongRendered(step: Step)
    requires step.Valid()
    ensures RenderedAll([Text("ACK|PONGRUWU")], step.report) == [Ascii("ACK|PONGRUWU")]
  {
    hide Ascii;
  }
}
