/**
 * The controller's ExecuteAction (robert-rapid/OperationModule.mod): how often it answers, and
 * that linear moves stay inside the workspace. Positions are reals; what number a bit pattern
 * stands for, whether a target is reachable, and how a motion ends come from outside.
 */
module Operation {
  import opened Bytes
  import opened RobotData
  import opened RapidParsing
  import C = Commands
  import RequestCodec

  datatype Point = Point(x: real, y: real, z: real)

  const CORNER_MIN := Point(400.0, -400.0, 300.0)
  const CORNER_MAX := Point(800.0, 400.0, 800.0)
  const MARGIN := 1.0

  /** How a motion ends: at its target, or by an error after the given part of its path. */
  datatype Motion = Arrived | KinematicLimit(part: real, errno: string) | RuntimeError(part: real, errno: string) {
    predicate Valid() {
      Arrived? || 0.0 <= part <= 1.0
    }

    function Part(): real {
      if Arrived? then 1.0 else part
    }
  }

  /** What the rest of the controller contributes to one action. */
  datatype Env = Env(
    value: Float -> real,              // the number a bit pattern stands for
    reachable: Point -> bool,          // CalcJointT finds joints for a target there
    jointsReachable: bool,             // CalcRobT finds a position for given joints
    maxSpeed: real,
    motion: Motion,
    endsAt: Point)                     // where motions other than linear ones leave the robot

  datatype Answer = Text(text: string) | Status

  /** A straight motion: from, to, and how much of it was carried out. */
  datatype Line = Line(start: Point, end: Point, part: real)

  datatype State = State(pos: Point, speed: real, zone: ZoneData)

  datatype Result = Result(state: State, answers: seq<Answer>, lines: seq<Line>)

  predicate IsInWorkspace(p: Point) {
    if p.x <= CORNER_MIN.x + MARGIN || p.x > CORNER_MAX.x - MARGIN then false
    else if p.y <= CORNER_MIN.y + MARGIN || p.y > CORNER_MAX.y - MARGIN then false
    else if p.z <= CORNER_MIN.z + MARGIN || p.z > CORNER_MAX.z - MARGIN then false
    else true
  }

  predicate IsSafeTarget(p: Point, env: Env) {
    IsInWorkspace(p) && env.reachable(p)
  }

  function At(t: RobTarget, env: Env): Point {
    Point(env.value(t.x), env.value(t.y), env.value(t.z))
  }

  function Shifted(p: Point, d: Point): Point {
    Point(p.x + d.x, p.y + d.y, p.z + d.z)
  }

  function Scaled(f: real, d: real): real {
    f * d
  }

  function Between(a: real, b: real, f: real): real {
    a + Scaled(f, b - a)
  }

  /** The point after part f of the straight line from a to b. */
  function Along(a: Point, b: Point, f: real): Point {
    Point(Between(a.x, b.x, f), Between(a.y, b.y, f), Between(a.z, b.z, f))
  }

  /** Part f of the line: as far from a, in each coordinate, as f of the way to b. */
  lemma StraightLine(a: Point, b: Point, f: real)
    ensures
      var p := Along(a, b, f);
      && p.x - a.x == f * (b.x - a.x) && p.y - a.y == f * (b.y - a.y) && p.z - a.z == f * (b.z - a.z)
    ensures Along(a, b, 0.0) == a && Along(a, b, 1.0) == b
  {
    assert 0.0 * (b.x - a.x) == 0.0 && 0.0 * (b.y - a.y) == 0.0 && 0.0 * (b.z - a.z) == 0.0;
  }

  function Refusal(text: string): seq<Answer> {
    [Text("NACK|" + text)]
  }

  /** The answers of a motion: one when it arrives, those of the ERROR handler when it does not. */
  function MotionAnswers(ack: string, motion: Motion): seq<Answer> {
    match motion
    case Arrived => [Text(ack)]
    case KinematicLimit(_, errno) =>
      Refusal("ERROR ON EXECUTION: Kinematic limit reached.") + Refusal("ERROR ON EXECUTION: " + errno)
    case RuntimeError(_, errno) => Refusal("ERROR ON EXECUTION: " + errno)
  }

  function MoveLinear(s: State, p: Point, ack: string, env: Env): Result {
    if IsSafeTarget(p, env)
    then Result(s.(pos := Along(s.pos, p, env.motion.Part())), MotionAnswers(ack, env.motion),
                [Line(s.pos, p, env.motion.Part())])
    else Result(s, Refusal("SINGULARITY_OR_LIMIT"), [])
  }

  function MoveOther(s: State, safe: bool, ack: string, env: Env): Result {
    if safe then Result(s.(pos := env.endsAt), MotionAnswers(ack, env.motion), [])
    else Result(s, Refusal("SINGULARITY_OR_LIMIT"), [])
  }

  function ExecuteAction(s: State, a: Action, env: Env): Result {
    var missing := Result(s, Refusal("MISSING_COORDS"), []);
    if a.cmd == "PING" then Result(s, Refusal("This ping should be answered at the middleware level, not here!"), [])
    else if a.cmd == "PINGR" then Result(s, [Text("ACK|PONGRUWU")], [])
    else if a.cmd == "MoveL" then
      if a.target.None? then missing else MoveLinear(s, At(a.target.value, env), "ACK|MoveL", env)
    else if a.cmd == "MoveJ" then
      if a.target.None? then missing
      else MoveOther(s, IsSafeTarget(At(a.target.value, env), env), "ACK|MoveJ", env)
    else if a.cmd == "MoveAbsJ" then
      if a.joints.None? then missing else MoveOther(s, env.jointsReachable, "ACK|MoveAbsJ", env)
    else if a.cmd == "MoveC" then
      if a.target.None? || a.extra.None? then missing
      else MoveOther(s, IsSafeTarget(At(a.target.value, env), env) && IsSafeTarget(At(a.extra.value, env), env),
                     "ACK|MoveC", env)
    else if a.cmd == "SetSpeed" then
      if a.speed.None? then Result(s, Refusal("MISSING_SPEED"), [])
      else if a.speed.value < 5 || a.speed.value as real > env.maxSpeed then
        Result(s, Refusal("SPEED_OUT_OF_RANGE"), [])
      else Result(s.(speed := a.speed.value as real), [Text("ACK|SetSpeed")], [])
    else if a.cmd == "SetZone" then
      Result(if a.zone.Some? then s.(zone := a.zone.value) else s, [Text("ACK|SetZone")], [])
    else if a.cmd == "ZERO" then MoveOther(s, true, "ACK|ZERO", env)
    else if a.cmd == "GETSTATUS" then Result(s, [Status], [])
    else if a.cmd == "MoveLOffs" then
      if a.target.None? then missing else MoveLinear(s, Shifted(s.pos, At(a.target.value, env)), "ACK|MOVE_L_OFFS", env)
    else if a.cmd == "MoveJOffs" then
      if a.target.None? then missing
      else MoveOther(s, IsSafeTarget(Shifted(s.pos, At(a.target.value, env)), env), "ACK|MOVE_J_OFFS", env)
    else Result(s, Refusal("UNKNOWN_COMMAND"), [])
  }

  // ----- how many answers -----

  /** The action starts a motion: a move with its coordinates there and its safety check passed. */
  predicate StartsMotion(s: State, a: Action, env: Env) {
    || (a.cmd == "ZERO")
    || (a.cmd == "MoveAbsJ" && a.joints.Some? && env.jointsReachable)
    || (a.cmd == "MoveC" && a.target.Some? && a.extra.Some?
        && IsSafeTarget(At(a.target.value, env), env) && IsSafeTarget(At(a.extra.value, env), env))
    || ((a.cmd == "MoveL" || a.cmd == "MoveJ") && a.target.Some? && IsSafeTarget(At(a.target.value, env), env))
    || ((a.cmd == "MoveLOffs" || a.cmd == "MoveJOffs") && a.target.Some?
        && IsSafeTarget(Shifted(s.pos, At(a.target.value, env)), env))
  }

  /** An action is answered once, except that a motion ending at a kinematic limit is answered twice. */
  lemma AnsweredOnceExactlyIf(s: State, a: Action, env: Env)
    ensures |ExecuteAction(s, a, env).answers| == if StartsMotion(s, a, env) && env.motion.KinematicLimit? then 2 else 1
  {
  }

  /**
   * So for every request the middleware can pack, the controller answers exactly once unless a
   * motion it started ends at a kinematic limit. Module EndToEnd ties this to the link's answers.
   */
  lemma RequestAnsweredOnceExactlyIf(c: C.ClientRequest, s: State, env: Env)
    requires C.Request(C.Decode(c)).Message?
    ensures
      var outcome := Parse(C.Serialize(C.Request(C.Decode(c)).msg));
      && outcome.Execute?
      && (|ExecuteAction(s, outcome.action, env).answers| == 1 <==>
            !(StartsMotion(s, outcome.action, env) && env.motion.KinematicLimit?))
  {
    RequestCodec.RoundTrip(c);
    AnsweredOnceExactlyIf(s, RequestCodec.Intended(c), env);
    hide Parse, C.Serialize, RequestCodec.Intended, ExecuteAction, StartsMotion;
  }

  // ----- what each command is answered and what it changes -----

  /** The commands that move nothing. A speed is set exactly from 5 up to the robot's maximum. */
  lemma MotionlessCommands(s: State, a: Action, env: Env)
    ensures
      var r := ExecuteAction(s, a, env);
      && (a.cmd == "SetSpeed" && a.speed.None? ==> r == Result(s, [Text("NACK|" + "MISSING_SPEED")], []))
      && (a.cmd == "SetSpeed" && a.speed.Some? && 5 <= a.speed.value && a.speed.value as real <= env.maxSpeed ==>
            r == Result(State(s.pos, a.speed.value as real, s.zone), [Text("ACK|SetSpeed")], []))
      && (a.cmd == "SetSpeed" && a.speed.Some? && !(5 <= a.speed.value && a.speed.value as real <= env.maxSpeed) ==>
            r == Result(s, [Text("NACK|" + "SPEED_OUT_OF_RANGE")], []))
      && (a.cmd == "SetZone" && a.zone.Some? ==>
            r == Result(State(s.pos, s.speed, a.zone.value), [Text("ACK|SetZone")], []))
      && (a.cmd == "SetZone" && a.zone.None? ==> r == Result(s, [Text("ACK|SetZone")], []))
      && (a.cmd == "PINGR" ==> r == Result(s, [Text("ACK|PONGRUWU")], []))
      && (a.cmd == "GETSTATUS" ==> r == Result(s, [Status], []))
      && (a.cmd == "PING" ==>
            r == Result(s, [Text("NACK|" + "This ping should be answered at the middleware level, not here!")], []))
  {
  }

  predicate IsKnown(cmd: string) {
    || cmd == "PING" || cmd == "PINGR" || cmd == "GETSTATUS" || cmd == "SetSpeed" || cmd == "SetZone" || cmd == "ZERO"
    || cmd == "MoveL" || cmd == "MoveJ" || cmd == "MoveC" || cmd == "MoveAbsJ" || cmd == "MoveLOffs"
    || cmd == "MoveJOffs"
  }

  lemma UnknownCommands(s: State, a: Action, env: Env)
    requires !IsKnown(a.cmd)
    ensures ExecuteAction(s, a, env) == Result(s, [Text("NACK|" + "UNKNOWN_COMMAND")], [])
  {
  }

  /** Where a target is let through: the box, and what the kinematics reach. */
  predicate Allowed(p: Point, env: Env) {
    401.0 < p.x <= 799.0 && -399.0 < p.y <= 399.0 && 301.0 < p.z <= 799.0 && env.reachable(p)
  }

  /** The targets a move is checked for; none for joints and for the zero position. */
  function CheckedTargets(s: State, a: Action, env: Env): seq<Point> {
    if (a.cmd == "MoveL" || a.cmd == "MoveJ") && a.target.Some? then [At(a.target.value, env)]
    else if (a.cmd == "MoveLOffs" || a.cmd == "MoveJOffs") && a.target.Some? then
      var d := At(a.target.value, env);
      [Point(s.pos.x + d.x, s.pos.y + d.y, s.pos.z + d.z)]
    else if a.cmd == "MoveC" && a.target.Some? && a.extra.Some? then [At(a.target.value, env), At(a.extra.value, env)]
    else []
  }

  predicate HasCoordinates(a: Action) {
    if a.cmd == "MoveAbsJ" then a.joints.Some?
    else if a.cmd == "MoveC" then a.target.Some? && a.extra.Some?
    else a.cmd == "ZERO" || a.target.Some?
  }

  predicate IsMotion(cmd: string) {
    cmd == "ZERO" || IsMoveCommand(cmd)
  }

  /**
   * A motion command without its coordinates, or with a target outside the box or out of reach,
   * is refused with the reason and changes nothing; any other starts its motion.
   */
  lemma MotionStartsExactlyIf(s: State, a: Action, env: Env)
    requires IsMotion(a.cmd)
    ensures
      var allowed := (forall p | p in CheckedTargets(s, a, env) :: Allowed(p, env))
                     && (a.cmd == "MoveAbsJ" ==> env.jointsReachable);
      && (StartsMotion(s, a, env) <==> HasCoordinates(a) && allowed)
      && (!HasCoordinates(a) ==> ExecuteAction(s, a, env) == Result(s, [Text("NACK|" + "MISSING_COORDS")], []))
      && (HasCoordinates(a) && !allowed ==>
            ExecuteAction(s, a, env) == Result(s, [Text("NACK|" + "SINGULARITY_OR_LIMIT")], []))
  {
    var ps := CheckedTargets(s, a, env);
    assert |ps| > 0 ==> ps[0] in ps;
    assert |ps| > 1 ==> ps[1] in ps;
    hide At, Along, MotionAnswers;
  }

  /**
   * A started motion that arrives is acknowledged by its name and one that fails is refused;
   * a linear one goes along its straight line as far as it gets.
   */
  lemma MotionCarriedOut(s: State, a: Action, env: Env)
    requires StartsMotion(s, a, env)
    ensures
      var r := ExecuteAction(s, a, env);
      && r.state.speed == s.speed && r.state.zone == s.zone
      && (env.motion.Arrived? ==> r.answers == [Text(MotionAck(a.cmd))])
      && (env.motion.RuntimeError? ==> r.answers == [Text("NACK|" + ("ERROR ON EXECUTION: " + env.motion.errno))])
      && (env.motion.KinematicLimit? ==>
            r.answers == [Text("NACK|" + "ERROR ON EXECUTION: Kinematic limit reached."),
                          Text("NACK|" + ("ERROR ON EXECUTION: " + env.motion.errno))])
      && (if a.cmd == "MoveL" || a.cmd == "MoveLOffs" then
            var p := CheckedTargets(s, a, env)[0];
            var part := if env.motion.Arrived? then 1.0 else env.motion.part;
            && r.state.pos == Along(s.pos, p, part) && r.lines == [Line(s.pos, p, part)]
          else r.state.pos == env.endsAt && r.lines == [])
  {
    MotionAnswered(s, a, env);
    hide MotionAck, MotionAnswers, At, Along, IsInWorkspace;
    AnswersWritten(MotionAck(a.cmd), env.motion);
  }

  lemma AnswersWritten(ack: string, motion: Motion)
    ensures motion.Arrived? ==> MotionAnswers(ack, motion) == [Text(ack)]
    ensures motion.RuntimeError? ==>
              MotionAnswers(ack, motion) == [Text("NACK|" + ("ERROR ON EXECUTION: " + motion.errno))]
    ensures motion.KinematicLimit? ==>
              MotionAnswers(ack, motion) == [Text("NACK|" + "ERROR ON EXECUTION: Kinematic limit reached."),
                                             Text("NACK|" + ("ERROR ON EXECUTION: " + motion.errno))]
  {
  }

  // ----- what a refusal and a run leave unchanged -----

  predicate Refused(a: Answer) {
    a.Text? && "NACK" <= a.text
  }

  lemma AckIsNoRefusal(ack: string)
    requires "ACK|" <= ack
    ensures !Refused(Text(ack))
  {
    assert ack[0] == 'A';
  }

  lemma MotionRefusedExactlyIf(ack: string, motion: Motion)
    requires "ACK|" <= ack
    ensures MotionAnswers(ack, motion) != []
    ensures Refused(MotionAnswers(ack, motion)[0]) <==> !motion.Arrived?
  {
    AckIsNoRefusal(ack);
    if !motion.Arrived? {
      var text := MotionAnswers(ack, motion)[0].text;
      assert text[..4] == "NACK";
    }
  }

  function MotionAck(cmd: string): string {
    if cmd == "MoveL" then "ACK|MoveL"
    else if cmd == "MoveJ" then "ACK|MoveJ"
    else if cmd == "MoveC" then "ACK|MoveC"
    else if cmd == "MoveAbsJ" then "ACK|MoveAbsJ"
    else if cmd == "MoveLOffs" then "ACK|MOVE_L_OFFS"
    else if cmd == "MoveJOffs" then "ACK|MOVE_J_OFFS"
    else "ACK|ZERO"
  }

  lemma MotionAnswered(s: State, a: Action, env: Env)
    requires StartsMotion(s, a, env)
    ensures ExecuteAction(s, a, env).answers == MotionAnswers(MotionAck(a.cmd), env.motion)
  {
    hide MotionAnswers, Refusal, IsSafeTarget, Along, At, Shifted;
  }

  lemma StillUnlessMoving(s: State, a: Action, env: Env)
    requires !StartsMotion(s, a, env)
    ensures
      var r := ExecuteAction(s, a, env);
      && r.lines == [] && r.state.pos == s.pos
      && (r.state == s || r.answers == [Text("ACK|SetSpeed")] || r.answers == [Text("ACK|SetZone")])
  {
    hide MotionAnswers, Refusal, IsSafeTarget, Along, At, Shifted;
  }

  /**
   * An action that starts no motion leaves the robot where it is, and if it is refused it
   * changes nothing at all; the answer to one that starts a motion is a refusal exactly when
   * the motion failed.
   */
  lemma RefusalChangesNothing(s: State, a: Action, env: Env)
    ensures
      var r := ExecuteAction(s, a, env);
      && r.answers != []
      && (!StartsMotion(s, a, env) ==> r.lines == [] && r.state.pos == s.pos)
      && (!StartsMotion(s, a, env) && Refused(r.answers[0]) ==> r.state == s)
      && (StartsMotion(s, a, env) ==> (Refused(r.answers[0]) <==> !env.motion.Arrived?))
  {
    AnsweredOnceExactlyIf(s, a, env);
    if StartsMotion(s, a, env) {
      MotionAnswered(s, a, env);
      MotionRefusedExactlyIf(MotionAck(a.cmd), env.motion);
      hide *;
    } else {
      StillUnlessMoving(s, a, env);
      AckIsNoRefusal("ACK|SetSpeed");
      AckIsNoRefusal("ACK|SetZone");
      hide *;
    }
  }

  /** The state after a run of actions, each in its own circumstances. */
  function After(s: State, run: seq<(Action, Env)>): State
    decreases |run|
  {
    if run == [] then s else After(ExecuteAction(s, run[0].0, run[0].1).state, run[1..])
  }

  lemma SpeedStep(s: State, a: Action, env: Env)
    ensures
      var v := ExecuteAction(s, a, env).state.speed;
      v == s.speed || (a.cmd == "SetSpeed" && 5.0 <= v <= env.maxSpeed)
  {
  }

  /** No run of commands brings the speed out of the range the controller allows. */
  lemma {:induction false} SpeedStaysInRange(s: State, run: seq<(Action, Env)>, maxSpeed: real)
    requires 5.0 <= s.speed <= maxSpeed
    requires forall i | 0 <= i < |run| :: run[i].1.maxSpeed == maxSpeed
    ensures 5.0 <= After(s, run).speed <= maxSpeed
    decreases |run|
  {
    hide ExecuteAction;
    if run != [] {
      SpeedStep(s, run[0].0, run[0].1);
      SpeedStaysInRange(ExecuteAction(s, run[0].0, run[0].1).state, run[1..], maxSpeed);
    }
  }

  // ----- the workspace -----

  /** Actions whose path the workspace check covers: linear moves, and those without a motion. */
  predicate IsLinearOrStill(a: Action) {
    a.cmd != "MoveJ" && a.cmd != "MoveAbsJ" && a.cmd != "MoveC" && a.cmd != "ZERO" && a.cmd != "MoveJOffs"
  }

  lemma Sign(f: real, d: real)
    requires f >= 0.0
    ensures d >= 0.0 ==> f * d >= 0.0
    ensures d <= 0.0 ==> f * d <= 0.0
  {
  }

  lemma Rest(d: real, f: real)
    ensures f * d + (1.0 - f) * d == d
  {
  }

  lemma PartOf(d: real, f: real)
    requires 0.0 <= f <= 1.0
    ensures d >= 0.0 ==> 0.0 <= Scaled(f, d) <= d
    ensures d <= 0.0 ==> d <= Scaled(f, d) <= 0.0
  {
    Sign(f, d);
    Sign(1.0 - f, d);
    Rest(d, f);
  }

  lemma PartStays(lo: real, hi: real, a: real, b: real, m: real)
    requires lo < a <= hi && lo < b <= hi
    requires (b >= a ==> 0.0 <= m <= b - a) && (b <= a ==> b - a <= m <= 0.0)
    ensures lo < a + m <= hi
  {
  }

  lemma AxisStays(lo: real, hi: real, a: real, b: real, f: real)
    requires lo < a <= hi && lo < b <= hi && 0.0 <= f <= 1.0
    ensures lo < Between(a, b, f) <= hi
  {
    PartOf(b - a, f);
    hide Scaled;
    PartStays(lo, hi, a, b, Scaled(f, b - a));
  }

  /** The margin-shrunk box is convex. */
  lemma SegmentStaysInWorkspace(a: Point, b: Point, f: real)
    requires IsInWorkspace(a) && IsInWorkspace(b) && 0.0 <= f <= 1.0
    ensures IsInWorkspace(Along(a, b, f))
  {
    hide Between;
    AxisStays(401.0, 799.0, a.x, b.x, f);
    AxisStays(-399.0, 399.0, a.y, b.y, f);
    AxisStays(301.0, 799.0, a.z, b.z, f);
  }

  /** Every point of what was carried out of a line is inside. */
  ghost predicate LineInside(l: Line) {
    forall f | 0.0 <= f <= l.part :: IsInWorkspace(Along(l.start, l.end, f))
  }

  lemma StepStaysInWorkspace(s: State, a: Action, env: Env)
    requires IsInWorkspace(s.pos) && IsLinearOrStill(a) && env.motion.Valid()
    ensures
      var r := ExecuteAction(s, a, env);
      IsInWorkspace(r.state.pos) && forall l | l in r.lines :: LineInside(l)
  {
    var r := ExecuteAction(s, a, env);
    LinesAsTaken(s, a, env);
    hide ExecuteAction, IsInWorkspace, Along;
    if r.lines != [] {
      var l := r.lines[0];
      forall f | 0.0 <= f <= l.part
        ensures IsInWorkspace(Along(l.start, l.end, f))
      {
        SegmentStaysInWorkspace(l.start, l.end, f);
      }
    }
  }

  /** A linear or still action takes at most one line, to a target that passed the check. */
  lemma LinesAsTaken(s: State, a: Action, env: Env)
    requires IsLinearOrStill(a)
    ensures
      var r := ExecuteAction(s, a, env);
      || (r.lines == [] && r.state.pos == s.pos)
      || (|r.lines| == 1 && r.lines[0].start == s.pos && IsInWorkspace(r.lines[0].end)
          && r.lines[0].part == env.motion.Part()
          && r.state.pos == Along(s.pos, r.lines[0].end, env.motion.Part()))
  {
    hide IsInWorkspace, Along;
  }

  /** A straight line is taken exactly for a linear move whose target is inside and reachable. */
  lemma LineTakenExactlyIf(s: State, a: Action, env: Env)
    ensures
      ExecuteAction(s, a, env).lines != [] <==>
        && (a.cmd == "MoveL" || a.cmd == "MoveLOffs") && a.target.Some?
        && var p := if a.cmd == "MoveL" then At(a.target.value, env) else Shifted(s.pos, At(a.target.value, env));
           && 401.0 < p.x <= 799.0 && -399.0 < p.y <= 399.0 && 301.0 < p.z <= 799.0
           && env.reachable(p)
  {
    hide MotionAnswers, Along;
  }

  /** All lines taken in a run of actions. */
  function Lines(s: State, run: seq<(Action, Env)>): seq<Line>
    decreases |run|
  {
    if run == [] then []
    else
      var r := ExecuteAction(s, run[0].0, run[0].1);
      r.lines + Lines(r.state, run[1..])
  }

  /**
   * Workspace safety: starting inside the shrunk box, any run of linear moves, offset moves and
   * motionless commands, with any errors on the way, keeps every point of every path inside it.
   */
  lemma {:induction false} RunStaysInWorkspace(s: State, run: seq<(Action, Env)>)
    requires IsInWorkspace(s.pos)
    requires forall i | 0 <= i < |run| :: IsLinearOrStill(run[i].0) && run[i].1.motion.Valid()
    ensures forall l | l in Lines(s, run) :: LineInside(l)
    decreases |run|
  {
    hide ExecuteAction, IsInWorkspace, IsLinearOrStill, LineInside;
    if run != [] {
      StepStaysInWorkspace(s, run[0].0, run[0].1);
      RunStaysInWorkspace(ExecuteAction(s, run[0].0, run[0].1).state, run[1..]);
    }
  }

  // ----- the controller's module variables -----

  /** ExecuteAction as it runs: speed, zone and offset target change in place, answers are sent as it goes. */
  class Controller {
    var pos: Point
    var moveSpeed: real
    var moveZone: ZoneData
    var tempRobTarget: Point
    var sent: seq<Answer>
    ghost var taken: seq<Line>

    ghost function Model(): State
      reads this
    {
      State(pos, moveSpeed, moveZone)
    }

    /** This action's part of the state, the answers and the path are r's, and nothing else happened. */
    twostate predicate Did(r: Result)
      reads this
    {
      && Model() == r.state
      && sent == old(sent) + r.answers
      && taken == if r.lines == [] then old(taken) else old(taken) + r.lines
    }

    constructor (start: Point, speed: real, zone: ZoneData)
      ensures Model() == State(start, speed, zone) && sent == [] && taken == []
    {
      pos, moveSpeed, moveZone := start, speed, zone;
      tempRobTarget := start;
      sent, taken := [], [];
    }

    method SendResponse(text: string)
      modifies this`sent
      ensures sent == old(sent) + [Text(text)]
    {
      sent := sent + [Text(text)];
    }

    method SendRefusal(text: string)
      modifies this`sent
      ensures sent == old(sent) + Refusal(text)
    {
      SendResponse("NACK|" + text);
    }

    /** The ERROR handler, entered when a motion fails; it falls through to a second answer. */
    method OnError(motion: Motion)
      requires !motion.Arrived?
      modifies this`sent
      ensures sent == old(sent) + MotionAnswers("", motion)
    {
      if motion.KinematicLimit? {
        SendRefusal("ERROR ON EXECUTION: Kinematic limit reached.");
      }
      SendRefusal("ERROR ON EXECUTION: " + motion.errno);
      assert sent == old(sent) + MotionAnswers("", motion);
    }

    method MoveL(p: Point, ack: string, env: Env)
      modifies this`pos, this`sent, this`taken
      ensures Did(MoveLinear(old(Model()), p, ack, env))
    {
      if !IsSafeTarget(p, env) {
        SendRefusal("SINGULARITY_OR_LIMIT");
        return;
      }
      taken := taken + [Line(pos, p, env.motion.Part())];
      pos := Along(pos, p, env.motion.Part());
      if env.motion.Arrived? {
        SendResponse(ack);
      } else {
        OnError(env.motion);
      }
    }

    method MoveElse(safe: bool, ack: string, env: Env)
      modifies this`pos, this`sent
      ensures Did(MoveOther(old(Model()), safe, ack, env))
    {
      if !safe {
        SendRefusal("SINGULARITY_OR_LIMIT");
        return;
      }
      pos := env.endsAt;
      if env.motion.Arrived? {
        SendResponse(ack);
      } else {
        OnError(env.motion);
      }
    }

    method Execute(a: Action, env: Env)
      modifies this
      ensures Did(ExecuteAction(old(Model()), a, env))
    {
      hide IsSafeTarget, Between, MotionAnswers;
      if a.cmd == "PING" {
        SendRefusal("This ping should be answered at the middleware level, not here!");
      } else if a.cmd == "PINGR" {
        SendResponse("ACK|PONGRUWU");
      } else if a.cmd == "SetSpeed" {
        if a.speed.None? {
          SendRefusal("MISSING_SPEED");
        } else if a.speed.value < 5 || a.speed.value as real > env.maxSpeed {
          SendRefusal("SPEED_OUT_OF_RANGE");
        } else {
          moveSpeed := a.speed.value as real;
          SendResponse("ACK|SetSpeed");
        }
      } else if a.cmd == "SetZone" {
        if a.zone.Some? {
          moveZone := a.zone.value;
        }
        SendResponse("ACK|SetZone");
      } else if a.cmd == "GETSTATUS" {
        sent := sent + [Status];
      } else if a.cmd == "ZERO" || IsMoveCommand(a.cmd) {
        ExecuteMove(a, env);
      } else {
        SendRefusal("UNKNOWN_COMMAND");
      }
    }

    method ExecuteMove(a: Action, env: Env)
      requires a.cmd == "ZERO" || IsMoveCommand(a.cmd)
      modifies this
      ensures Did(ExecuteAction(old(Model()), a, env))
    {
      hide IsSafeTarget, Between, MotionAnswers, MoveLinear, MoveOther;
      if a.cmd == "ZERO" {
        MoveElse(true, "ACK|ZERO", env);
      } else if a.cmd == "MoveAbsJ" {
        if a.joints.None? {
          SendRefusal("MISSING_COORDS");
        } else {
          MoveElse(env.jointsReachable, "ACK|MoveAbsJ", env);
        }
      } else if a.target.None? || (a.cmd == "MoveC" && a.extra.None?) {
        SendRefusal("MISSING_COORDS");
      } else if a.cmd == "MoveL" {
        MoveL(At(a.target.value, env), "ACK|MoveL", env);
      } else if a.cmd == "MoveJ" {
        MoveElse(IsSafeTarget(At(a.target.value, env), env), "ACK|MoveJ", env);
      } else if a.cmd == "MoveC" {
        var first := IsSafeTarget(At(a.target.value, env), env);
        var second := IsSafeTarget(At(a.extra.value, env), env);
        MoveElse(first && second, "ACK|MoveC", env);
      } else {
        tempRobTarget := Shifted(pos, At(a.target.value, env));
        if a.cmd == "MoveLOffs" {
          MoveL(tempRobTarget, "ACK|MOVE_L_OFFS", env);
        } else {
          MoveElse(IsSafeTarget(tempRobTarget, env), "ACK|MOVE_J_OFFS", env);
        }
      }
    }
  }
}
