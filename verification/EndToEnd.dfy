/** What clients are told of completed tasks, over all runs of the server with the controller at the far end. */
module EndToEnd {
  import opened Bytes
  import opened Commands
  import opened ControlledLink
  import L = RobotLink
  import M = Middleware
  import O = Operation
  import P = Pipeline
  import RapidParsing
  import RequestCodec
  import TR = TaskRecord

  /**
   * The response of task t came from one of the controller's steps, and unless some motion on
   * that connection had ended at a kinematic limit by then, that step read t's own request and
   * carried out the action the client meant, to its effect, and the response is the only answer
   * to it.
   */
  ghost predicate AsAsked(s: M.State, steps: seq<Step>, t: TR.Task, c: ClientRequest, serial: nat) {
    && Request(Decode(c)).Message?
    && exists k: nat ::
         && M.Answered(s, t, k, serial)
         && (NoLimitUpTo(s.l, steps, serial) ==>
               && M.ReadOf(s, serial, k, t.id)
               && CarriedOut(s.l, steps, serial, RequestCodec.Intended(c), t.response)
               && HadEffect(c, steps[serial], Next(ReadAt(s.l, serial), steps[serial])))
  }

  /** What a client's request comes to at the controller, from the state before the step to the one after it. */
  predicate HadEffect(c: ClientRequest, step: Step, after: O.State) {
    match c.command
    case MOVE_L => c.target.Some? && after.pos == O.At(c.target.value, step.env)
    case MOVE_L_OFFS =>
      c.target.Some?
      && var d := O.At(c.target.value, step.env);
         after.pos == O.Point(step.before.pos.x + d.x, step.before.pos.y + d.y, step.before.pos.z + d.z)
    case MOVE_J => after.pos == step.env.endsAt
    case MOVE_C => after.pos == step.env.endsAt
    case MOVE_ABS_J => after.pos == step.env.endsAt
    case MOVE_J_OFFS => after.pos == step.env.endsAt
    case ZERO => after.pos == step.env.endsAt
    case SET_SPEED => DropsFraction(c.speed, after.speed) && 5.0 <= after.speed <= step.env.maxSpeed
    case SET_ZONE => after.zone == RequestCodec.ZoneMeant(c.zone)
    case _ => after == step.before
  }

  lemma AccomplishedHadEffect(c: ClientRequest, step: Step)
    requires Request(Decode(c)).Message? && Accomplished(step, RequestCodec.Intended(c))
    ensures HadEffect(c, step, O.ExecuteAction(step.before, RequestCodec.Intended(c), step.env).state)
  {
    hide *;
    if IsMotion(c.command) {
      MotionHadEffect(c, step);
    } else if IsForRobot(c.command) {
      SettingHadEffect(c, step);
    } else {
      OtherHadEffect(c, step);
    }
  }

  lemma MotionHadEffect(c: ClientRequest, step: Step)
    requires IsMotion(c.command)
    requires Request(Decode(c)).Message? && Accomplished(step, RequestCodec.Intended(c))
    ensures HadEffect(c, step, O.ExecuteAction(step.before, RequestCodec.Intended(c), step.env).state)
  {
    var a := RequestCodec.Intended(c);
    NamesMotion(c);
    O.MotionCarriedOut(step.before, a, step.env);
    hide O.ExecuteAction, O.At, O.StartsMotion, O.Along, Request, Decode;
  }

  lemma NamesMotion(c: ClientRequest)
    requires IsMotion(c.command) && Request(Decode(c)).Message?
    ensures O.IsMotion(RequestCodec.Intended(c).cmd) && RequestCodec.Intended(c).target == (
              if c.command.NeedsTarget() then c.target else None)
    ensures var cmd := RequestCodec.Intended(c).cmd;
            (c.command.MOVE_L? <==> cmd == "MoveL") && (c.command.MOVE_L_OFFS? <==> cmd == "MoveLOffs")
  {
    hide Request, Decode;
  }

  lemma SettingHadEffect(c: ClientRequest, step: Step)
    requires !IsMotion(c.command) && IsForRobot(c.command)
    requires Request(Decode(c)).Message? && Accomplished(step, RequestCodec.Intended(c))
    ensures HadEffect(c, step, O.ExecuteAction(step.before, RequestCodec.Intended(c), step.env).state)
  {
    RequestCodec.RoundTrip(c);
    O.MotionlessCommands(step.before, RequestCodec.Intended(c), step.env);
    hide O.ExecuteAction, O.At, O.StartsMotion, RapidParsing.Parse, Serialize, Request, Decode, DropsFraction;
  }

  lemma OtherHadEffect(c: ClientRequest, step: Step)
    requires !IsMotion(c.command) && !IsForRobot(c.command)
    requires Request(Decode(c)).Message?
    ensures HadEffect(c, step, O.ExecuteAction(step.before, RequestCodec.Intended(c), step.env).state)
  {
    O.UnknownCommands(step.before, RequestCodec.Intended(c), step.env);
    hide O.ExecuteAction, Request, Decode;
  }

  predicate IsMotion(command: CommandType) {
    command.NeedsTarget() || command.MOVE_ABS_J? || command.ZERO?
  }

  predicate IsForRobot(command: CommandType) {
    IsMotion(command) || command.SET_SPEED? || command.SET_ZONE? || command.GETSTATUS?
    || command.PING? || command.PINGR?
  }

  lemma AnsweredAsAsked(s: M.State, steps: seq<Step>, t: TR.Task, c: ClientRequest, k: nat, serial: nat)
    requires Controlled(s.l, steps) && !P.IsRefusal(t.response)
    requires 1 <= t.id <= |s.p.requests| && PackedFrom(c, s.p.requests[t.id - 1])
    requires M.Answered(s, t, k, serial)
    requires L.PoliteUpTo(s.l.served, serial) ==> M.HasItsAnswer(s, t, k, serial)
    ensures AsAsked(s, steps, t, c, serial)
  {
    hide M.Answered, M.ReadOf, RequestCodec.Intended, Serialize, CarriedOut, Controlled, P.IsRefusal, L.PoliteUpTo,
      NoLimitUpTo;
    PoliteExactlyIf(s.l, steps, serial);
    if NoLimitUpTo(s.l, steps, serial) {
      M.OwnAnswerRead(s, t, k, serial);
      OwnAnswerCarriedOut(s.l, steps, k, c, s.p.requests[t.id - 1], serial, t.response);
      CarriedOutHadEffect(s.l, steps, serial, c, t.response);
    }
  }

  lemma CarriedOutHadEffect(l: L.State, steps: seq<Step>, serial: nat, c: ClientRequest, answer: seq<byte>)
    requires Request(Decode(c)).Message? && CarriedOut(l, steps, serial, RequestCodec.Intended(c), answer)
    ensures HadEffect(c, steps[serial], Next(ReadAt(l, serial), steps[serial]))
  {
    AccomplishedHadEffect(c, steps[serial]);
    hide HadEffect, O.ExecuteAction, Accomplished, Request, Decode, RequestCodec.Intended, Answers;
  }

  /**
   * A task whose request was packed from a client's request and that clients see completed was
   * carried out as the client asked, whatever partial sends, heartbeats, failures and reconnects
   * happened in the run.
   */
  lemma CompletedAsAsked(s: M.State, es: seq<M.Event>, steps: seq<Step>, id: nat, c: ClientRequest)
    requires M.Reached(s, es) && Controlled(s.l, steps)
    requires id in s.p.tasks && s.p.tasks[id].state.Completed?
    requires PackedFrom(c, s.p.tasks[id].request)
    ensures exists serial: nat :: AsAsked(s, steps, s.p.tasks[id], c, serial)
  {
    hide *;
    M.TableShowsItsAnswer(s, es, id);
    M.CompletedIsNoRefusal(s, es, id);
    var k: nat, conn: nat, n: nat, serial: nat :|
      && M.GotAnswer(s, s.p.tasks[id], k, conn, n, serial)
      && (L.PoliteUpTo(s.l.served, serial) ==> M.HasItsAnswer(s, s.p.tasks[id], k, serial));
    M.AnsweredBy(s, s.p.tasks[id], k, conn, n, serial);
    AnsweredAsAsked(s, steps, s.p.tasks[id], c, k, serial);
  }

  /**
   * Of two completed tasks, numbered i + 1 and j + 1, the controller carried out the one added
   * first before it even read the other, whether or not they are still in the table.
   */
  lemma CompletedInTurn(s: M.State, es: seq<M.Event>, steps: seq<Step>,
                        i: nat, j: nat, c: ClientRequest, d: ClientRequest)
    requires M.Reached(s, es) && Controlled(s.l, steps) && i < j < |s.p.finals| && j < |s.p.requests|
    requires s.p.finals[i].task.state.Completed? && s.p.finals[j].task.state.Completed?
    requires PackedFrom(c, s.p.requests[i]) && PackedFrom(d, s.p.requests[j])
    ensures exists a: nat, b: nat ::
              && AsAsked(s, steps, s.p.finals[i].task, c, a) && AsAsked(s, steps, s.p.finals[j].task, d, b)
              && (NoLimitUpTo(s.l, steps, b) ==> a < b)
  {
    hide *;
    M.ReachedInv(s, es);
    M.FinalIsNoRefusal(s, es, i);
    M.FinalIsNoRefusal(s, es, j);
    var k, a, later, b := M.InOrder(s, i, j);
    AnsweredAsAsked(s, steps, s.p.finals[i].task, c, k, a);
    AnsweredAsAsked(s, steps, s.p.finals[j].task, d, later, b);
    PoliteExactlyIf(s.l, steps, b);
  }

  /** Two completed tasks were carried out in two different steps, each in its own. */
  lemma CompletedInOwnSteps(s: M.State, es: seq<M.Event>, steps: seq<Step>,
                            t: TR.Task, c: ClientRequest, a: nat, u: TR.Task, d: ClientRequest, b: nat)
    requires M.Reached(s, es) && t.id != u.id
    requires AsAsked(s, steps, t, c, a) && NoLimitUpTo(s.l, steps, a)
    requires AsAsked(s, steps, u, d, b) && NoLimitUpTo(s.l, steps, b)
    ensures a != b
  {
    hide M.Answered, M.ReadOf, CarriedOut, NoLimitUpTo, Request, Decode, RequestCodec.Intended, M.Reached;
    var k: nat :| M.Answered(s, t, k, a) && M.ReadOf(s, a, k, t.id);
    var l: nat :| M.Answered(s, u, l, b) && M.ReadOf(s, b, l, u.id);
    M.TaskReadOnce(s, es, a, k, t.id, b, l, u.id);
  }
}
