/** The request packer of the middleware: src/commands/commands.cpp, src/commands/commands.hpp. */
module Commands {
  import opened Bytes
  import opened RobotData

  datatype CommandType =
    | MOVE_L | MOVE_J | MOVE_C | MOVE_ABS_J | SET_SPEED | SET_ZONE | EXIT | PING | PINGR | ZERO
    | GETSTATUS | CHECK_TASK | LOGIN | LOGOUT | ACQUIRE | RELEASE | MOVE_L_OFFS | MOVE_J_OFFS | UNKNOWN
  {
    function Id(): byte {
      match this
      case MOVE_L => 0x00
      case MOVE_J => 0x01
      case MOVE_C => 0x02
      case MOVE_ABS_J => 0x03
      case SET_SPEED => 0x04
      case SET_ZONE => 0x05
      case EXIT => 0x06
      case PING => 0x07
      case PINGR => 0x08
      case ZERO => 0x09
      case GETSTATUS => 0x0A
      case CHECK_TASK => 0x0B
      case LOGIN => 0x0C
      case LOGOUT => 0x0D
      case ACQUIRE => 0x0E
      case RELEASE => 0x0F
      case MOVE_L_OFFS => 0x10
      case MOVE_J_OFFS => 0x11
      case UNKNOWN => 0xFF
    }

    predicate NeedsTarget() {
      MOVE_L? || MOVE_J? || MOVE_C? || MOVE_L_OFFS? || MOVE_J_OFFS?
    }
  }

  datatype Zone = FINE | Z1 | Z5 | Z10 | Z15 | Z20 | Z30 {
    function Id(): byte {
      match this
      case FINE => 0 case Z1 => 1 case Z5 => 2 case Z10 => 3 case Z15 => 4 case Z20 => 5 case Z30 => 6
    }
  }

  /** A parsed client message: what decode_buffer reads from the protobuf object. */
  datatype ClientRequest = ClientRequest(
    command: CommandType,
    target: Option<RobTarget>,
    extraTarget: Option<RobTarget>,
    jointTarget: Option<JointTarget>,
    taskId: nat,
    speed: real,
    zone: Zone,
    sessionToken: string,
    username: string,
    password: string)

  datatype DecodedRequest = DecodedRequest(
    cmdType: CommandType,
    target: Option<RobTargetBridge>,
    extraTarget: Option<RobTargetBridge>,
    jointTarget: Option<JointTargetBridge>,
    taskId: Option<nat>,
    speed: real,
    zone: Zone,
    sessionToken: Option<string>,
    username: Option<string>,
    password: Option<string>)
  {
    ghost predicate Valid() {
      && (target.Some? ==> target.value.Valid())
      && (extraTarget.Some? ==> extraTarget.value.Valid())
      && (jointTarget.Some? ==> jointTarget.value.Valid())
    }
  }

  function NonEmpty(s: string): Option<string> {
    if s == "" then None else Some(s)
  }

  function Decode(c: ClientRequest): (d: DecodedRequest)
    ensures d.Valid()
  {
    DecodedRequest(
      c.command,
      if c.target.Some? then Some(TranslateTarget(c.target.value)) else None,
      if c.extraTarget.Some? then Some(TranslateTarget(c.extraTarget.value)) else None,
      if c.jointTarget.Some? then Some(TranslateJoints(c.jointTarget.value)) else None,
      if c.command.CHECK_TASK? then Some(c.taskId) else None,
      c.speed, c.zone, NonEmpty(c.sessionToken), NonEmpty(c.username), NonEmpty(c.password))
  }

  /**
   * Of a client message everything is kept: text fields when they are not empty, the task id
   * for CHECK_TASK alone, since the wire cannot say that a number is missing.
   */
  lemma DecodeKeeps(c: ClientRequest)
    ensures
      var d := Decode(c);
      && d.cmdType == c.command && d.speed == c.speed && d.zone == c.zone
      && (d.target.Some? <==> c.target.Some?) && (d.extraTarget.Some? <==> c.extraTarget.Some?)
      && (d.jointTarget.Some? <==> c.jointTarget.Some?)
      && (c.command == CHECK_TASK ==> d.taskId == Some(c.taskId)) && (c.command != CHECK_TASK ==> d.taskId == None)
      && (c.sessionToken != "" ==> d.sessionToken == Some(c.sessionToken))
      && (c.username != "" ==> d.username == Some(c.username))
      && (c.password != "" ==> d.password == Some(c.password))
      && (c.sessionToken == "" ==> d.sessionToken == None)
      && (c.username == "" ==> d.username == None)
      && (c.password == "" ==> d.password == None)
  {
  }

  /** The packed 188-byte struct. */
  datatype RapidRequest = RapidRequest(
    commandId: byte, zone: byte, speed: u16,
    target: RobTarget, extraTarget: RobTarget, jointTarget: JointTarget)

  const ZEROED := RapidRequest(0, 0, 0, ZERO_TARGET, ZERO_TARGET, ZERO_JOINTS)

  function Words(m: RapidRequest): (ws: seq<u32>)
    ensures |ws| == 46
  {
    TargetWords(m.target) + TargetWords(m.extraTarget) + JointWords(m.jointTarget)
  }

  function Header(m: RapidRequest): (b: seq<byte>)
    ensures |b| == 4
  {
    [m.commandId, m.zone] + LE16(m.speed)
  }

  function Serialize(m: RapidRequest): (b: seq<byte>)
    ensures |b| == 188
  {
    Header(m) + Flatten(Words(m))
  }

  datatype Packed =
    | Message(msg: RapidRequest)
    | InvalidArgument(text: string)
    | Undefined   // the conversion of the speed to 16 bits has no defined result

  const NO_TARGET := "MoveL, MoveJ, and MoveC commands require target data."
  const NO_SECOND := "MoveC command requires a second target."
  const NO_JOINTS := "MoveAbsJ command requires joint data."

  /** A float converts to uint16_t by dropping its fraction, if what remains fits. */
  predicate SpeedFits(speed: real) {
    -1.0 < speed < 65536.0
  }

  function TruncatedSpeed(speed: real): u16
    requires SpeedFits(speed)
  {
    if speed < 0.0 then 0 else speed.Floor
  }

  /** Of a speed that fits only the whole part is left, which for one below zero is nothing. */
  predicate DropsFraction(speed: real, whole: real) {
    whole == whole.Floor as real && if speed >= 0.0 then whole <= speed < whole + 1.0 else whole == 0.0
  }

  lemma SpeedDropsFraction(speed: real)
    requires -1.0 < speed < 65536.0
    ensures DropsFraction(speed, TruncatedSpeed(speed) as real)
  {
  }

  /** What the message for a request is: the command's own fields, everything else zero. */
  function Request(d: DecodedRequest): Packed
    requires d.Valid()
  {
    var blank := ZEROED.(commandId := d.cmdType.Id());
    if d.cmdType.NeedsTarget() && d.target.None? then InvalidArgument(NO_TARGET)
    else
      match d.cmdType
      case MOVE_C =>
        if d.extraTarget.None? then InvalidArgument(NO_SECOND)
        else Message(blank.(target := d.target.value.ToRapid(), extraTarget := d.extraTarget.value.ToRapid()))
      case MOVE_ABS_J =>
        if d.jointTarget.None? then InvalidArgument(NO_JOINTS)
        else Message(blank.(jointTarget := d.jointTarget.value.ToRapid()))
      case SET_SPEED =>
        if SpeedFits(d.speed) then Message(blank.(speed := TruncatedSpeed(d.speed))) else Undefined
      case SET_ZONE => Message(blank.(zone := d.zone.Id()))
      case _ =>
        if d.cmdType.NeedsTarget() then Message(blank.(target := d.target.value.ToRapid())) else Message(blank)
  }

  /** create_rapid_request: fills a zeroed struct step by step. */
  method CreateRapidRequest(d: DecodedRequest) returns (r: Packed)
    requires d.Valid()
    ensures r == Request(d)
  {
    var msg := ZEROED;
    msg := msg.(commandId := d.cmdType.Id());
    if d.cmdType == UNKNOWN {
      return Message(msg);
    }
    if d.cmdType == MOVE_L || d.cmdType == MOVE_J || d.cmdType == MOVE_C
       || d.cmdType == MOVE_L_OFFS || d.cmdType == MOVE_J_OFFS {
      if d.target.Some? {
        msg := msg.(target := d.target.value.ToRapid());
      } else {
        return InvalidArgument(NO_TARGET);
      }
    }
    if d.cmdType == MOVE_C {
      if d.extraTarget.Some? {
        msg := msg.(extraTarget := d.extraTarget.value.ToRapid());
      } else {
        return InvalidArgument(NO_SECOND);
      }
    }
    if d.cmdType == MOVE_ABS_J {
      if d.jointTarget.None? {
        return InvalidArgument(NO_JOINTS);
      }
      msg := msg.(jointTarget := d.jointTarget.value.ToRapid());
    }
    if d.cmdType == SET_SPEED {
      if !SpeedFits(d.speed) {
        return Undefined;
      }
      msg := msg.(speed := TruncatedSpeed(d.speed));
    }
    if d.cmdType == SET_ZONE {
      msg := msg.(zone := d.zone.Id());
    }
    return Message(msg);
  }

  /** What a client is told when a message cannot be packed: the first of the fields that is missing. */
  lemma MissingFieldNamed(d: DecodedRequest)
    requires d.Valid()
    ensures
      var moves := d.cmdType in [MOVE_L, MOVE_J, MOVE_C, MOVE_L_OFFS, MOVE_J_OFFS];
      Request(d) ==
      if moves && d.target.None? then InvalidArgument("MoveL, MoveJ, and MoveC commands require target data.")
      else if d.cmdType == MOVE_C && d.extraTarget.None? then
        InvalidArgument("MoveC command requires a second target.")
      else if d.cmdType == MOVE_ABS_J && d.jointTarget.None? then
        InvalidArgument("MoveAbsJ command requires joint data.")
      else if d.cmdType == SET_SPEED && !(-1.0 < d.speed < 65536.0) then Undefined
      else Request(d)
    ensures Request(d).Message? ==> Request(d).msg.commandId == d.cmdType.Id()
  {
    hide RobTargetBridge.ToRapid, JointTargetBridge.ToRapid;
  }

  /** The ids on the wire. */
  lemma WireIds()
    ensures [MOVE_L.Id(), MOVE_J.Id(), MOVE_C.Id(), MOVE_ABS_J.Id(), SET_SPEED.Id(), SET_ZONE.Id(),
             EXIT.Id(), PING.Id(), PINGR.Id(), ZERO.Id(), GETSTATUS.Id(), CHECK_TASK.Id(), LOGIN.Id(),
             LOGOUT.Id(), ACQUIRE.Id(), RELEASE.Id(), MOVE_L_OFFS.Id(), MOVE_J_OFFS.Id()]
         == [0, 1, 2, 3, 4, 5, 6, 7, 8, 9, 10, 11, 12, 13, 14, 15, 16, 17]
    ensures UNKNOWN.Id() == 255
    ensures [FINE.Id(), Z1.Id(), Z5.Id(), Z10.Id(), Z15.Id(), Z20.Id(), Z30.Id()] == [0, 1, 2, 3, 4, 5, 6]
  {
  }
}
