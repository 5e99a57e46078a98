/**
 * The controller's parser: robert-rapid/ParsingModule.mod with the tables of ValueModule.mod.
 * Buffer indices count from 1, as in RAPID.
 */
module RapidParsing {
  import opened Bytes
  import opened RobotData

  datatype ZoneData = fine | z0 | z1 | z5 | z10 | z15 | z20 | z30

  /** A call of ExecuteAction with the optional arguments it is given. */
  datatype Action = Action(
    cmd: string,
    target: Option<RobTarget>,
    extra: Option<RobTarget>,
    joints: Option<JointTarget>,
    speed: Option<nat>,
    zone: Option<ZoneData>)

  datatype Outcome =
    | Ignored             // too short: no action and no answer
    | PastEnd             // a field lies beyond the received bytes
    | NoZone(id: byte)    // value_to_zone has no result for this id
    | Execute(action: Action)

  function CommandToString(cmd: byte): string {
    if cmd == 0x00 then "MoveL"
    else if cmd == 0x01 then "MoveJ"
    else if cmd == 0x02 then "MoveC"
    else if cmd == 0x03 then "MoveAbsJ"
    else if cmd == 0x04 then "SetSpeed"
    else if cmd == 0x05 then "SetZone"
    else if cmd == 0x06 then "Exit"
    else if cmd == 0x07 then "PING"
    else if cmd == 0x08 then "PINGR"
    else if cmd == 0x09 then "ZERO"
    else if cmd == 0x0A then "GETSTATUS"
    else if cmd == 0x10 then "MoveLOffs"
    else if cmd == 0x11 then "MoveJOffs"
    else "UNKNOWN"
  }

  function ValueToZone(zone: nat): Option<ZoneData> {
    if zone == 0 then Some(fine)
    else if zone == 1 then Some(z0)
    else if zone == 2 then Some(z1)
    else if zone == 3 then Some(z5)
    else if zone == 4 then Some(z10)
    else if zone == 5 then Some(z15)
    else if zone == 6 then Some(z20)
    else if zone == 7 then Some(z30)
    else None
  }

  function ZoneToValue(zone: ZoneData): nat {
    match zone
    case fine => 0 case z0 => 1 case z1 => 2 case z5 => 3 case z10 => 4 case z15 => 5 case z20 => 6 case z30 => 7
  }

  lemma ZoneTablesInverse(zone: ZoneData, id: nat)
    ensures ValueToZone(ZoneToValue(zone)) == Some(zone)
    ensures ValueToZone(id).Some? ==> ZoneToValue(ValueToZone(id).value) == id
  {
  }

  predicate IsMoveCommand(cmd: string) {
    cmd == "MoveJ" || cmd == "MoveAbsJ" || cmd == "MoveC" || cmd == "MoveL" || cmd == "MoveLOffs" || cmd == "MoveJOffs"
  }

  predicate IsSingleTarget(cmd: string) {
    cmd == "MoveJ" || cmd == "MoveL" || cmd == "MoveLOffs" || cmd == "MoveJOffs"
  }

  // ----- UnpackRawBytes -----

  function Usint(raw: seq<byte>, i: nat): byte
    requires 1 <= i <= |raw|
  {
    raw[i - 1]
  }

  function Uint(raw: seq<byte>, i: nat): u16
    requires 1 <= i && i + 1 <= |raw|
  {
    HalfAt(raw, i - 1)
  }

  function Float4(raw: seq<byte>, i: nat): Float
    requires 1 <= i && i + 3 <= |raw|
  {
    WordAt(raw, i - 1)
  }

  function Udint(raw: seq<byte>, i: nat): u32
    requires 1 <= i && i + 3 <= |raw|
  {
    WordAt(raw, i - 1)
  }

  function Dint(raw: seq<byte>, i: nat): i32
    requires 1 <= i && i + 3 <= |raw|
  {
    Signed(WordAt(raw, i - 1))
  }

  function FirstTarget(raw: seq<byte>): RobTarget
    requires |raw| >= 72
  {
    RobTarget(Float4(raw, 5), Float4(raw, 9), Float4(raw, 13),
              Float4(raw, 17), Float4(raw, 21), Float4(raw, 25), Float4(raw, 29),
              Dint(raw, 33), Dint(raw, 37), Dint(raw, 41), Udint(raw, 45),
              Float4(raw, 49), Float4(raw, 53), Float4(raw, 57), Float4(raw, 61), Float4(raw, 65), Float4(raw, 69))
  }

  function SecondTarget(raw: seq<byte>): RobTarget
    requires |raw| >= 140
  {
    RobTarget(Float4(raw, 73), Float4(raw, 77), Float4(raw, 81),
              Float4(raw, 85), Float4(raw, 89), Float4(raw, 93), Float4(raw, 97),
              Dint(raw, 101), Dint(raw, 105), Dint(raw, 109), Udint(raw, 113),
              Float4(raw, 117), Float4(raw, 121), Float4(raw, 125),
              Float4(raw, 129), Float4(raw, 133), Float4(raw, 137))
  }

  function Joints(raw: seq<byte>): JointTarget
    requires |raw| >= 188
  {
    JointTarget(Float4(raw, 141), Float4(raw, 145), Float4(raw, 149),
                Float4(raw, 153), Float4(raw, 157), Float4(raw, 161),
                Float4(raw, 165), Float4(raw, 169), Float4(raw, 173),
                Float4(raw, 177), Float4(raw, 181), Float4(raw, 185))
  }

  function Plain(cmd: string): Action {
    Action(cmd, None, None, None, None, None)
  }

  /** The action a received message stands for. */
  function Parse(raw: seq<byte>): Outcome {
    if |raw| < 4 then Ignored
    else
      var cmd := CommandToString(Usint(raw, 1));
      if cmd == "SetZone" then
        var zone := ValueToZone(Usint(raw, 2));
        if zone.None? then NoZone(Usint(raw, 2)) else Execute(Plain(cmd).(zone := zone))
      else if cmd == "SetSpeed" then Execute(Plain(cmd).(speed := Some(Uint(raw, 3))))
      else if !IsMoveCommand(cmd) then Execute(Plain(cmd))
      else if IsSingleTarget(cmd) then
        if |raw| < 72 then PastEnd else Execute(Plain(cmd).(target := Some(FirstTarget(raw))))
      else if cmd == "MoveC" then
        if |raw| < 140 then PastEnd
        else Execute(Plain(cmd).(target := Some(FirstTarget(raw)), extra := Some(SecondTarget(raw))))
      else if |raw| < 188 then PastEnd
      else Execute(Plain(cmd).(joints := Some(Joints(raw))))
  }

  /** The module variables of the parser, kept from one message to the next. */
  class Parser {
    var commandId: byte
    var commandStr: string
    var parsedTarget: RobTarget
    var parsedTarget2: RobTarget
    var parsedJointTarget: JointTarget
    var speed: nat
    var zoneId: byte

    constructor ()
    {
      commandId, commandStr, speed, zoneId := 0, "", 0, 0;
      parsedTarget, parsedTarget2, parsedJointTarget := ZERO_TARGET, ZERO_TARGET, ZERO_JOINTS;
    }

    /** parse_message: nothing left over from earlier messages reaches the action. */
    method ParseMessage(raw: seq<byte>) returns (r: Outcome)
      modifies this
      ensures r == Parse(raw)
      ensures |raw| < 4 ==> commandId == old(commandId) && commandStr == old(commandStr)
      ensures |raw| >= 4 ==> commandId == raw[0] && commandStr == CommandToString(raw[0])
      ensures var moves := |raw| >= 72 && IsMoveCommand(CommandToString(raw[0]));
              && parsedTarget == (if moves then FirstTarget(raw) else old(parsedTarget))
              && parsedTarget2 == (if moves && |raw| >= 140 && !IsSingleTarget(commandStr)
                                   then SecondTarget(raw) else old(parsedTarget2))
              && parsedJointTarget == (if moves && |raw| >= 188 && commandStr == "MoveAbsJ"
                                       then Joints(raw) else old(parsedJointTarget))
    {
      if |raw| < 4 {
        return Ignored;
      }
      commandId := Usint(raw, 1);
      commandStr := CommandToString(commandId);
      if commandStr == "GETSTATUS" {
        return Execute(Plain(commandStr));
      }
      if commandStr == "SetZone" {
        zoneId := Usint(raw, 2);
        var zone := ValueToZone(zoneId);
        if zone.None? {
          return NoZone(zoneId);
        }
        return Execute(Plain(commandStr).(zone := zone));
      }
      if commandStr == "SetSpeed" {
        speed := Uint(raw, 3);
        return Execute(Plain(commandStr).(speed := Some(speed)));
      }
      if !IsMoveCommand(commandStr) {
        return Execute(Plain(commandStr));
      }
      if |raw| < 72 {
        return PastEnd;
      }
      parsedTarget := FirstTarget(raw);
      if IsSingleTarget(commandStr) {
        return Execute(Plain(commandStr).(target := Some(parsedTarget)));
      }
      if |raw| < 140 {
        return PastEnd;
      }
      parsedTarget2 := SecondTarget(raw);
      if commandStr == "MoveC" {
        return Execute(Plain(commandStr).(target := Some(parsedTarget), extra := Some(parsedTarget2)));
      }
      if |raw| < 188 {
        return PastEnd;
      }
      parsedJointTarget := Joints(raw);
      return Execute(Plain(commandStr).(joints := Some(parsedJointTarget)));
    }
  }
}
