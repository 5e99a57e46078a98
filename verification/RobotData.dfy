/**
 * Robot targets on their way from a client message to the wire (src/core/data.cpp,
 * src/core/data.hpp). Floats are 32-bit patterns.
 */
module RobotData {
  import opened Bytes

  /** A position with orientation, arm configuration and external axes, field by field. */
  datatype RobTarget = RobTarget(
    x: Float, y: Float, z: Float,
    q1: Float, q2: Float, q3: Float, q4: Float,
    cf1: i32, cf4: i32, cf6: i32, cfx: u32,
    eaxA: Float, eaxB: Float, eaxC: Float, eaxD: Float, eaxE: Float, eaxF: Float)

  datatype JointTarget = JointTarget(
    rax1: Float, rax2: Float, rax3: Float, rax4: Float, rax5: Float, rax6: Float,
    eaxA: Float, eaxB: Float, eaxC: Float, eaxD: Float, eaxE: Float, eaxF: Float)

  const ZERO_TARGET := RobTarget(0, 0, 0, 0, 0, 0, 0, 0, 0, 0, 0, 0, 0, 0, 0, 0, 0)
  const ZERO_JOINTS := JointTarget(0, 0, 0, 0, 0, 0, 0, 0, 0, 0, 0, 0)

  // ----- the bridge classes: arrays of floats, and cfx kept as a signed int -----

  datatype RobTargetBridge = RobTargetBridge(
    position: seq<Float>, orientation: seq<Float>, config: seq<i32>, extJoint: seq<Float>)
  {
    ghost predicate Valid() {
      |position| == 3 && |orientation| == 4 && |config| == 4 && |extJoint| == 6
    }

    function ToRapid(): RobTarget
      requires Valid()
    {
      RobTarget(position[0], position[1], position[2],
                orientation[0], orientation[1], orientation[2], orientation[3],
                config[0], config[1], config[2], Unsigned(config[3]),
                extJoint[0], extJoint[1], extJoint[2], extJoint[3], extJoint[4], extJoint[5])
    }
  }

  datatype JointTargetBridge = JointTargetBridge(joints: seq<Float>, extJoints: seq<Float>) {
    ghost predicate Valid() {
      |joints| == 6 && |extJoints| == 6
    }

    function ToRapid(): JointTarget
      requires Valid()
    {
      JointTarget(joints[0], joints[1], joints[2], joints[3], joints[4], joints[5],
                  extJoints[0], extJoints[1], extJoints[2], extJoints[3], extJoints[4], extJoints[5])
    }
  }

  /** translate_robtarget and translate_jointtarget: from a client message to a bridge. */
  function TranslateTarget(t: RobTarget): (b: RobTargetBridge)
    ensures b.Valid()
  {
    RobTargetBridge([t.x, t.y, t.z], [t.q1, t.q2, t.q3, t.q4], [t.cf1, t.cf4, t.cf6, Signed(t.cfx)],
                    [t.eaxA, t.eaxB, t.eaxC, t.eaxD, t.eaxE, t.eaxF])
  }

  function TranslateJoints(t: JointTarget): (b: JointTargetBridge)
    ensures b.Valid()
  {
    JointTargetBridge([t.rax1, t.rax2, t.rax3, t.rax4, t.rax5, t.rax6],
                      [t.eaxA, t.eaxB, t.eaxC, t.eaxD, t.eaxE, t.eaxF])
  }

  /**
   * The way through the bridge loses nothing: every bit pattern survives, and so does every
   * unsigned cfx although it is kept as a signed int in between.
   */
  lemma BridgeRoundTrip(t: RobTarget, j: JointTarget)
    ensures TranslateTarget(t).ToRapid() == t
    ensures TranslateJoints(j).ToRapid() == j
  {
  }

  // ----- the packed structs as words, in declaration order -----

  function TargetWords(t: RobTarget): (ws: seq<u32>)
    ensures |ws| == 17
  {
    [t.x, t.y, t.z, t.q1, t.q2, t.q3, t.q4,
     Unsigned(t.cf1), Unsigned(t.cf4), Unsigned(t.cf6), t.cfx,
     t.eaxA, t.eaxB, t.eaxC, t.eaxD, t.eaxE, t.eaxF]
  }

  function JointWords(j: JointTarget): (ws: seq<u32>)
    ensures |ws| == 12
  {
    [j.rax1, j.rax2, j.rax3, j.rax4, j.rax5, j.rax6, j.eaxA, j.eaxB, j.eaxC, j.eaxD, j.eaxE, j.eaxF]
  }
}
