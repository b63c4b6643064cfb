/**
 * The driver's data model: configuration, the values the monitor records,
 * the TCP connection (as a log of written lines) and the arm object itself.
 */
module ArmState {
  import opened Wrappers
  import opened EkiCommands

  const NumJoints: nat := 6
  const NumExternalJoints: nat := 6
  const DefaultTcpPort: int := 54610
  /** The arm models for which a URDF file ships with the driver. */
  const SupportedModels: seq<string> := ["KR10r900"]

  /** The user-facing configuration attributes. */
  datatype Config = Config(ipAddress: string, port: int, model: string, safeMode: bool)

  /** Identity strings reported by the controller. */
  datatype DeviceInfo = DeviceInfo(
    name: string, serialNum: string, robotType: string,
    softwareVersion: string, operatingMode: string)

  /** One joint's limits, in degrees. */
  datatype Limit = Limit(min: real, max: real)

  /** End-effector position and Euler orientation. */
  datatype Pose = Pose(x: real, y: real, z: real, yaw: real, pitch: real, roll: real)

  /**
   * The floating-point library the driver calls: `strconv.ParseFloat`
   * (None for its error), `%v` formatting of a float64, and `utils.RadToDeg`.
   * They are left uninterpreted: every contract holds for any such functions.
   */
  datatype Floats = Floats(
    parse: string -> Option<real>,
    format: real -> string,
    radToDeg: real -> real)

  /**
   * Everything the response monitor reads or writes: the device info, the
   * current state, and the values in the response channel that no caller has
   * received yet, oldest first.
   */
  datatype Snapshot = Snapshot(
    info: DeviceInfo,
    pose: Option<Pose>,
    joints: Option<seq<real>>,
    limits: seq<Limit>,
    isMoving: bool,
    programState: ProgramStatus,
    programName: string,
    channel: seq<bool>)

  /** The errors the arm's operations return. */
  datatype ArmError =
    | JointOutOfRange(joint: nat, value: real, limit: Limit)
    | StillMoving
    | ProgramNotRunning(status: ProgramStatus)
    | Closed
    | WriteFailed

  /** The errors of configuration handling. */
  datatype ConfigError =
    | MissingIpAddress
    | UnsupportedModel(model: string)
    | UrdfLoadFailed(model: string)

  /** The monitored state together with the connection's log of delivered lines and write count. */
  datatype World = World(snap: Snapshot, sent: seq<string>, attempts: nat)

  /**
   * The TCP connection. A write either delivers its line whole or fails; which
   * write attempts fail is fixed by the peer, given here as the set `failing`
   * of attempt numbers.
   */
  class TcpConn {
    var ipAddress: string
    var port: int
    /** Every line delivered to the controller, in order. */
    var sent: seq<string>
    /** How many writes have been attempted. */
    var attempts: nat
    const failing: set<nat>

    constructor (failing: set<nat>)
      ensures this.failing == failing
      ensures ipAddress == "" && port == 0 && sent == [] && attempts == 0
    {
      this.failing := failing;
      ipAddress, port, sent, attempts := "", 0, [], 0;
    }

    /** Writes one line; the error path delivers nothing. */
    method Write(line: string) returns (ok: bool)
      modifies this
      ensures ok <==> old(attempts) !in failing
      ensures sent == if ok then old(sent) + [line] else old(sent)
      ensures attempts == old(attempts) + 1
      ensures ipAddress == old(ipAddress) && port == old(port)
    {
      ok := attempts !in failing;
      if ok {
        sent := sent + [line];
      }
      attempts := attempts + 1;
    }
  }

  /** The arm: device info, current state, flags and the connection. */
  class KukaArm {
    var deviceInfo: DeviceInfo
    var endEffectorPose: Option<Pose>
    var joints: Option<seq<real>>
    var jointLimits: array<Limit>
    var isMoving: bool
    var programState: ProgramStatus
    var programName: string
    var closed: bool
    var safeMode: bool
    const tcpConn: TcpConn
    /** The values pushed on `responseCh` and not yet received, oldest first. */
    var responseCh: seq<bool>

    ghost predicate Valid()
      reads this
    {
      jointLimits.Length == NumJoints
    }

    ghost function Snap(): Snapshot
      reads this, jointLimits
    {
      Snapshot(deviceInfo, endEffectorPose, joints, jointLimits[..], isMoving,
               programState, programName, responseCh)
    }

    ghost function View(): World
      reads this, jointLimits, tcpConn
    {
      World(Snap(), tcpConn.sent, tcpConn.attempts)
    }

    /**
     * A new arm as `Reconfigure` leaves it right after resetting the state:
     * empty device info, six zero limits, program status unknown.
     */
    constructor (conn: TcpConn)
      ensures Valid() && fresh(jointLimits)
      ensures tcpConn == conn && !closed && !safeMode
      ensures Snap() == Snapshot(DeviceInfo("", "", "", "", ""), None, None,
                                 seq(NumJoints, _ => Limit(0.0, 0.0)), false,
                                 StatusUnknown, "", [])
    {
      deviceInfo := DeviceInfo("", "", "", "", "");
      endEffectorPose, joints := None, None;
      jointLimits := new Limit[NumJoints](_ => Limit(0.0, 0.0));
      isMoving := false;
      programState, programName := StatusUnknown, "";
      closed, safeMode := false, false;
      tcpConn := conn;
      responseCh := [];
    }
  }
}
