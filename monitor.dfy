/**
 * The response monitor: it splits each raw reply into a command token and
 * arguments, runs the "success" short-circuit, and dispatches the rest to
 * one handler per command. `Apply` is the transition function on snapshots;
 * each handler method is proved to perform exactly its part of it.
 */
module Monitor {
  import opened Wrappers
  import opened Strings
  import opened EkiCommands
  import opened ArmState

  /** A reply split into its leading token and its arguments. */
  datatype Reply = Reply(command: string, args: seq<string>)

  /** Drops the terminator byte and splits the rest on commas. */
  function Decode(raw: string): (r: Reply)
    requires |raw| >= 1
    ensures ',' !in r.command
    ensures forall a :: a in r.args ==> ',' !in a
    ensures Join([r.command] + r.args, ',') == raw[..|raw| - 1]
  {
    var parts := Split(raw[..|raw| - 1], ',');
    assert parts[0] in parts;
    assert forall a :: a in parts[1..] ==> a in parts;
    assert [parts[0]] + parts[1..] == parts;
    Reply(parts[0], parts[1..])
  }

  /**
   * Parses `data[0..n]` with `parse`, failing as a whole when any one of them
   * fails to parse.
   */
  function ParseFirst(parse: string -> Option<real>, data: seq<string>, n: nat): (r: Option<seq<real>>)
    requires n <= |data|
    ensures r.Some? <==> forall k :: 0 <= k < n ==> parse(data[k]).Some?
    ensures r.Some? ==> |r.value| == n && forall k :: 0 <= k < n ==> r.value[k] == parse(data[k]).value
    decreases n
  {
    if n == 0 then Some([])
    else
      match ParseFirst(parse, data, n - 1)
      case None => None
      case Some(front) =>
        match parse(data[n - 1])
        case None => None
        case Some(v) => Some(front + [v])
  }

  /** The five identity fields, one per identity handler. */
  datatype InfoField = RobotName | SerialNum | RobotType | SoftwareVersion | OperatingMode

  function InfoOf(info: DeviceInfo, field: InfoField): string
  {
    match field
    case RobotName => info.name
    case SerialNum => info.serialNum
    case RobotType => info.robotType
    case SoftwareVersion => info.softwareVersion
    case OperatingMode => info.operatingMode
  }

  /** The device info with exactly `field` replaced by `v`. */
  function WithInfo(info: DeviceInfo, field: InfoField, v: string): (r: DeviceInfo)
    ensures InfoOf(r, field) == v
    ensures forall other :: other != field ==> InfoOf(r, other) == InfoOf(info, other)
  {
    match field
    case RobotName => info.(name := v)
    case SerialNum => info.(serialNum := v)
    case RobotType => info.(robotType := v)
    case SoftwareVersion => info.(softwareVersion := v)
    case OperatingMode => info.(operatingMode := v)
  }

  /** The limits with the first `|mins|` lower bounds replaced. */
  function WithMins(limits: seq<Limit>, mins: seq<real>): (r: seq<Limit>)
  {
    seq(|limits|, i requires 0 <= i < |limits| =>
      if i < |mins| then limits[i].(min := mins[i]) else limits[i])
  }

  /** The limits with the first `|maxs|` upper bounds replaced. */
  function WithMaxs(limits: seq<Limit>, maxs: seq<real>): (r: seq<Limit>)
  {
    seq(|limits|, i requires 0 <= i < |limits| =>
      if i < |maxs| then limits[i].(max := maxs[i]) else limits[i])
  }

  /** The pose built from x, y, z and three angles converted with RadToDeg. */
  function PoseOf(floats: Floats, v: seq<real>): Pose
    requires |v| == 6
  {
    Pose(v[0], v[1], v[2], floats.radToDeg(v[3]), floats.radToDeg(v[4]), floats.radToDeg(v[5]))
  }

  // One transition per handler.

  function SuccessReply(s: Snapshot): Snapshot
  {
    s.(isMoving := false, channel := if s.isMoving then s.channel + [true] else s.channel)
  }

  function InfoReply(s: Snapshot, field: InfoField, data: seq<string>): Snapshot
  {
    if |data| != 1 then s else s.(info := WithInfo(s.info, field, data[0]))
  }

  function MinLimitsReply(parse: string -> Option<real>, s: Snapshot, data: seq<string>): Snapshot
  {
    if |data| != NumJoints + NumExternalJoints then s
    else match ParseFirst(parse, data, NumJoints)
      case None => s
      case Some(mins) => s.(limits := WithMins(s.limits, mins))
  }

  function MaxLimitsReply(parse: string -> Option<real>, s: Snapshot, data: seq<string>): Snapshot
  {
    if |data| != NumJoints + NumExternalJoints then s
    else match ParseFirst(parse, data, NumJoints)
      case None => s
      case Some(maxs) => s.(limits := WithMaxs(s.limits, maxs))
  }

  function JointsReply(parse: string -> Option<real>, s: Snapshot, data: seq<string>): Snapshot
  {
    if |data| != NumJoints + NumExternalJoints then s
    else match ParseFirst(parse, data, NumJoints)
      case None => s
      case Some(joints) => s.(joints := Some(joints))
  }

  function EndPoseReply(floats: Floats, s: Snapshot, data: seq<string>): Snapshot
  {
    if |data| != 8 + NumExternalJoints then s
    else match ParseFirst(floats.parse, data, NumJoints)
      case None => s
      case Some(v) => s.(pose := Some(PoseOf(floats, v)))
  }

  function ProgramReply(s: Snapshot, data: seq<string>): Snapshot
  {
    if |data| != 2 then s
    else s.(programName := data[0], programState := StringToProgramStatus(data[1]),
            channel := s.channel + [false])
  }

  /**
   * The effect of one reply on the monitored state: it never starts a motion,
   * keeps the number of joint limits, and pushes at most one value on the
   * channel. During a move, a push clears the flag exactly when it is `true`;
   * outside a move, only `false` is ever pushed.
   */
  function Apply(floats: Floats, s: Snapshot, command: string, args: seq<string>): (r: Snapshot)
    ensures r.isMoving ==> s.isMoving
    ensures |r.limits| == |s.limits|
    ensures s.channel <= r.channel && |r.channel| <= |s.channel| + 1
    ensures s.isMoving && |r.channel| == |s.channel| ==> r.isMoving
    ensures s.isMoving && |r.channel| > |s.channel| ==> (r.channel[|r.channel| - 1] <==> !r.isMoving)
    ensures !s.isMoving && |r.channel| > |s.channel| ==> !r.channel[|r.channel| - 1]
    ensures !s.isMoving && |r.channel| > |s.channel| ==>
      command == GetEkiProgramState && |args| == 2 && args[0] != "success"
      && r.programState == StringToProgramStatus(args[1])
  {
    if |args| > 0 && args[0] == "success" then SuccessReply(s)
    else if command == GetRobotName then InfoReply(s, RobotName, args)
    else if command == GetRobotSerialNum then InfoReply(s, SerialNum, args)
    else if command == GetRobotType then InfoReply(s, RobotType, args)
    else if command == GetRobotSoftwareVersion then InfoReply(s, SoftwareVersion, args)
    else if command == GetRobotOperatingMode then InfoReply(s, OperatingMode, args)
    else if command == GetEkiProgramState then ProgramReply(s, args)
    else if command == GetJointPosition then JointsReply(floats.parse, s, args)
    else if command == GetEndPosition then EndPoseReply(floats, s, args)
    else if command == GetJointNegLimit then MinLimitsReply(floats.parse, s, args)
    else if command == GetJointPosLimit then MaxLimitsReply(floats.parse, s, args)
    else s  // the move acknowledgement and unknown tokens change nothing
  }

  /** What the monitor reads, one entry per read: None for a read timeout or a read error. */
  ghost predicate WellFormedReads(inputs: seq<Option<string>>)
  {
    forall k :: 0 <= k < |inputs| && inputs[k].Some? ==> |inputs[k].value| >= 1
  }

  /**
   * A read that answers the program-state query: a two-field `getprograminfo`
   * reply, not short-circuited by `success`, reporting `status`.
   */
  ghost predicate AnswersProgramQuery(input: Option<string>, status: ProgramStatus)
  {
    && input.Some? && |input.value| >= 1
    && var reply := Decode(input.value);
    && reply.command == GetEkiProgramState && |reply.args| == 2 && reply.args[0] != "success"
    && StringToProgramStatus(reply.args[1]) == status
  }

  /** The state after the monitor has handled every read in order. */
  function Replay(floats: Floats, s: Snapshot, inputs: seq<Option<string>>): (r: Snapshot)
    requires WellFormedReads(inputs)
    ensures r.isMoving ==> s.isMoving
    ensures |r.limits| == |s.limits|
    ensures s.channel <= r.channel
    decreases |inputs|
  {
    if inputs == [] then s
    else
      Step(floats, Replay(floats, s, inputs[..|inputs| - 1]), inputs[|inputs| - 1])
  }

  /** One pass of the monitor loop: a timed-out or failed read changes nothing. */
  function Step(floats: Floats, s: Snapshot, input: Option<string>): (r: Snapshot)
    requires input.Some? ==> |input.value| >= 1
    ensures r.isMoving ==> s.isMoving
    ensures |r.limits| == |s.limits|
    ensures s.channel <= r.channel && |r.channel| <= |s.channel| + 1
    ensures s.isMoving && |r.channel| == |s.channel| ==> r.isMoving
    ensures s.isMoving && |r.channel| > |s.channel| ==> (r.channel[|r.channel| - 1] <==> !r.isMoving)
    ensures !s.isMoving && |r.channel| > |s.channel| ==> !r.channel[|r.channel| - 1]
    ensures !s.isMoving && |r.channel| > |s.channel| ==> AnswersProgramQuery(input, r.programState)
  {
    match input
    case None => s
    case Some(raw) =>
      var reply := Decode(raw);
      Apply(floats, s, reply.command, reply.args)
  }

  /**
   * A caller receiving from the response channel while the monitor handles
   * `inputs`: a value already in the channel is taken at once; otherwise the
   * monitor handles reads until one of them pushes a value, which is taken.
   * Gives the state after the receive and the value received, or None when
   * the reads run out first. A closed arm's monitor has stopped, so only a
   * value already in the channel can arrive.
   */
  function Await(floats: Floats, closed: bool, s: Snapshot, inputs: seq<Option<string>>): (r: (Snapshot, Option<bool>))
    requires WellFormedReads(inputs)
    ensures s.channel != [] ==> r == (s.(channel := s.channel[1..]), Some(s.channel[0]))
    ensures s.channel == [] ==> r.0.channel == []
    ensures s.channel == [] && closed ==> r == (s, None)
    ensures r.0.isMoving ==> s.isMoving
    ensures |r.0.limits| == |s.limits|
    ensures s.channel == [] && s.isMoving && r.1.None? ==> r.0.isMoving
    ensures s.channel == [] && s.isMoving && r.1.Some? ==> (r.1.value <==> !r.0.isMoving)
    ensures s.channel == [] && !s.isMoving ==> r.1 != Some(true)
    decreases |inputs|
  {
    if s.channel != [] then (s.(channel := s.channel[1..]), Some(s.channel[0]))
    else if closed || inputs == [] then (s, None)
    else
      WellFormedTail(inputs);
      Await(floats, closed, Step(floats, s, inputs[0]), inputs[1..])
  }

  /**
   * A receive that starts from an empty channel while no move is in progress
   * can only be answered by the `false` of a program-state reply among the
   * reads, and the status recorded afterwards is the one that reply reported.
   */
  lemma {:induction false} QueryAnsweredByProgramReply(floats: Floats, closed: bool, s: Snapshot,
                                                       inputs: seq<Option<string>>)
    requires WellFormedReads(inputs)
    ensures var r := Await(floats, closed, s, inputs);
      s.channel == [] && !s.isMoving && r.1.Some? ==>
        r.1 == Some(false)
        && exists k :: 0 <= k < |inputs| && AnswersProgramQuery(inputs[k], r.0.programState)
    decreases |inputs|
  {
    if s.channel == [] && !s.isMoving && !closed && inputs != [] {
      WellFormedTail(inputs);
      var t := Step(floats, s, inputs[0]);
      if t.channel == [] {
        QueryAnsweredByProgramReply(floats, closed, t, inputs[1..]);
        var r := Await(floats, closed, t, inputs[1..]);
        if r.1.Some? {
          var k :| 0 <= k < |inputs[1..]| && AnswersProgramQuery(inputs[1..][k], r.0.programState);
          assert inputs[1..][k] == inputs[k + 1];
        }
      } else {
        assert AnswersProgramQuery(inputs[0], t.programState);
      }
    }
  }

  /** Dropping the first read keeps the reads well formed. */
  lemma WellFormedTail(inputs: seq<Option<string>>)
    requires WellFormedReads(inputs) && inputs != []
    ensures WellFormedReads(inputs[1..])
  {
    forall k | 0 <= k < |inputs[1..]| && inputs[1..][k].Some? ensures |inputs[1..][k].value| >= 1 {
      assert inputs[1..][k] == inputs[k + 1];
    }
  }

  /** Handlers leave the connection settings, the flags and the limits array itself alone. */
  twostate predicate SettingsUnchanged(arm: KukaArm)
    reads arm
  {
    arm.jointLimits == old(arm.jointLimits) && arm.closed == old(arm.closed)
    && arm.safeMode == old(arm.safeMode)
  }

  // The handlers.

  /** `handleRobotName` and its four siblings: store the single argument. */
  method HandleDeviceInfo(arm: KukaArm, field: InfoField, data: seq<string>)
    modifies arm
    ensures arm.Snap() == InfoReply(old(arm.Snap()), field, data)
    ensures SettingsUnchanged(arm)
  {
    if |data| != 1 {
      return;
    }
    arm.deviceInfo := WithInfo(arm.deviceInfo, field, data[0]);
  }

  /** Parses the first `NumJoints` arguments into a fresh array, or reports the first failure. */
  method ParseFirstSix(floats: Floats, data: seq<string>) returns (values: Option<seq<real>>)
    requires |data| >= NumJoints
    ensures values == ParseFirst(floats.parse, data, NumJoints)
  {
    var list := new real[NumJoints];
    for i := 0 to NumJoints
      invariant forall k :: 0 <= k < i ==> floats.parse(data[k]) == Some(list[k])
    {
      var v := floats.parse(data[i]);
      if v.None? {
        assert ParseFirst(floats.parse, data, NumJoints).None?;
        return None;
      }
      list[i] := v.value;
    }
    var whole := ParseFirst(floats.parse, data, NumJoints);
    assert whole.Some? && |whole.value| == |list[..]|;
    assert forall k :: 0 <= k < NumJoints ==> whole.value[k] == list[..][k];
    assert whole.value == list[..];
    values := Some(list[..]);
    assert values == whole;
  }

  method HandleMinJointPositions(arm: KukaArm, floats: Floats, data: seq<string>)
    requires arm.Valid()
    modifies arm.jointLimits
    ensures arm.Snap() == MinLimitsReply(floats.parse, old(arm.Snap()), data)
  {
    if |data| != NumJoints + NumExternalJoints {
      return;
    }
    var parsed := ParseFirstSix(floats, data);
    if parsed.None? {
      return;
    }
    var mins := parsed.value;
    for i := 0 to NumJoints
      invariant arm.jointLimits[..] == WithMins(old(arm.jointLimits[..]), mins[..i])
    {
      arm.jointLimits[i] := arm.jointLimits[i].(min := mins[i]);
    }
    assert mins[..NumJoints] == mins;
  }

  method HandleMaxJointPositions(arm: KukaArm, floats: Floats, data: seq<string>)
    requires arm.Valid()
    modifies arm.jointLimits
    ensures arm.Snap() == MaxLimitsReply(floats.parse, old(arm.Snap()), data)
  {
    if |data| != NumJoints + NumExternalJoints {
      return;
    }
    var parsed := ParseFirstSix(floats, data);
    if parsed.None? {
      return;
    }
    var maxs := parsed.value;
    for i := 0 to NumJoints
      invariant arm.jointLimits[..] == WithMaxs(old(arm.jointLimits[..]), maxs[..i])
    {
      arm.jointLimits[i] := arm.jointLimits[i].(max := maxs[i]);
    }
    assert maxs[..NumJoints] == maxs;
  }

  method HandleGetJointPositions(arm: KukaArm, floats: Floats, data: seq<string>)
    modifies arm
    ensures arm.Snap() == JointsReply(floats.parse, old(arm.Snap()), data)
    ensures SettingsUnchanged(arm)
  {
    if |data| != NumJoints + NumExternalJoints {
      return;
    }
    var parsed := ParseFirstSix(floats, data);
    if parsed.None? {
      return;
    }
    arm.joints := parsed;
  }

  method HandleGetEndPositions(arm: KukaArm, floats: Floats, data: seq<string>)
    modifies arm
    ensures arm.Snap() == EndPoseReply(floats, old(arm.Snap()), data)
    ensures SettingsUnchanged(arm)
  {
    if |data| != 8 + NumExternalJoints {
      return;
    }
    var parsed := ParseFirstSix(floats, data);
    if parsed.None? {
      return;
    }
    arm.endEffectorPose := Some(PoseOf(floats, parsed.value));
  }

  method HandleProgramState(arm: KukaArm, data: seq<string>)
    modifies arm
    ensures arm.Snap() == ProgramReply(old(arm.Snap()), data)
    ensures SettingsUnchanged(arm)
  {
    if |data| != 2 {
      return;
    }
    arm.programName := data[0];
    arm.programState := StringToProgramStatus(data[1]);
    arm.responseCh := arm.responseCh + [false];
  }

  /** The "success" short-circuit, then dispatch on the command token. */
  method HandleRobotResponses(arm: KukaArm, floats: Floats, command: string, args: seq<string>)
    requires arm.Valid()
    modifies arm, arm.jointLimits
    ensures arm.Valid()
    ensures arm.Snap() == Apply(floats, old(arm.Snap()), command, args)
    ensures SettingsUnchanged(arm)
  {
    if |args| > 0 && args[0] == "success" {
      if arm.isMoving {
        arm.responseCh := arm.responseCh + [true];
      }
      arm.isMoving := false;
      return;
    }
    if command == GetRobotName {
      HandleDeviceInfo(arm, RobotName, args);
    } else if command == GetRobotSerialNum {
      HandleDeviceInfo(arm, SerialNum, args);
    } else if command == GetRobotType {
      HandleDeviceInfo(arm, RobotType, args);
    } else if command == GetRobotSoftwareVersion {
      HandleDeviceInfo(arm, SoftwareVersion, args);
    } else if command == GetRobotOperatingMode {
      HandleDeviceInfo(arm, OperatingMode, args);
    } else if command == GetEkiProgramState {
      HandleProgramState(arm, args);
    } else if command == GetJointPosition {
      HandleGetJointPositions(arm, floats, args);
    } else if command == GetEndPosition {
      HandleGetEndPositions(arm, floats, args);
    } else if command == GetJointNegLimit {
      HandleMinJointPositions(arm, floats, args);
    } else if command == GetJointPosLimit {
      HandleMaxJointPositions(arm, floats, args);
    }
    // SetJointPosition acknowledgements and unknown tokens: nothing to do.
  }

  /**
   * The monitor loop over a finite run of reads; it handles nothing once the
   * arm is closed.
   */
  method ResponseMonitor(arm: KukaArm, floats: Floats, inputs: seq<Option<string>>)
    requires arm.Valid()
    requires WellFormedReads(inputs)
    modifies arm, arm.jointLimits
    ensures arm.Valid()
    ensures arm.Snap() == if old(arm.closed) then old(arm.Snap()) else Replay(floats, old(arm.Snap()), inputs)
    ensures SettingsUnchanged(arm)
  {
    var i := 0;
    while i < |inputs|
      invariant 0 <= i <= |inputs|
      invariant arm.Valid() && SettingsUnchanged(arm)
      invariant arm.Snap() == if arm.closed then old(arm.Snap()) else Replay(floats, old(arm.Snap()), inputs[..i])
    {
      if arm.closed {
        break;
      }
      var data := inputs[i];
      assert inputs[..i + 1][..i] == inputs[..i];
      if data.None? {
        i := i + 1;
        continue;
      }
      var reply := Decode(data.value);
      HandleRobotResponses(arm, floats, reply.command, reply.args);
      i := i + 1;
    }
    assert !arm.closed ==> inputs[..i] == inputs;
  }

  /**
   * `<-responseCh`: takes the oldest value in the channel, letting the monitor
   * handle `inputs` in order while the channel is empty.
   */
  method AwaitSignal(arm: KukaArm, floats: Floats, inputs: seq<Option<string>>) returns (received: Option<bool>)
    requires arm.Valid()
    requires WellFormedReads(inputs)
    modifies arm, arm.jointLimits
    ensures arm.Valid()
    ensures (arm.Snap(), received) == Await(floats, old(arm.closed), old(arm.Snap()), inputs)
    ensures SettingsUnchanged(arm)
  {
    var i := 0;
    while arm.responseCh == [] && i < |inputs| && !arm.closed
      invariant 0 <= i <= |inputs|
      invariant arm.Valid() && SettingsUnchanged(arm)
      invariant WellFormedReads(inputs[i..])
      invariant Await(floats, old(arm.closed), old(arm.Snap()), inputs)
             == Await(floats, arm.closed, arm.Snap(), inputs[i..])
    {
      var data := inputs[i];
      assert inputs[i..][0] == data && inputs[i..][1..] == inputs[i + 1..];
      if data.Some? {
        var reply := Decode(data.value);
        HandleRobotResponses(arm, floats, reply.command, reply.args);
      }
      i := i + 1;
    }
    if arm.responseCh != [] {
      received := Some(arm.responseCh[0]);
      arm.responseCh := arm.responseCh[1..];
    } else {
      received := None;
    }
  }
}

/** What the response monitor promises, stated on its transition function. */
module MonitorProperties {
  import opened Wrappers
  import opened EkiCommands
  import opened ArmState
  import opened Monitor

  /** The command token whose replies the identity handler for `field` takes. */
  function TokenOf(field: InfoField): string
  {
    match field
    case RobotName => GetRobotName
    case SerialNum => GetRobotSerialNum
    case RobotType => GetRobotType
    case SoftwareVersion => GetRobotSoftwareVersion
    case OperatingMode => GetRobotOperatingMode
  }

  /**
   * A reply whose first argument is "success" clears `isMoving` and changes
   * nothing else, whatever its command token; it pushes `true` on the channel
   * only when a move was in progress.
   */
  lemma SuccessShortCircuit(floats: Floats, s: Snapshot, command: string, args: seq<string>)
    requires |args| > 0 && args[0] == "success"
    ensures Apply(floats, s, command, args)
         == s.(isMoving := false, channel := s.channel + (if s.isMoving then [true] else []))
  {
  }

  /**
   * Each identity handler sets exactly its own field to the single argument,
   * and leaves the state alone for any other argument count.
   */
  lemma IdentityReply(floats: Floats, s: Snapshot, field: InfoField, args: seq<string>)
    requires |args| == 0 || args[0] != "success"
    ensures |args| == 1 ==>
      var r := Apply(floats, s, TokenOf(field), args);
      r == s.(info := r.info) && InfoOf(r.info, field) == args[0]
      && forall other :: other != field ==> InfoOf(r.info, other) == InfoOf(s.info, other)
    ensures |args| != 1 ==> Apply(floats, s, TokenOf(field), args) == s
  {
    CommandTokensDistinct();
  }

  /**
   * A limit reply with twelve arguments whose first six all parse replaces the
   * lower bounds (or the upper bounds) with them and nothing else; any other
   * reply leaves every limit as it was.
   */
  lemma LimitReplies(floats: Floats, s: Snapshot, args: seq<string>)
    requires |s.limits| == NumJoints
    requires |args| == 0 || args[0] != "success"
    ensures var good := |args| == 12 && forall k :: 0 <= k < 6 ==> floats.parse(args[k]).Some?;
      var lo := Apply(floats, s, GetJointNegLimit, args);
      var hi := Apply(floats, s, GetJointPosLimit, args);
      && lo == s.(limits := lo.limits) && hi == s.(limits := hi.limits)
      && |lo.limits| == NumJoints && |hi.limits| == NumJoints
      && (forall i :: 0 <= i < NumJoints ==>
            lo.limits[i].max == s.limits[i].max
            && lo.limits[i].min == (if good then floats.parse(args[i]).value else s.limits[i].min))
      && (forall i :: 0 <= i < NumJoints ==>
            hi.limits[i].min == s.limits[i].min
            && hi.limits[i].max == (if good then floats.parse(args[i]).value else s.limits[i].max))
  {
    CommandTokensDistinct();
  }

  /** One unparsable value among the first six leaves every limit unchanged. */
  lemma LimitsAllOrNothing(floats: Floats, s: Snapshot, args: seq<string>, bad: nat)
    requires |args| == 12 && args[0] != "success"
    requires bad < 6 && floats.parse(args[bad]).None?
    ensures Apply(floats, s, GetJointNegLimit, args) == s
    ensures Apply(floats, s, GetJointPosLimit, args) == s
  {
    CommandTokensDistinct();
  }

  /**
   * A joint-position reply replaces the joints with the six parsed values
   * exactly when it has twelve arguments and the first six parse.
   */
  lemma JointsReplyIff(floats: Floats, s: Snapshot, args: seq<string>)
    requires |args| == 0 || args[0] != "success"
    ensures var r := Apply(floats, s, GetJointPosition, args);
      if |args| == 12 && forall k :: 0 <= k < 6 ==> floats.parse(args[k]).Some? then
        r == s.(joints := r.joints) && r.joints.Some? && |r.joints.value| == 6
        && forall k :: 0 <= k < 6 ==> r.joints.value[k] == floats.parse(args[k]).value
      else r == s
  {
    CommandTokensDistinct();
  }

  /**
   * An end-position reply sets the pose from its first six arguments exactly
   * when it has fourteen arguments and those six parse.
   */
  lemma EndPoseReplyIff(floats: Floats, s: Snapshot, args: seq<string>)
    requires |args| == 0 || args[0] != "success"
    ensures var r := Apply(floats, s, GetEndPosition, args);
      if |args| == 14 && forall k :: 0 <= k < 6 ==> floats.parse(args[k]).Some? then
        var v := seq(6, k requires 0 <= k < 6 => floats.parse(args[k]).value);
        r == s.(pose := Some(Pose(v[0], v[1], v[2], floats.radToDeg(v[3]),
                                  floats.radToDeg(v[4]), floats.radToDeg(v[5]))))
      else r == s
  {
    CommandTokensDistinct();
  }

  /**
   * A program-info reply with two arguments records the name and the decoded
   * status and pushes `false`; any other count changes nothing and pushes nothing.
   */
  lemma ProgramReplyIff(floats: Floats, s: Snapshot, args: seq<string>)
    requires |args| == 0 || args[0] != "success"
    ensures var r := Apply(floats, s, GetEkiProgramState, args);
      if |args| == 2 then
        r == s.(programName := args[0], programState := StringToProgramStatus(args[1]),
                channel := s.channel + [false])
      else r == s
  {
    CommandTokensDistinct();
  }

  /** Move acknowledgements and tokens outside the handled set change nothing. */
  lemma AckAndUnknownChangeNothing(floats: Floats, s: Snapshot, command: string, args: seq<string>)
    requires |args| == 0 || args[0] != "success"
    requires command == SetJointPosition || command == SetStop || command !in AllCommands
    ensures Apply(floats, s, command, args) == s
  {
    CommandTokensDistinct();
  }

  /**
   * Over any run of reads, the monitor never sets `isMoving`, never changes the
   * number of joint limits, and only appends to the channel, at most one value per read.
   */
  lemma {:induction false} ReplayFrame(floats: Floats, s: Snapshot, inputs: seq<Option<string>>)
    requires WellFormedReads(inputs)
    ensures var r := Replay(floats, s, inputs);
      && (r.isMoving ==> s.isMoving)
      && |r.limits| == |s.limits|
      && s.channel <= r.channel && |r.channel| <= |s.channel| + |inputs|
    decreases |inputs|
  {
    if inputs != [] {
      var front := inputs[..|inputs| - 1];
      assert WellFormedReads(front) by {
        forall k | 0 <= k < |front| && front[k].Some? ensures |front[k].value| >= 1 {
          assert front[k] == inputs[k];
        }
      }
      ReplayFrame(floats, s, front);
    }
  }

  /** Device info is changed only by replies to the five identity commands. */
  lemma InfoOnlyFromIdentityReplies(floats: Floats, s: Snapshot, command: string, args: seq<string>)
    requires command !in {GetRobotName, GetRobotSerialNum, GetRobotType,
                          GetRobotSoftwareVersion, GetRobotOperatingMode}
    ensures Apply(floats, s, command, args).info == s.info
  {
  }
}
