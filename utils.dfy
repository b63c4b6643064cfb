/**
 * Command encoding and sending, configuration defaults, state reset, the
 * bootstrap and refresh command sequences, the joint-limit check and the
 * program-state query.
 */
module Utils {
  import opened Wrappers
  import opened Strings
  import opened EkiCommands
  import opened ArmState
  import opened Monitor

  // ---------------------------------------------------------------- encoding

  /** The wire line: `name,args;`, or `name;` when there are no arguments. */
  function Encode(name: string, args: string): (line: string)
    ensures |line| > |name| && line[..|name|] == name
    ensures line[|line| - 1] == ';'
  {
    if args != "" then name + "," + args + ";" else name + ";"
  }

  /** The characters of a line before its first ',' or ';'. */
  function LeadingToken(line: string): (token: string)
    ensures |token| <= |line| && token == line[..|token|]
    ensures ',' !in token && ';' !in token
    decreases |line|
  {
    if line == [] || line[0] == ',' || line[0] == ';' then []
    else [line[0]] + LeadingToken(line[1..])
  }

  lemma {:induction false} LeadingTokenBeforeDelimiter(token: string, rest: string)
    requires ',' !in token && ';' !in token
    requires |rest| > 0 && (rest[0] == ',' || rest[0] == ';')
    ensures LeadingToken(token + rest) == token
    decreases |token|
  {
    if token != [] {
      assert (token + rest)[1..] == token[1..] + rest;
      LeadingTokenBeforeDelimiter(token[1..], rest);
      assert [token[0]] + token[1..] == token;
    } else {
      assert token + rest == rest;
    }
  }

  /** The leading token of an encoded line is the command name. */
  lemma LeadingTokenOfEncode(name: string, args: string)
    requires ',' !in name && ';' !in name
    ensures LeadingToken(Encode(name, args)) == name
  {
    if args != "" {
      assert Encode(name, args) == name + ("," + args + ";");
      LeadingTokenBeforeDelimiter(name, "," + args + ";");
    } else {
      LeadingTokenBeforeDelimiter(name, ";");
    }
  }

  /**
   * Decoding an encoded line recovers the command name as the leading token
   * and the comma-separated pieces of the arguments.
   */
  lemma DecodeEncode(name: string, args: string)
    requires ',' !in name
    ensures Decode(Encode(name, args)) == Reply(name, if args == "" then [] else Split(args, ','))
  {
    var line := Encode(name, args);
    if args != "" {
      assert line[..|line| - 1] == name + [','] + args;
      SplitAfterHead(name, ',', args);
    } else {
      assert line[..|line| - 1] == name;
      SplitNoSeparator(name, ',');
    }
  }

  // ------------------------------------------------------------ sending lines

  /** One write: delivered and counted, or only counted when the attempt fails. */
  function Send(failing: set<nat>, w: World, line: string): (r: (World, bool))
    ensures r.1 <==> w.attempts !in failing
    ensures r.0.sent == (if r.1 then w.sent + [line] else w.sent)
    ensures r.0.attempts == w.attempts + 1 && r.0.snap == w.snap
  {
    if w.attempts in failing then (w.(attempts := w.attempts + 1), false)
    else (w.(sent := w.sent + [line], attempts := w.attempts + 1), true)
  }

  /**
   * Sends `lines` in order and stops at the first failed write: the lines
   * delivered are a prefix of `lines`, all of it exactly when no write failed.
   */
  function SendAll(failing: set<nat>, w: World, lines: seq<string>): (r: (World, bool))
    ensures r.0.snap == w.snap
    ensures |w.sent| <= |r.0.sent|
    ensures |r.0.sent| - |w.sent| <= |lines|
    ensures r.0.sent == w.sent + lines[..|r.0.sent| - |w.sent|]
    ensures r.1 <==> |r.0.sent| - |w.sent| == |lines|
    ensures r.0.attempts == w.attempts + (|r.0.sent| - |w.sent|) + (if r.1 then 0 else 1)
    ensures forall a :: w.attempts <= a < w.attempts + (|r.0.sent| - |w.sent|) ==> a !in failing
    ensures !r.1 ==> w.attempts + (|r.0.sent| - |w.sent|) in failing
    decreases |lines|
  {
    if lines == [] then (w, true)
    else
      var first := Send(failing, w, lines[0]);
      if !first.1 then first
      else
        var r := SendAll(failing, first.0, lines[1..]);
        assert lines[..|r.0.sent| - |w.sent|] == [lines[0]] + lines[1..][..|r.0.sent| - |first.0.sent|];
        r
  }

  /** Sending two batches back to back is sending their concatenation. */
  lemma {:induction false} SendAllAppend(failing: set<nat>, w: World, xs: seq<string>, ys: seq<string>)
    ensures SendAll(failing, w, xs + ys)
         == (var front := SendAll(failing, w, xs); if front.1 then SendAll(failing, front.0, ys) else front)
    decreases |xs|
  {
    if xs == [] {
      assert xs + ys == ys;
    } else {
      assert (xs + ys)[0] == xs[0] && (xs + ys)[1..] == xs[1..] + ys;
      var first := Send(failing, w, xs[0]);
      if first.1 {
        SendAllAppend(failing, first.0, xs[1..], ys);
      }
    }
  }

  /** Sending one more line after a batch. */
  lemma SendAllSnoc(failing: set<nat>, w: World, xs: seq<string>, x: string)
    ensures SendAll(failing, w, xs + [x])
         == (var front := SendAll(failing, w, xs); if front.1 then Send(failing, front.0, x) else front)
  {
    SendAllAppend(failing, w, xs, [x]);
    assert [x][1..] == [];
  }

  /** Once a write has failed, nothing after it is sent. */
  lemma SendAllStopped(failing: set<nat>, w: World, xs: seq<string>, ys: seq<string>)
    requires !SendAll(failing, w, xs).1
    ensures SendAll(failing, w, xs + ys) == SendAll(failing, w, xs)
  {
    SendAllAppend(failing, w, xs, ys);
  }

  /** Extending a fully delivered prefix of `lines` by the next line. */
  lemma SendPrefixStep(failing: set<nat>, w: World, lines: seq<string>, i: nat, current: World)
    requires i < |lines| && SendAll(failing, w, lines[..i]) == (current, true)
    ensures SendAll(failing, w, lines[..i + 1]) == Send(failing, current, lines[i])
    ensures !Send(failing, current, lines[i]).1 ==> SendAll(failing, w, lines) == Send(failing, current, lines[i])
  {
    assert lines[..i + 1] == lines[..i] + [lines[i]];
    SendAllSnoc(failing, w, lines[..i], lines[i]);
    if !Send(failing, current, lines[i]).1 {
      assert lines == lines[..i + 1] + lines[i + 1..];
      SendAllStopped(failing, w, lines[..i + 1], lines[i + 1..]);
    }
  }

  /** After a fully delivered prefix, the rest is sent from where it left off. */
  lemma SendPrefixRest(failing: set<nat>, w: World, lines: seq<string>, k: nat, current: World)
    requires k <= |lines| && SendAll(failing, w, lines[..k]) == (current, true)
    ensures SendAll(failing, w, lines) == SendAll(failing, current, lines[k..])
  {
    assert lines == lines[..k] + lines[k..];
    SendAllAppend(failing, w, lines[..k], lines[k..]);
  }

  /** The wire lines of argument-less commands. */
  function Lines(commands: seq<string>): (lines: seq<string>)
    ensures |lines| == |commands|
    ensures forall i :: 0 <= i < |commands| ==> lines[i] == Encode(commands[i], "")
  {
    seq(|commands|, i requires 0 <= i < |commands| => Encode(commands[i], ""))
  }

  /** Formats and writes one command line. */
  method SendCommand(arm: KukaArm, name: string, args: string) returns (ok: bool)
    modifies arm.tcpConn
    ensures (arm.View(), ok) == Send(arm.tcpConn.failing, old(arm.View()), Encode(name, args))
    ensures arm.tcpConn.ipAddress == old(arm.tcpConn.ipAddress) && arm.tcpConn.port == old(arm.tcpConn.port)
  {
    ok := arm.tcpConn.Write(Encode(name, args));
  }

  /** The information requests sent at start-up, before the state refresh. */
  const StartupCommands: seq<string> := [
    GetRobotName, GetRobotSerialNum, GetRobotType, GetRobotSoftwareVersion,
    GetRobotOperatingMode, GetJointNegLimit, GetJointPosLimit
  ]

  /** The state refresh: current joints, then current end position. */
  const UpdateCommands: seq<string> := [GetJointPosition, GetEndPosition]

  /** `updateState`: the two refresh requests, the second only if the first was written. */
  method UpdateState(arm: KukaArm) returns (ok: bool)
    modifies arm.tcpConn
    ensures (arm.View(), ok) == SendAll(arm.tcpConn.failing, old(arm.View()), Lines(UpdateCommands))
    ensures arm.tcpConn.ipAddress == old(arm.tcpConn.ipAddress) && arm.tcpConn.port == old(arm.tcpConn.port)
  {
    ghost var start := arm.View();
    ghost var lines := Lines(UpdateCommands);
    assert lines == [Encode(GetJointPosition, "")] + [Encode(GetEndPosition, "")];
    SendAllSnoc(arm.tcpConn.failing, start, [Encode(GetJointPosition, "")], Encode(GetEndPosition, ""));
    SendAllSnoc(arm.tcpConn.failing, start, [], Encode(GetJointPosition, ""));
    assert [] + [Encode(GetJointPosition, "")] == [Encode(GetJointPosition, "")];
    ok := SendCommand(arm, GetJointPosition, "");
    if !ok {
      return;
    }
    ok := SendCommand(arm, GetEndPosition, "");
  }

  /** `getDeviceInfo`: the seven start-up requests, then the state refresh, stopping at the first failed write. */
  method GetDeviceInfo(arm: KukaArm) returns (ok: bool)
    modifies arm.tcpConn
    ensures (arm.View(), ok)
         == SendAll(arm.tcpConn.failing, old(arm.View()), Lines(StartupCommands + UpdateCommands))
    ensures arm.tcpConn.ipAddress == old(arm.tcpConn.ipAddress) && arm.tcpConn.port == old(arm.tcpConn.port)
  {
    ghost var start := arm.View();
    ghost var all := Lines(StartupCommands + UpdateCommands);
    ghost var failing := arm.tcpConn.failing;
    for i := 0 to |StartupCommands|
      invariant (arm.View(), true) == SendAll(failing, start, all[..i])
      invariant arm.tcpConn.ipAddress == old(arm.tcpConn.ipAddress) && arm.tcpConn.port == old(arm.tcpConn.port)
    {
      assert all[i] == Encode(StartupCommands[i], "");
      SendPrefixStep(failing, start, all, i, arm.View());
      ok := SendCommand(arm, StartupCommands[i], "");
      if !ok {
        return;
      }
    }
    assert all[|StartupCommands|..] == Lines(UpdateCommands);
    SendPrefixRest(failing, start, all, |StartupCommands|, arm.View());
    ok := UpdateState(arm);
  }

  // --------------------------------------------------------- configuration

  /** The IP address used: the configured one, or the default when none is given. */
  function EffectiveAddress(conf: Config, defaultIp: string): (ip: string)
    ensures conf.ipAddress != "" ==> ip == conf.ipAddress
    ensures conf.ipAddress == "" ==> ip == defaultIp
  {
    if conf.ipAddress != "" then conf.ipAddress else defaultIp
  }

  /** The port used: never zero; 54610 when none is configured. */
  function EffectivePort(conf: Config): (port: int)
    ensures port != 0
    ensures conf.port != 0 ==> port == conf.port
    ensures conf.port == 0 ==> port == 54610
  {
    if conf.port != 0 then conf.port else DefaultTcpPort
  }

  /** The arm model used: the configured one, or the default when none is given. */
  function EffectiveModel(conf: Config, defaultModel: string): string
  {
    if conf.model != "" then conf.model else defaultModel
  }

  /** A model is accepted when it is supported and its URDF file loads. */
  function ModelCheck(model: string, loadUrdf: string -> bool): (r: Outcome<ConfigError>)
    ensures r.Pass? <==> model in SupportedModels && loadUrdf(model)
  {
    if model !in SupportedModels then Fail(UnsupportedModel(model))
    else if !loadUrdf(model) then Fail(UrdfLoadFailed(model))
    else Pass
  }

  /**
   * `parseConfig`: address and port are set first, with their defaults; the
   * model is checked next; the safe-mode flag is copied only when the model
   * is accepted.
   */
  method ParseConfig(arm: KukaArm, conf: Config, defaultIp: string, defaultModel: string,
                     loadUrdf: string -> bool) returns (r: Outcome<ConfigError>)
    modifies arm, arm.tcpConn
    ensures arm.tcpConn.ipAddress == EffectiveAddress(conf, defaultIp)
    ensures arm.tcpConn.port == EffectivePort(conf)
    ensures r == ModelCheck(EffectiveModel(conf, defaultModel), loadUrdf)
    ensures arm.safeMode == if r.Pass? then conf.safeMode else old(arm.safeMode)
    ensures arm.jointLimits == old(arm.jointLimits) && arm.View() == old(arm.View())
    ensures arm.closed == old(arm.closed)
  {
    if conf.ipAddress != "" {
      arm.tcpConn.ipAddress := conf.ipAddress;
    } else {
      arm.tcpConn.ipAddress := defaultIp;
    }
    if conf.port != 0 {
      arm.tcpConn.port := conf.port;
    } else {
      arm.tcpConn.port := DefaultTcpPort;
    }
    var model := if conf.model != "" then conf.model else defaultModel;
    var foundModel := false;
    for i := 0 to |SupportedModels|
      invariant foundModel <==> model in SupportedModels[..i]
      invariant foundModel ==> loadUrdf(model)
    {
      if model == SupportedModels[i] {
        foundModel := true;
        if !loadUrdf(model) {
          return Fail(UrdfLoadFailed(model));
        }
      }
    }
    assert SupportedModels[..|SupportedModels|] == SupportedModels;
    if !foundModel {
      return Fail(UnsupportedModel(model));
    }
    arm.safeMode := conf.safeMode;
    r := Pass;
  }

  // ------------------------------------------------------------------ reset

  /** Six zero limits, as a freshly made limit slice holds. */
  const ZeroLimits: seq<Limit> := [Limit(0.0, 0.0), Limit(0.0, 0.0), Limit(0.0, 0.0), Limit(0.0, 0.0), Limit(0.0, 0.0), Limit(0.0, 0.0)]

  /** The state after a reset: everything emptied, status unknown; the channel is untouched. */
  function Cleared(s: Snapshot): (r: Snapshot)
    ensures |r.limits| == NumJoints && forall i :: 0 <= i < NumJoints ==> r.limits[i] == Limit(0.0, 0.0)
    ensures r.info == DeviceInfo("", "", "", "", "") && r.pose.None? && r.joints.None?
    ensures !r.isMoving && r.programState == StatusUnknown && r.programName == ""
    ensures r.channel == s.channel
  {
    Snapshot(DeviceInfo("", "", "", "", ""), None, None, ZeroLimits, false, StatusUnknown, "", s.channel)
  }

  /** `resetCurrentStateAndDeviceInfo`. */
  method ResetCurrentStateAndDeviceInfo(arm: KukaArm)
    modifies arm
    ensures arm.Valid() && fresh(arm.jointLimits)
    ensures arm.Snap() == Cleared(old(arm.Snap()))
    ensures arm.closed == old(arm.closed) && arm.safeMode == old(arm.safeMode)
  {
    arm.jointLimits := new Limit[NumJoints](_ => Limit(0.0, 0.0));
    arm.endEffectorPose, arm.joints := None, None;
    arm.isMoving := false;
    arm.programState, arm.programName := StatusUnknown, "";
    arm.deviceInfo := DeviceInfo("", "", "", "", "");
  }

  // ------------------------------------------------------ joint-limit check

  /** Limits are exclusive: a value on either bound is outside. */
  predicate Inside(limit: Limit, x: real)
  {
    limit.min < x < limit.max
  }

  /** The first joint at or after `i` whose target is not strictly inside its limits. */
  function FirstViolation(limits: seq<Limit>, target: seq<real>, i: nat): (r: Option<nat>)
    requires i <= NumJoints <= |limits| && NumJoints <= |target|
    ensures r.None? <==> forall k :: i <= k < NumJoints ==> Inside(limits[k], target[k])
    ensures r.Some? ==> i <= r.value < NumJoints && !Inside(limits[r.value], target[r.value])
    ensures r.Some? ==> forall k :: i <= k < r.value ==> Inside(limits[k], target[k])
    decreases NumJoints - i
  {
    if i == NumJoints then None
    else if !Inside(limits[i], target[i]) then Some(i)
    else FirstViolation(limits, target, i + 1)
  }

  /** The outcome of the joint-limit check, naming the first offending joint. */
  function LimitCheck(limits: seq<Limit>, target: seq<real>): (r: Outcome<ArmError>)
    requires NumJoints <= |limits| && NumJoints <= |target|
    ensures r.Pass? <==> forall i :: 0 <= i < NumJoints ==> Inside(limits[i], target[i])
    ensures r.Fail? ==>
      && r.error.JointOutOfRange? && r.error.joint < NumJoints
      && r.error.value == target[r.error.joint] && r.error.limit == limits[r.error.joint]
      && !Inside(r.error.limit, r.error.value)
      && forall i :: 0 <= i < r.error.joint ==> Inside(limits[i], target[i])
  {
    match FirstViolation(limits, target, 0)
    case None => Pass
    case Some(j) => Fail(JointOutOfRange(j, target[j], limits[j]))
  }

  /** `checkDesiredJointPositions`: reads the limits, changes nothing. */
  method CheckDesiredJointPositions(arm: KukaArm, target: seq<real>) returns (r: Outcome<ArmError>)
    requires arm.Valid() && |target| >= NumJoints
    ensures r.Pass? <==> forall i :: 0 <= i < NumJoints ==> Inside(arm.jointLimits[i], target[i])
    ensures r.Fail? ==>
      && r.error.JointOutOfRange? && r.error.joint < NumJoints
      && r.error.value == target[r.error.joint] && r.error.limit == arm.jointLimits[r.error.joint]
      && !Inside(r.error.limit, r.error.value)
      && forall i :: 0 <= i < r.error.joint ==> Inside(arm.jointLimits[i], target[i])
    ensures r == LimitCheck(arm.jointLimits[..], target)
  {
    var limits := arm.jointLimits[..];
    for i := 0 to NumJoints
      invariant FirstViolation(limits, target, 0) == FirstViolation(limits, target, i)
    {
      var x := target[i];
      if x <= limits[i].min || x >= limits[i].max {
        return Fail(JointOutOfRange(i, x, limits[i]));
      }
    }
    return Pass;
  }

  // ------------------------------------------------------ program-state query

  /**
   * `checkEKIProgramState`: send the query, then receive from the channel
   * while the monitor handles `inputs`, and report the recorded status. A value
   * left in the channel answers at once with the status recorded before the
   * query; nothing received means the caller's context ended.
   */
  function ProgramCheck(floats: Floats, failing: set<nat>, closed: bool, w: World,
                        inputs: seq<Option<string>>): (r: (World, ProgramStatus, Outcome<ArmError>))
    requires WellFormedReads(inputs)
    ensures r.2 != Fail(WriteFailed) ==> r.0.sent == w.sent + [Encode(GetEkiProgramState, "")]
    ensures r.2 == Fail(WriteFailed) ==> r.0.sent == w.sent && r.0.snap == w.snap
    ensures r.2.Pass? || r.2 == Fail(WriteFailed) || r.2 == Fail(Closed)
    ensures r.2.Fail? ==> r.1 == StatusUnknown
    ensures r.2.Pass? ==> r.1 == r.0.snap.programState
    ensures w.snap.channel != [] && r.2 != Fail(WriteFailed) ==>
      r.2.Pass? && r.0.snap == w.snap.(channel := w.snap.channel[1..])
    ensures w.snap.channel == [] ==> r.0.snap.channel == []
    ensures w.snap.channel == [] && closed ==> !r.2.Pass? && r.0.snap == w.snap
    ensures r.0.snap.isMoving ==> w.snap.isMoving
    ensures |r.0.snap.limits| == |w.snap.limits|
    ensures w.snap.channel == [] && !w.snap.isMoving && r.2.Pass? ==>
      exists k :: 0 <= k < |inputs| && AnswersProgramQuery(inputs[k], r.1)
  {
    var query := Send(failing, w, Encode(GetEkiProgramState, ""));
    if !query.1 then (query.0, StatusUnknown, Fail(WriteFailed))
    else
      QueryAnsweredByProgramReply(floats, closed, query.0.snap, inputs);
      var wait := Await(floats, closed, query.0.snap, inputs);
      if wait.1.None? then (query.0.(snap := wait.0), StatusUnknown, Fail(Closed))
      else (query.0.(snap := wait.0), wait.0.programState, Pass)
  }

  method CheckEkiProgramState(arm: KukaArm, floats: Floats, inputs: seq<Option<string>>)
    returns (status: ProgramStatus, err: Outcome<ArmError>)
    requires arm.Valid() && WellFormedReads(inputs)
    modifies arm, arm.jointLimits, arm.tcpConn
    ensures arm.Valid() && SettingsUnchanged(arm)
    ensures arm.tcpConn.ipAddress == old(arm.tcpConn.ipAddress) && arm.tcpConn.port == old(arm.tcpConn.port)
    ensures (arm.View(), status, err)
         == ProgramCheck(floats, arm.tcpConn.failing, old(arm.closed), old(arm.View()), inputs)
  {
    var ok := SendCommand(arm, GetEkiProgramState, "");
    if !ok {
      return StatusUnknown, Fail(WriteFailed);
    }
    var received := AwaitSignal(arm, floats, inputs);
    if received.None? {
      return StatusUnknown, Fail(Closed);
    }
    return arm.programState, Pass;
  }
}
