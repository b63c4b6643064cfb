/**
 * The arm's public operations: configuration validation, the joint move
 * with its gates, stop, stepping through a list of goals, the motion flag
 * and closing.
 */
module Kuka {
  import opened Wrappers
  import opened Strings
  import opened EkiCommands
  import opened ArmState
  import opened Monitor
  import opened Utils

  /** `Config.Validate`: the IP address is the only required attribute. */
  function Validate(cfg: Config): (r: Outcome<ConfigError>)
    ensures r.Pass? <==> cfg.ipAddress != ""
    ensures r.Fail? ==> r.error == MissingIpAddress
  {
    if cfg.ipAddress == "" then Fail(MissingIpAddress) else Pass
  }

  /** A validated configuration never falls back to the default address. */
  lemma ValidatedAddressIsConfigured(cfg: Config, defaultIp: string)
    requires Validate(cfg).Pass?
    ensures EffectiveAddress(cfg, defaultIp) == cfg.ipAddress
  {
  }

  // ------------------------------------------------------------- move line

  /** The twelve argument fields of a joint move: six targets, then six zero external axes. */
  function MoveFields(format: real -> string, target: seq<real>): (fields: seq<string>)
    requires |target| >= NumJoints
    ensures |fields| == NumJoints + NumExternalJoints
    ensures forall i :: 0 <= i < NumJoints ==> fields[i] == format(target[i])
    ensures forall i :: NumJoints <= i < |fields| ==> fields[i] == "0"
  {
    [format(target[0]), format(target[1]), format(target[2]),
     format(target[3]), format(target[4]), format(target[5]),
     "0", "0", "0", "0", "0", "0"]
  }

  /** The `ptptojointpos` line for a target. */
  function MoveLine(format: real -> string, target: seq<real>): string
    requires |target| >= NumJoints
  {
    Encode(SetJointPosition, Join(MoveFields(format, target), ','))
  }

  /**
   * When no formatted target contains a comma, the controller reads back
   * the `ptptojointpos` command with exactly the twelve fields that were sent.
   */
  lemma MoveLineDecodes(format: real -> string, target: seq<real>)
    requires |target| >= NumJoints
    requires forall i :: 0 <= i < NumJoints ==> ',' !in format(target[i])
    ensures Decode(MoveLine(format, target)) == Reply(SetJointPosition, MoveFields(format, target))
  {
    var fields := MoveFields(format, target);
    var args := Join(fields, ',');
    CommandTokensUndelimited();
    assert args == fields[0] + [','] + Join(fields[1..], ',');
    DecodeEncode(SetJointPosition, args);
    assert forall p :: p in fields ==> ',' !in p by {
      forall p | p in fields ensures ',' !in p {
        var i :| 0 <= i < |fields| && fields[i] == p;
        if i >= NumJoints {
          assert p == "0";
        }
      }
    }
    SplitJoin(fields, ',');
  }

  // ------------------------------------------------------------------ move

  datatype MoveOutcome =
    | Completed(signal: bool)  // the move line was written and the wait received `signal` from the channel
    | Blocked                  // the move line was written and nothing was received: the call is still waiting
    | Rejected(error: ArmError)

  /**
   * `MoveToJointPositions`: the limit check, then the motion check, then (in
   * safe mode) the program-state query, then the motion flag is raised, the
   * move line is written, and the call receives from the channel while the
   * monitor handles `completion`.
   */
  function MoveSpec(floats: Floats, failing: set<nat>, safeMode: bool, closed: bool, w: World,
                    target: seq<real>, query: seq<Option<string>>,
                    completion: seq<Option<string>>): (r: (World, MoveOutcome))
    requires |w.snap.limits| == NumJoints && |target| >= NumJoints
    requires WellFormedReads(query) && WellFormedReads(completion)
    ensures |r.0.snap.limits| == NumJoints
    ensures w.sent <= r.0.sent
    ensures r.1.Rejected? && r.1.error.JointOutOfRange? <==> LimitCheck(w.snap.limits, target).Fail?
    ensures r.1 == Rejected(StillMoving) <==> LimitCheck(w.snap.limits, target).Pass? && w.snap.isMoving
    ensures r.1.Rejected? && r.1.error.ProgramNotRunning? ==> safeMode
    ensures !r.1.Rejected? ==> LimitCheck(w.snap.limits, target).Pass? && !w.snap.isMoving
  {
    match LimitCheck(w.snap.limits, target)
    case Fail(e) => (w, Rejected(e))
    case Pass =>
      if w.snap.isMoving then (w, Rejected(StillMoving))
      else
        var checked := if safeMode then ProgramCheck(floats, failing, closed, w, query)
                       else (w, StatusRunning, Pass);
        if checked.2.Fail? then (checked.0, Rejected(checked.2.error))
        else if checked.1 != StatusRunning then (checked.0, Rejected(ProgramNotRunning(checked.1)))
        else Commit(floats, failing, closed, checked.0, target, completion)
  }

  /**
   * The part of a move after its gates: raise the motion flag, write the
   * move line, receive from the channel. The flag stays raised when the write
   * fails or nothing arrives. A value left in the channel from earlier ends
   * the wait at once, with the flag still raised. Otherwise the value pushed
   * during the wait clears the flag exactly when it is the completion
   * (`true`) rather than a program-state reply (`false`).
   */
  function Commit(floats: Floats, failing: set<nat>, closed: bool, w: World, target: seq<real>,
                  completion: seq<Option<string>>): (r: (World, MoveOutcome))
    requires |target| >= NumJoints && WellFormedReads(completion)
    ensures |r.0.snap.limits| == |w.snap.limits|
    ensures r.1.Rejected? ==> r.1 == Rejected(WriteFailed) && r.0.sent == w.sent && r.0.snap == w.snap.(isMoving := true)
    ensures !r.1.Rejected? ==> r.0.sent == w.sent + [MoveLine(floats.format, target)]
    ensures r.1 == Rejected(WriteFailed) || r.1 == Blocked ==> r.0.snap.isMoving
    ensures w.snap.channel != [] && !r.1.Rejected? ==>
      r.1 == Completed(w.snap.channel[0])
      && r.0.snap == w.snap.(isMoving := true, channel := w.snap.channel[1..])
    ensures w.snap.channel == [] ==> r.0.snap.channel == []
    ensures w.snap.channel == [] && r.1.Completed? ==> (r.1.signal <==> !r.0.snap.isMoving)
    ensures w.snap.channel == [] && closed ==> !r.1.Completed?
  {
    var raised := w.(snap := w.snap.(isMoving := true));
    var written := Send(failing, raised, MoveLine(floats.format, target));
    if !written.1 then (written.0, Rejected(WriteFailed))
    else
      var wait := Await(floats, closed, written.0.snap, completion);
      (written.0.(snap := wait.0), if wait.1.Some? then Completed(wait.1.value) else Blocked)
  }

  /** `IsMoving`: the motion flag of the current state. */
  method IsMoving(arm: KukaArm) returns (moving: bool)
    ensures moving == arm.Snap().isMoving
  {
    moving := arm.isMoving;
  }

  method MoveToJointPositions(arm: KukaArm, floats: Floats, target: seq<real>,
                              query: seq<Option<string>>, completion: seq<Option<string>>)
    returns (outcome: MoveOutcome)
    requires arm.Valid() && |target| >= NumJoints
    requires WellFormedReads(query) && WellFormedReads(completion)
    modifies arm, arm.jointLimits, arm.tcpConn
    ensures arm.Valid() && SettingsUnchanged(arm)
    ensures arm.tcpConn.ipAddress == old(arm.tcpConn.ipAddress) && arm.tcpConn.port == old(arm.tcpConn.port)
    ensures (arm.View(), outcome)
         == MoveSpec(floats, arm.tcpConn.failing, old(arm.safeMode), old(arm.closed), old(arm.View()),
                     target, query, completion)
  {
    var check := CheckDesiredJointPositions(arm, target);
    if check.Fail? {
      return Rejected(check.error);
    }
    var moving := IsMoving(arm);
    if moving {
      return Rejected(StillMoving);
    }
    if arm.safeMode {
      var status, err := CheckEkiProgramState(arm, floats, query);
      if err.Fail? {
        return Rejected(err.error);
      }
      if status != StatusRunning {
        return Rejected(ProgramNotRunning(status));
      }
    }
    outcome := CommitMove(arm, floats, target, completion);
  }

  /** Raise the motion flag, write the move line, and receive from the response channel. */
  method CommitMove(arm: KukaArm, floats: Floats, target: seq<real>, completion: seq<Option<string>>)
    returns (outcome: MoveOutcome)
    requires arm.Valid() && |target| >= NumJoints && WellFormedReads(completion)
    modifies arm, arm.jointLimits, arm.tcpConn
    ensures arm.Valid() && SettingsUnchanged(arm)
    ensures arm.tcpConn.ipAddress == old(arm.tcpConn.ipAddress) && arm.tcpConn.port == old(arm.tcpConn.port)
    ensures (arm.View(), outcome)
         == Commit(floats, arm.tcpConn.failing, old(arm.closed), old(arm.View()), target, completion)
  {
    arm.isMoving := true;
    var ok := SendCommand(arm, SetJointPosition, Join(MoveFields(floats.format, target), ','));
    if !ok {
      return Rejected(WriteFailed);
    }
    var received := AwaitSignal(arm, floats, completion);
    outcome := if received.Some? then Completed(received.value) else Blocked;
  }

  // ------------------------------------------------------------------ stop

  /**
   * `Stop`: write `setstop`, then refresh the state twice; a failure of the
   * first refresh is ignored, a failure of the second is returned.
   */
  function StopSpec(failing: set<nat>, w: World): (r: (World, Outcome<ArmError>))
    ensures r.0.snap == w.snap
    ensures w.sent <= r.0.sent && |r.0.sent| <= |w.sent| + 5
    ensures |r.0.sent| > |w.sent| ==> r.0.sent[|w.sent|] == Encode(SetStop, "")
    ensures r.1.Fail? ==> r.1 == Fail(WriteFailed)
    ensures r.1.Pass? ==> |r.0.sent| >= |w.sent| + 3 && r.0.sent[|r.0.sent| - 2..] == Lines(UpdateCommands)
  {
    var stop := Send(failing, w, Encode(SetStop, ""));
    if !stop.1 then (stop.0, Fail(WriteFailed))
    else
      var first := SendAll(failing, stop.0, Lines(UpdateCommands));
      var second := SendAll(failing, first.0, Lines(UpdateCommands));
      (second.0, if second.1 then Pass else Fail(WriteFailed))
  }

  method Stop(arm: KukaArm) returns (r: Outcome<ArmError>)
    modifies arm.tcpConn
    ensures arm.tcpConn.ipAddress == old(arm.tcpConn.ipAddress) && arm.tcpConn.port == old(arm.tcpConn.port)
    ensures (arm.View(), r) == StopSpec(arm.tcpConn.failing, old(arm.View()))
  {
    var ok := SendCommand(arm, SetStop, "");
    if !ok {
      return Fail(WriteFailed);
    }
    var _ := UpdateState(arm);
    ok := UpdateState(arm);
    if !ok {
      return Fail(WriteFailed);
    }
    return Pass;
  }

  // ----------------------------------------------------------------- go to

  /** One goal of `GoToInputs`, with the reads the monitor handles during each of its waits. */
  datatype Goal = Goal(target: seq<real>, query: seq<Option<string>>, completion: seq<Option<string>>)

  ghost predicate GoalsWellFormed(goals: seq<Goal>)
  {
    forall g :: g in goals ==>
      |g.target| >= NumJoints && WellFormedReads(g.query) && WellFormedReads(g.completion)
  }

  /**
   * `GoToInputs`: goals are taken in order; a goal met while the arm is
   * moving is skipped; the first move that does not complete ends the walk
   * and is reported, and None means every goal was walked.
   */
  function GoToSpec(floats: Floats, failing: set<nat>, safeMode: bool, closed: bool, w: World,
                    goals: seq<Goal>): (r: (World, Option<MoveOutcome>))
    requires |w.snap.limits| == NumJoints && GoalsWellFormed(goals)
    ensures |r.0.snap.limits| == NumJoints
    ensures r.1.Some? ==> !r.1.value.Completed?
    ensures w.sent <= r.0.sent
    decreases |goals|
  {
    if goals == [] then (w, None)
    else
      assert GoalsWellFormed(goals[1..]) by {
        forall g | g in goals[1..] ensures g in goals { }
      }
      if w.snap.isMoving then GoToSpec(floats, failing, safeMode, closed, w, goals[1..])
      else
        assert goals[0] in goals;
        var m := MoveSpec(floats, failing, safeMode, closed, w, goals[0].target, goals[0].query, goals[0].completion);
        if !m.1.Completed? then (m.0, Some(m.1))
        else GoToSpec(floats, failing, safeMode, closed, m.0, goals[1..])
  }

  /** One step of the walk over the goals. */
  lemma GoToUnfold(floats: Floats, failing: set<nat>, safeMode: bool, closed: bool, w: World, goals: seq<Goal>)
    requires |w.snap.limits| == NumJoints && GoalsWellFormed(goals) && goals != []
    ensures GoalsWellFormed(goals[1..]) && goals[0] in goals
    ensures GoToSpec(floats, failing, safeMode, closed, w, goals)
         == if w.snap.isMoving then GoToSpec(floats, failing, safeMode, closed, w, goals[1..])
            else
              var m := MoveSpec(floats, failing, safeMode, closed, w, goals[0].target, goals[0].query, goals[0].completion);
              if !m.1.Completed? then (m.0, Some(m.1)) else GoToSpec(floats, failing, safeMode, closed, m.0, goals[1..])
  {
    assert goals[0] in goals;
    assert GoalsWellFormed(goals[1..]) by {
      forall g | g in goals[1..] ensures g in goals { }
    }
  }

  method GoToInputs(arm: KukaArm, floats: Floats, goals: seq<Goal>) returns (outcome: Option<MoveOutcome>)
    requires arm.Valid() && GoalsWellFormed(goals)
    modifies arm, arm.jointLimits, arm.tcpConn
    ensures arm.Valid()
    ensures arm.closed == old(arm.closed) && arm.safeMode == old(arm.safeMode)
    ensures arm.tcpConn.ipAddress == old(arm.tcpConn.ipAddress) && arm.tcpConn.port == old(arm.tcpConn.port)
    ensures (arm.View(), outcome)
         == GoToSpec(floats, arm.tcpConn.failing, old(arm.safeMode), old(arm.closed), old(arm.View()), goals)
  {
    ghost var failing, safeMode, closed := arm.tcpConn.failing, arm.safeMode, arm.closed;
    ghost var spec := GoToSpec(floats, failing, safeMode, closed, arm.View(), goals);
    for i := 0 to |goals|
      invariant arm.Valid()
      invariant arm.closed == closed && arm.safeMode == safeMode && arm.jointLimits == old(arm.jointLimits)
      invariant arm.tcpConn.ipAddress == old(arm.tcpConn.ipAddress) && arm.tcpConn.port == old(arm.tcpConn.port)
      invariant GoalsWellFormed(goals[i..])
      invariant spec == GoToSpec(floats, failing, safeMode, closed, arm.View(), goals[i..])
    {
      ghost var rest := goals[i..];
      assert rest[0] == goals[i] && rest[1..] == goals[i + 1..];
      GoToUnfold(floats, failing, safeMode, closed, arm.View(), rest);
      var moving := IsMoving(arm);
      if !moving {
        var result := MoveToJointPositions(arm, floats, goals[i].target, goals[i].query, goals[i].completion);
        if !result.Completed? {
          return Some(result);
        }
      }
    }
    outcome := None;
  }

  // ----------------------------------------------------------------- close

  /** `Close`: raise the closed flag, which ends the monitor's loop. */
  method Close(arm: KukaArm)
    modifies arm`closed
    ensures arm.closed
  {
    arm.closed := true;
  }
}

/** Properties of the arm's operations, stated over their specification functions. */
module KukaProperties {
  import opened Wrappers
  import opened EkiCommands
  import opened ArmState
  import opened Monitor
  import opened MonitorProperties
  import opened Utils
  import opened Kuka

  /** The joint-limit check comes first: an out-of-range target is refused even while the arm moves, and nothing is written. */
  lemma LimitCheckComesFirst(floats: Floats, failing: set<nat>, safeMode: bool, closed: bool, w: World,
                             target: seq<real>, query: seq<Option<string>>, completion: seq<Option<string>>)
    requires |w.snap.limits| == NumJoints && |target| >= NumJoints
    requires WellFormedReads(query) && WellFormedReads(completion)
    requires LimitCheck(w.snap.limits, target).Fail?
    ensures MoveSpec(floats, failing, safeMode, closed, w, target, query, completion)
         == (w, Rejected(LimitCheck(w.snap.limits, target).error))
  {
  }

  /** A target within limits is refused while the arm moves, before anything is written. */
  lemma MovingArmRefused(floats: Floats, failing: set<nat>, safeMode: bool, closed: bool, w: World,
                         target: seq<real>, query: seq<Option<string>>, completion: seq<Option<string>>)
    requires |w.snap.limits| == NumJoints && |target| >= NumJoints
    requires WellFormedReads(query) && WellFormedReads(completion)
    requires LimitCheck(w.snap.limits, target).Pass? && w.snap.isMoving
    ensures MoveSpec(floats, failing, safeMode, closed, w, target, query, completion) == (w, Rejected(StillMoving))
  {
  }

  /**
   * The lines a move writes: a move that was written (completed or still
   * waiting) wrote the program query in safe mode and then exactly one move
   * line; a refused move wrote no move line.
   */
  lemma MoveWrites(floats: Floats, failing: set<nat>, safeMode: bool, closed: bool, w: World,
                   target: seq<real>, query: seq<Option<string>>, completion: seq<Option<string>>)
    requires |w.snap.limits| == NumJoints && |target| >= NumJoints
    requires WellFormedReads(query) && WellFormedReads(completion)
    ensures var r := MoveSpec(floats, failing, safeMode, closed, w, target, query, completion);
      && (!r.1.Rejected? ==>
            r.0.sent == w.sent + (if safeMode then [Encode(GetEkiProgramState, "")] else [])
                               + [MoveLine(floats.format, target)])
      && (r.1.Rejected? ==> r.0.sent == w.sent || (safeMode && r.0.sent == w.sent + [Encode(GetEkiProgramState, "")]))
  {
  }

  /** In safe mode a move is written only after the controller reported its program as running. */
  lemma SafeModeGate(floats: Floats, failing: set<nat>, closed: bool, w: World,
                     target: seq<real>, query: seq<Option<string>>, completion: seq<Option<string>>)
    requires |w.snap.limits| == NumJoints && |target| >= NumJoints
    requires WellFormedReads(query) && WellFormedReads(completion)
    requires !MoveSpec(floats, failing, true, closed, w, target, query, completion).1.Rejected?
    ensures ProgramCheck(floats, failing, closed, w, query).2.Pass?
    ensures ProgramCheck(floats, failing, closed, w, query).1 == StatusRunning
    ensures ProgramCheck(floats, failing, closed, w, query).0.snap.programState == StatusRunning
    ensures w.snap.channel == [] ==>
      exists k :: 0 <= k < |query| && AnswersProgramQuery(query[k], StatusRunning)
  {
  }

  /**
   * In safe mode, a query that fails or reports a program that is not
   * running aborts the move before the motion flag is raised and before any
   * move line is written.
   */
  lemma ProgramAbortBeforeFlag(floats: Floats, failing: set<nat>, closed: bool, w: World,
                               target: seq<real>, query: seq<Option<string>>, completion: seq<Option<string>>)
    requires |w.snap.limits| == NumJoints && |target| >= NumJoints
    requires WellFormedReads(query) && WellFormedReads(completion)
    requires LimitCheck(w.snap.limits, target).Pass? && !w.snap.isMoving
    requires var c := ProgramCheck(floats, failing, closed, w, query); c.2.Fail? || c.1 != StatusRunning
    ensures var r := MoveSpec(floats, failing, true, closed, w, target, query, completion);
      && r == (ProgramCheck(floats, failing, closed, w, query).0, r.1)
      && !r.0.snap.isMoving
      && MoveLine(floats.format, target) !in r.0.sent[|w.sent|..]
      && (r.1 == Rejected(WriteFailed) || r.1 == Rejected(Closed) || r.1.error.ProgramNotRunning?)
  {
    var c := ProgramCheck(floats, failing, closed, w, query);
    assert c.0.sent[|w.sent|..] == [] || c.0.sent[|w.sent|..] == [Encode(GetEkiProgramState, "")];
    assert MoveLine(floats.format, target)[0] == SetJointPosition[0] == 'p';
    assert Encode(GetEkiProgramState, "")[0] == 'g';
  }

  /** Outside safe mode the program state is never queried, so the reads offered for the query do not matter. */
  lemma NoQueryOutsideSafeMode(floats: Floats, failing: set<nat>, closed: bool, w: World, target: seq<real>,
                               query1: seq<Option<string>>, query2: seq<Option<string>>,
                               completion: seq<Option<string>>)
    requires |w.snap.limits| == NumJoints && |target| >= NumJoints
    requires WellFormedReads(query1) && WellFormedReads(query2) && WellFormedReads(completion)
    ensures MoveSpec(floats, failing, false, closed, w, target, query1, completion)
         == MoveSpec(floats, failing, false, closed, w, target, query2, completion)
  {
  }

  /**
   * A move that is still waiting leaves the arm flagged as moving. A move
   * that found the channel empty and then returned took the value pushed
   * during its wait: the completion (`true`, flag cleared) or a program-state
   * reply (`false`, flag still raised).
   */
  lemma MoveWakeUp(floats: Floats, failing: set<nat>, safeMode: bool, closed: bool, w: World,
                   target: seq<real>, query: seq<Option<string>>, completion: seq<Option<string>>)
    requires |w.snap.limits| == NumJoints && |target| >= NumJoints
    requires WellFormedReads(query) && WellFormedReads(completion)
    ensures var r := MoveSpec(floats, failing, safeMode, closed, w, target, query, completion);
      && (r.1 == Blocked ==> r.0.snap.isMoving)
      && (w.snap.channel == [] && r.1.Completed? ==> (r.1.signal <==> !r.0.snap.isMoving))
  {
  }

  /**
   * Once closed, the monitor handles nothing: with the channel empty, a move
   * never completes, and in safe mode its program query finds no answer.
   */
  lemma ClosedNeverCompletes(floats: Floats, failing: set<nat>, safeMode: bool, w: World,
                             target: seq<real>, query: seq<Option<string>>, completion: seq<Option<string>>)
    requires |w.snap.limits| == NumJoints && |target| >= NumJoints
    requires WellFormedReads(query) && WellFormedReads(completion)
    requires w.snap.channel == []
    ensures !MoveSpec(floats, failing, safeMode, true, w, target, query, completion).1.Completed?
    ensures safeMode && LimitCheck(w.snap.limits, target).Pass? && !w.snap.isMoving ==>
      MoveSpec(floats, failing, safeMode, true, w, target, query, completion).1.Rejected?
  {
  }

  /**
   * A value left in the channel from earlier releases the next move at once,
   * on a closed arm too: outside safe mode, a move that passes its gates and
   * writes its line returns with that old value, without handling a read, and
   * its motion stays flagged.
   */
  lemma StaleValueReleasesMove(floats: Floats, failing: set<nat>, closed: bool, w: World,
                               target: seq<real>, query: seq<Option<string>>, completion: seq<Option<string>>)
    requires |w.snap.limits| == NumJoints && |target| >= NumJoints
    requires WellFormedReads(query) && WellFormedReads(completion)
    requires LimitCheck(w.snap.limits, target).Pass? && !w.snap.isMoving
    requires w.snap.channel != [] && w.attempts !in failing
    ensures MoveSpec(floats, failing, false, closed, w, target, query, completion)
         == (World(w.snap.(isMoving := true, channel := w.snap.channel[1..]),
                   w.sent + [MoveLine(floats.format, target)], w.attempts + 1),
             Completed(w.snap.channel[0]))
  {
  }

  /**
   * A run the channel allows: a move whose write fails leaves the flag
   * raised; a later `success` reply clears it and leaves `true` in the
   * channel with nobody waiting; the next move then writes its line and
   * returns at once on that `true`, with its own motion still flagged.
   */
  lemma StaleCompletionAfterFailedWrite(floats: Floats, failing: set<nat>, closed: bool, w: World,
                                        target: seq<real>, next: seq<real>,
                                        query: seq<Option<string>>, completion: seq<Option<string>>,
                                        command: string, args: seq<string>)
    requires |w.snap.limits| == NumJoints && |target| >= NumJoints && |next| >= NumJoints
    requires WellFormedReads(query) && WellFormedReads(completion)
    requires LimitCheck(w.snap.limits, target).Pass? && LimitCheck(w.snap.limits, next).Pass?
    requires !w.snap.isMoving && w.snap.channel == []
    requires w.attempts in failing && w.attempts + 1 !in failing
    requires |args| > 0 && args[0] == "success"
    ensures var first := MoveSpec(floats, failing, false, closed, w, target, query, completion);
      var after := first.0.(snap := Apply(floats, first.0.snap, command, args));
      var second := MoveSpec(floats, failing, false, closed, after, next, query, completion);
      && first.1 == Rejected(WriteFailed) && first.0.snap.isMoving
      && after.snap.channel == [true] && !after.snap.isMoving
      && second.1 == Completed(true) && second.0.snap.isMoving
      && second.0.sent == w.sent + [MoveLine(floats.format, next)]
  {
    var first := MoveSpec(floats, failing, false, closed, w, target, query, completion);
    assert first.0 == w.(snap := w.snap.(isMoving := true), attempts := w.attempts + 1);
    SuccessShortCircuit(floats, first.0.snap, command, args);
    var after := first.0.(snap := Apply(floats, first.0.snap, command, args));
    assert after.snap.limits == w.snap.limits;
    StaleValueReleasesMove(floats, failing, closed, after, next, query, completion);
  }

  /**
   * The motion flag is raised before the move line is written and is not
   * lowered when that write fails: the arm then stays flagged as moving, and
   * the next move within limits, with no monitor reply handled in between,
   * is refused as still moving.
   */
  lemma StuckAfterFailedMoveWrite(floats: Floats, failing: set<nat>, safeMode: bool, closed: bool, w: World,
                                  target: seq<real>, query: seq<Option<string>>, completion: seq<Option<string>>,
                                  next: seq<real>, query2: seq<Option<string>>, completion2: seq<Option<string>>)
    requires |w.snap.limits| == NumJoints && |target| >= NumJoints && |next| >= NumJoints
    requires WellFormedReads(query) && WellFormedReads(completion)
    requires WellFormedReads(query2) && WellFormedReads(completion2)
    requires LimitCheck(w.snap.limits, target).Pass? && !w.snap.isMoving
    requires safeMode ==> ProgramCheck(floats, failing, closed, w, query).2.Pass?
    requires MoveSpec(floats, failing, safeMode, closed, w, target, query, completion).1 == Rejected(WriteFailed)
    ensures var r := MoveSpec(floats, failing, safeMode, closed, w, target, query, completion);
      && r.0.snap.isMoving
      && (LimitCheck(r.0.snap.limits, next).Pass? ==>
            MoveSpec(floats, failing, safeMode, closed, r.0, next, query2, completion2).1 == Rejected(StillMoving))
  {
  }

  /** A walk that starts while the arm is moving skips every goal and writes nothing. */
  lemma {:induction false} GoToSkipsWhileMoving(floats: Floats, failing: set<nat>, safeMode: bool, closed: bool,
                                                w: World, goals: seq<Goal>)
    requires |w.snap.limits| == NumJoints && GoalsWellFormed(goals) && w.snap.isMoving
    ensures GoToSpec(floats, failing, safeMode, closed, w, goals) == (w, None)
    decreases |goals|
  {
    if goals != [] {
      GoToUnfold(floats, failing, safeMode, closed, w, goals);
      GoToSkipsWhileMoving(floats, failing, safeMode, closed, w, goals[1..]);
    }
  }

  /**
   * A walk only appends lines, at most two per goal (the program query and
   * the move line), and outside safe mode at most one per goal.
   */
  lemma {:induction false} GoToWrites(floats: Floats, failing: set<nat>, safeMode: bool, closed: bool,
                                      w: World, goals: seq<Goal>)
    requires |w.snap.limits| == NumJoints && GoalsWellFormed(goals)
    ensures var r := GoToSpec(floats, failing, safeMode, closed, w, goals);
      && w.sent <= r.0.sent
      && |r.0.sent| <= |w.sent| + (if safeMode then 2 else 1) * |goals|
    decreases |goals|
  {
    if goals != [] {
      GoToUnfold(floats, failing, safeMode, closed, w, goals);
      if !w.snap.isMoving {
        var m := MoveSpec(floats, failing, safeMode, closed, w, goals[0].target, goals[0].query, goals[0].completion);
        MoveWrites(floats, failing, safeMode, closed, w, goals[0].target, goals[0].query, goals[0].completion);
        if m.1.Completed? {
          GoToWrites(floats, failing, safeMode, closed, m.0, goals[1..]);
        }
      } else {
        GoToWrites(floats, failing, safeMode, closed, w, goals[1..]);
      }
    }
  }

  /** With no failed write, `Stop` writes `setstop` and two refreshes and succeeds. */
  lemma StopDelivered(failing: set<nat>, w: World)
    requires forall a :: w.attempts <= a < w.attempts + 5 ==> a !in failing
    ensures StopSpec(failing, w)
         == (w.(sent := w.sent + [Encode(SetStop, "")] + Lines(UpdateCommands) + Lines(UpdateCommands),
                attempts := w.attempts + 5), Pass)
  {
    var stop := Send(failing, w, Encode(SetStop, ""));
    var first := SendAll(failing, stop.0, Lines(UpdateCommands));
    assert Lines(UpdateCommands)[..2] == Lines(UpdateCommands);
    var second := SendAll(failing, first.0, Lines(UpdateCommands));
  }

  /** A failure in the first refresh after `setstop` is ignored: only the second refresh decides the result. */
  lemma StopIgnoresFirstRefresh(failing: set<nat>, w: World)
    requires w.attempts !in failing && w.attempts + 1 in failing
    requires w.attempts + 2 !in failing && w.attempts + 3 !in failing
    ensures StopSpec(failing, w).1 == Pass
    ensures StopSpec(failing, w).0.sent == w.sent + [Encode(SetStop, "")] + Lines(UpdateCommands)
  {
    var stop := Send(failing, w, Encode(SetStop, ""));
    var first := SendAll(failing, stop.0, Lines(UpdateCommands));
    assert first.0.attempts == w.attempts + 2;
    var second := SendAll(failing, first.0, Lines(UpdateCommands));
    assert Lines(UpdateCommands)[..2] == Lines(UpdateCommands);
  }

  /** Whatever `Stop` writes begins with `setstop`. */
  lemma StopWritesStopFirst(failing: set<nat>, w: World)
    ensures var r := StopSpec(failing, w);
      |w.sent| <= |r.0.sent| && (|r.0.sent| > |w.sent| ==> r.0.sent[|w.sent|] == Encode(SetStop, ""))
    ensures StopSpec(failing, w).1.Pass? ==> |StopSpec(failing, w).0.sent| >= |w.sent| + 3
  {
  }
}
