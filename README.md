# KUKA EKI driver: protocol core in Dafny

This project models the EKI protocol layer of a driver for KUKA arms, and proves properties of that model. The driver talks to a program on the robot controller over a line-based text protocol. Each request is a command token, optional comma-separated arguments and a `;` terminator. Each reply line is a token followed by arguments.

The model covers four parts of the driver:

- **Command vocabulary and program-status codec** (`EkiCommands`):
  - the twelve command tokens;
  - the six-valued `ProgramStatus`;
  - the two mappings between statuses and keywords.
- **Response monitor** (`Monitor`, `MonitorProperties`):
  - the arm state lives in a `KukaArm` class (`ArmState`) whose fields the handlers update in place;
  - each handler is a method proved equal to a pure transition on snapshots;
  - `Apply` is the whole transition for one reply: the `success` short-circuit first, then dispatch on the token;
  - `Replay` is the monitor loop over a finite run of reads;
  - the response channel is a queue of the values pushed and not yet received;
  - `Await` describes a receive from it: a value already in the channel is taken at once, otherwise the monitor handles reads until one pushes a value.
- **Utilities** (`Utils`):
  - the wire encoding of a command;
  - the transport, modelled as a log of delivered lines, a write-attempt counter and a fixed set of attempt numbers that fail;
  - the start-up and refresh command sequences, which stop at the first failed write;
  - configuration defaults;
  - the state reset;
  - the exclusive joint-limit check;
  - the program-state query.
- **Arm operations** (`Kuka`, `KukaProperties`):
  - `Config.Validate`;
  - the gate order of a joint move: limit check, then busy check, then the program check in safe mode, then raise the motion flag, write one move line, and wait;
  - `Stop`;
  - `GoToInputs`, which skips goals while the arm moves;
  - `IsMoving`;
  - `Close`.

Most state-changing methods are proved equal to a pure specification function of the old state: `Apply`, `Replay`, `Await`, `SendAll`, `Cleared`, `ProgramCheck`, `MoveSpec`, `Commit`, `StopSpec` and `GoToSpec`. `ParseConfig` is specified field by field through `EffectiveAddress`, `EffectivePort` and `ModelCheck`. `Close` only raises the closed flag. The properties are stated as lemmas about those functions.

Some behaviours of the code are proved as they are written, without judging them:

- The motion flag is raised before the move line is written and is not lowered if that write fails. A move within limits is then refused as "still moving" until a `success` reply clears the flag; a move outside the limits gets the limit error first. `KukaProperties.StuckAfterFailedMoveWrite` proves this for the next move when no reply is handled in between, and `KukaProperties.LimitCheckComesFirst` proves the order of the checks.
- The move's completion wait and the program-state query share one channel. A program-state reply that arrives during a move wakes the waiting move with the flag still raised (`Commit`, `KukaProperties.MoveWakeUp`).
- The channel keeps a value pushed while nobody waits. The next receive takes it at once. A move then returns on an old value with its own motion still flagged, on a closed arm too (`KukaProperties.StaleValueReleasesMove`, `KukaProperties.StaleCompletionAfterFailedWrite`). A program check then reports the status recorded earlier without a new reply (`Utils.ProgramCheck`).
- A reply whose first argument is `success` short-circuits any command, including a program-info reply for a program called `success`.

Other behaviours of the code:

- A `success` reply pushes `true` on the channel only while a move is in progress.
- Negative and positive limits arrive in two separate replies of twelve fields each, of which the first six are used.
- The end-position reply must have exactly fourteen fields.
- `Stop` refreshes the state twice; the first refresh's error is ignored.
- The move's wait on the response channel has no timeout; the thirty-second timeout only ends the background polling loop.
- Among the replies, only `success` clears `isMoving`; the state reset clears it too.

## Model

| member | source | states |
|---|---|---|
| `EkiCommands.ProgramStatusToString` | src/ekicommands/eki_commands.go:48-63 | succeeds exactly for the five known statuses, giving the keyword at that status's index; any other value fails with the unknown-status error |
| `EkiCommands.StringToProgramStatus` | src/ekicommands/eki_commands.go:65-80 | total; gives `StatusUnknown` exactly for strings that are not one of the five keywords, and otherwise the status whose keyword it is |
| `EkiCommands.StatusRoundTrip` | src/ekicommands/eki_commands.go:48-80 | for every known status, encoding then decoding gives the status back |
| `EkiCommands.KeywordRoundTrip` | src/ekicommands/eki_commands.go:48-80 | decoding then encoding a string gives it back exactly when it is a keyword; otherwise the result is the unknown-status error |
| `EkiCommands.StatusNumbering` | src/ekicommands/eki_commands.go:37-46 | statuses are numbered from 0 (`StatusFree`) to 5 (`StatusUnknown`), and the k-th keyword decodes to k |
| `EkiCommands.CommandTokensDistinct` | src/ekicommands/eki_commands.go:21-34 | the twelve command tokens are pairwise distinct |
| `EkiCommands.CommandTokensUndelimited` | src/ekicommands/eki_commands.go:21-34 | no command token contains `,` or `;` |
| `ArmState.TcpConn.Write` | src/kuka_device.go:57-67 | a write either delivers the line or fails and delivers nothing; every attempt is counted; the address and port are untouched |
| `ArmState.KukaArm.constructor` | src/kuka_utils.go:103-112 | a new arm as the reset at the start of `Reconfigure` leaves it: empty device info, no pose or joints, six zero limits, no motion, status unknown, an empty channel, neither closed nor in safe mode |
| `Strings.Split` | src/kuka_monitor.go:47 | splitting gives at least one piece, no piece contains the separator, and joining the pieces gives the input back |
| `Strings.SplitJoin` | src/kuka_monitor.go:47 | splitting the join of separator-free pieces gives the pieces back |
| `Monitor.Decode` | src/kuka_monitor.go:47-48 | the token and the arguments contain no comma, and joined with commas they give the reply without its last byte |
| `Monitor.ParseFirst` | src/kuka_monitor.go:166-174 | succeeds exactly when each of the first n fields parses, and then holds those n values in order |
| `Monitor.WithInfo` | src/kuka_monitor.go:103-156 | exactly the chosen identity field takes the new value; the other four keep theirs |
| `Monitor.Apply` | src/kuka_monitor.go:53-100 | a reply never raises the motion flag, keeps six limits, and pushes at most one value; while moving, no push means still moving, and a push clears the flag exactly when it is `true`; while not moving, only `false` is pushed |
| `Monitor.Step` | src/kuka_monitor.go:37-48 | one pass of the monitor loop keeps the frame of `Apply`: the flag is never raised, the limits keep their number, at most one value is pushed, and a push during a move clears the flag exactly when it is `true` |
| `Monitor.Replay` | src/kuka_monitor.go:30-50 | handling a run of reads never raises the motion flag, keeps the number of limits and only appends to the channel |
| `Monitor.Await` | src/kuka_utils.go:187-190 | a value already in the channel is taken at once and nothing else changes; otherwise the value pushed during the wait is taken and the channel ends empty; a closed arm with an empty channel receives nothing; from an empty channel during a move, receiving nothing means still moving and a received value clears the flag exactly when it is `true`; outside a move `true` is never received |
| `Monitor.QueryAnsweredByProgramReply` | src/kuka_monitor.go:262-275 | a receive that starts from an empty channel with no move in progress gets `false`, and only after handling a two-field `getprograminfo` reply (not `success`) whose decoded status is the one then recorded |
| `Monitor.HandleDeviceInfo` | src/kuka_monitor.go:103-156 | the five identity handlers store the single argument in their own field; any other count changes nothing |
| `Monitor.ParseFirstSix` | src/kuka_monitor.go:215-223 | the loop over the first six fields gives the values `ParseFirst` specifies, or nothing at the first failure |
| `Monitor.HandleMinJointPositions` | src/kuka_monitor.go:159-181 | the limits array becomes the lower-bound update of the old one (only `min` fields, only when all six parse), in place |
| `Monitor.HandleMaxJointPositions` | src/kuka_monitor.go:183-205 | the same for the upper bounds |
| `Monitor.HandleGetJointPositions` | src/kuka_monitor.go:208-229 | the joints become the six parsed values when there are twelve fields and all six parse; otherwise nothing changes |
| `Monitor.HandleGetEndPositions` | src/kuka_monitor.go:231-259 | the pose is built from the first six of fourteen fields, with the three angles converted by RadToDeg |
| `Monitor.HandleProgramState` | src/kuka_monitor.go:262-275 | a two-field reply records the program name and the decoded status and pushes `false` |
| `Monitor.HandleRobotResponses` | src/kuka_monitor.go:53-100 | the new state is `Apply` of the old state; the closed and safe-mode flags and the limits array object are untouched, and nothing is written to the connection |
| `Monitor.ResponseMonitor` | src/kuka_monitor.go:30-50 | the loop replays every read in order, and handles nothing once the arm is closed |
| `Monitor.AwaitSignal` | src/kuka.go:295 | the loop handles reads while the channel is empty, then takes the oldest value, with the state and value `Await` describes |
| `MonitorProperties.SuccessShortCircuit` | src/kuka_monitor.go:56-68 | a first argument `success` clears the motion flag, changes nothing else for any token, and pushes `true` only if a move was in progress |
| `MonitorProperties.IdentityReply` | src/kuka_monitor.go:103-156 | each identity token sets exactly its own field iff there is exactly one argument, and otherwise changes nothing |
| `MonitorProperties.LimitReplies` | src/kuka_monitor.go:159-205 | the lower-limit reply writes only `min` fields and the upper-limit reply only `max` fields, with the parsed values when there are twelve fields and the first six parse, else nothing |
| `MonitorProperties.LimitsAllOrNothing` | src/kuka_monitor.go:166-174 | one unparsable value among the first six leaves every limit unchanged |
| `MonitorProperties.JointsReplyIff` | src/kuka_monitor.go:208-229 | the joints are replaced iff there are twelve fields and the first six parse, and then by those values |
| `MonitorProperties.EndPoseReplyIff` | src/kuka_monitor.go:231-259 | the pose is set from fields 0 to 5 iff there are fourteen fields and those parse; otherwise nothing changes |
| `MonitorProperties.ProgramReplyIff` | src/kuka_monitor.go:262-275 | with two fields the name, the decoded status are recorded and `false` is pushed; with any other count nothing changes and nothing is pushed |
| `MonitorProperties.AckAndUnknownChangeNothing` | src/kuka_monitor.go:95-98 | move acknowledgements, stop replies and unknown tokens change nothing |
| `MonitorProperties.ReplayFrame` | src/kuka_monitor.go:30-50 | over any run of reads the monitor never raises the motion flag, keeps the limit count, and only appends to the channel, at most one value per read |
| `MonitorProperties.InfoOnlyFromIdentityReplies` | src/kuka_monitor.go:71-99 | device info changes only through the five identity tokens |
| `Utils.Encode` | src/kuka_utils.go:36-42 | the line starts with the command name and ends with `;` |
| `Utils.Send` | src/kuka_utils.go:36-50 | a write attempt succeeds iff its attempt number is not a failing one; a success appends exactly the line; every attempt is counted and the arm state is untouched |
| `Utils.LeadingTokenOfEncode` | src/kuka_utils.go:36-42 | the text before the first `,` or `;` of an encoded line is the command name |
| `Utils.DecodeEncode` | src/kuka_utils.go:36-42 | decoding an encoded line gives the command name and the comma-separated pieces of the arguments (none when the arguments are empty) |
| `Utils.SendAll` | src/kuka_utils.go:129-138 | the lines delivered are a prefix of the batch, all of it exactly when no attempt failed; delivery stops at the first failing attempt, which is counted |
| `Utils.SendAllAppend` | src/kuka_utils.go:116-141 | sending two batches one after the other is sending their concatenation |
| `Utils.SendCommand` | src/kuka_utils.go:36-50 | one encoded line is written through the connection |
| `Utils.UpdateState` | src/kuka_utils.go:144-154 | the refresh writes `getcurrentjoints` and then `getcurrentpos`, and the second only if the first was written |
| `Utils.GetDeviceInfo` | src/kuka_utils.go:116-141 | the seven start-up requests and then the refresh are written in order, stopping at the first failed write |
| `Utils.EffectiveAddress` | src/kuka_utils.go:57-62 | the configured address when there is one, else the default |
| `Utils.EffectivePort` | src/kuka_utils.go:64-69 | the port is never zero: the configured one, or 54610 when none is given |
| `Utils.ModelCheck` | src/kuka_utils.go:71-95 | a model is accepted iff it is supported and its URDF loads |
| `Utils.ParseConfig` | src/kuka_utils.go:53-100 | address and port get their defaults even when the model is refused; the safe-mode flag is copied only after the model is accepted |
| `Utils.ResetCurrentStateAndDeviceInfo` | src/kuka_utils.go:103-112 | everything is emptied: no pose or joints, a fresh array of six zero limits, no motion, status unknown, empty info; the channel and the flags are untouched |
| `Utils.Cleared` | src/kuka_utils.go:103-112 | after a reset there are six zero limits, no pose or joints, no motion, status unknown, an empty name and empty info, and the channel is kept |
| `Utils.FirstViolation` | src/kuka_utils.go:209-215 | no index is found iff every joint lies strictly inside its limits; otherwise the smallest index that does not |
| `Utils.CheckDesiredJointPositions` | src/kuka_utils.go:198-217 | passes iff every target lies strictly inside its limits (bounds rejected); otherwise names the first offending joint, its value and its limit; reads only |
| `Utils.LimitCheck` | src/kuka_utils.go:209-215 | passes iff every target lies strictly inside its limit; otherwise the error names the first joint outside, with its value and its limit |
| `Utils.ProgramCheck` | src/kuka_utils.go:182-195 | a failed write gives an error and changes nothing else; otherwise the query is delivered and either a value is received and the recorded status is returned, or the wait ends with the "closed" error and status unknown; a value left in the channel answers at once with the status recorded before the query; a closed arm with an empty channel never passes; from an empty channel with no move in progress, a pass reports a status decoded from a `getprograminfo` reply among the reads |
| `Utils.CheckEkiProgramState` | src/kuka_utils.go:182-195 | the query and the wait behave as `ProgramCheck` |
| `Kuka.Validate` | src/kuka.go:104-110 | fails iff the IP address is empty, with the missing-address error |
| `Kuka.ValidatedAddressIsConfigured` | src/kuka.go:104-110 | a validated configuration never falls back to the default address |
| `Kuka.MoveFields` | src/kuka.go:259-283 | twelve fields: the six formatted targets followed by six `0` external axes |
| `Kuka.MoveLineDecodes` | src/kuka.go:259-283 | when no formatted target contains a comma, the move line reads back as `ptptojointpos` with exactly those twelve fields |
| `Kuka.Commit` | src/kuka.go:279-297 | after the gates: a delivered move line adds exactly that line; the flag stays raised after a failed write or while waiting; a value left in the channel ends the wait at once with the flag still raised; from an empty channel, the value received clears the flag iff it is `true`, and a closed arm never completes |
| `Kuka.CommitMove` | src/kuka.go:279-297 | raising the flag, the write and the wait behave as `Commit` |
| `Kuka.IsMoving` | src/kuka.go:301-303 | returns the current motion flag and changes nothing |
| `Kuka.MoveToJointPositions` | src/kuka.go:246-298 | the move behaves as `MoveSpec`: the limit check, then the busy check, then the program check in safe mode, then `Commit` |
| `Kuka.MoveSpec` | src/kuka.go:246-298 | the gates in order: the limit error exactly when the limit check fails; "still moving" exactly when the limits pass while moving; "not running" only in safe mode; a move is written only past both first gates from a stopped arm; lines are only appended |
| `Kuka.Stop` | src/kuka.go:306-317 | writes `setstop` and then refreshes twice, as `StopSpec` |
| `Kuka.StopSpec` | src/kuka.go:306-317 | the state is untouched; at most five lines are appended, the first being `setstop`; the only error is the write error; success means the last two lines are the second refresh |
| `Kuka.GoToInputs` | src/kuka.go:213-227 | walks the goals as `GoToSpec`: skips goals while moving, stops at the first move that does not complete and reports it |
| `Kuka.GoToSpec` | src/kuka.go:213-227 | the walk keeps six limits and only appends lines, and a move it reports is one that did not complete |
| `Kuka.Close` | src/kuka.go:185-186 | the closed flag is raised |
| `KukaProperties.LimitCheckComesFirst` | src/kuka.go:251-257 | an out-of-range target is refused with the limit error, even while moving, and nothing changes or is written |
| `KukaProperties.MovingArmRefused` | src/kuka.go:255-257 | a target within limits is refused as still moving while the arm moves, and nothing changes or is written |
| `KukaProperties.MoveWrites` | src/kuka.go:259-285 | a move that got through its gates wrote the program query (safe mode only) and then exactly one move line; a refused move wrote no move line |
| `KukaProperties.SafeModeGate` | src/kuka.go:269-277 | in safe mode a move gets through only if the query succeeded and reported the program as running; from an empty channel, that status came from a `getprograminfo` reply among the query's reads reporting `Running` |
| `KukaProperties.ProgramAbortBeforeFlag` | src/kuka.go:269-277 | a failed query or a status other than running aborts before the flag is raised and before any move line is written |
| `KukaProperties.NoQueryOutsideSafeMode` | src/kuka.go:269-277 | outside safe mode the program state is never queried |
| `KukaProperties.MoveWakeUp` | src/kuka.go:279-297 | a move still waiting leaves the flag raised; a move that found the channel empty and returned was woken by a completion (`true`, flag cleared) or by a program-state reply (`false`, flag raised) |
| `KukaProperties.ClosedNeverCompletes` | src/kuka.go:185-186 | once closed, with the channel empty, a move never completes, and in safe mode it is refused |
| `KukaProperties.StaleValueReleasesMove` | src/kuka.go:281-295 | outside safe mode, with a value left in the channel, a move that passes its gates writes its line and returns at once on that value, handling no read, with the flag still raised, closed or not |
| `KukaProperties.StaleCompletionAfterFailedWrite` | src/kuka.go:281-295 | a failed move write, then a `success` reply that leaves `true` in the channel, then a move that returns at once on that `true` with its motion still flagged |
| `KukaProperties.StuckAfterFailedMoveWrite` | src/kuka.go:280-285 | after a failed move write the flag stays raised, so the next move within limits, with no reply handled in between, is refused as still moving |
| `KukaProperties.GoToSkipsWhileMoving` | src/kuka.go:214-224 | a walk that starts while moving skips every goal, writes nothing and returns without error |
| `KukaProperties.GoToWrites` | src/kuka.go:213-227 | a walk only appends lines: at most two per goal, and at most one outside safe mode |
| `KukaProperties.StopDelivered` | src/kuka.go:306-317 | with no failed write, `Stop` writes `setstop` and then two refreshes, and succeeds |
| `KukaProperties.StopIgnoresFirstRefresh` | src/kuka.go:311-315 | a failure in the first refresh is ignored; a delivered second refresh gives success |
| `KukaProperties.StopWritesStopFirst` | src/kuka.go:307-309 | whatever `Stop` writes begins with `setstop`, and a successful stop wrote at least three lines |

## Left out

- The socket layer:
  - dialling, disconnecting, and the read deadline (src/kuka_device.go, src/device.go) are not modelled;
  - a write is a line appended to a log, or a failure chosen by the attempt number;
  - a read is an optional reply line; an empty non-nil read is excluded, so every reply has at least one byte.
- Concurrency:
  - each mutex-guarded section is treated as one atomic step;
  - the monitor handles replies only while a caller receives from the channel (`Monitor.Await`); a reply that arrives between two operations, or between two goals of `GoToInputs`, is not modelled, so the motion flag cannot fall between them;
  - goroutines, the WaitGroup, `time.Sleep` and the thirty-second polling loop in `updateStateLoop` (with the extra refresh lines it writes during a move) are not modelled;
  - the response channel holds one value in the source, and the monitor blocks on a second push until a caller receives; the model's channel is an unbounded queue, so the monitor keeps handling reads where the source would wait (values are still received in push order).
- `Monitor.Await`: the caller's wait is the monitor handling a finite list of reads. A wait that received nothing stands for a context that ended, or for a move that is still blocked.
- Floating point: parsing, `%v` formatting and RadToDeg are uninterpreted functions passed in as parameters. NaN, infinities and rounding are not modelled.
- Poses are kept as six numbers rather than a spatial pose.
- The driver's URDF handling is not modelled:
  - URDF loading is a parameter (`loadUrdf`);
  - the kinematic model, `ModelFrame`, `Geometries`, `CurrentInputs`, `MoveToPosition` and `DoCommand` are not modelled;
  - `GoToInputs` goals are taken as joint values, because `ProtobufFromInput` is not part of this model.
- The default IP address and default model are not defined in the source, so they are parameters of `ParseConfig`.
- `Reconfigure` calls `setInitialValues`, which is not defined in the source, so `Reconfigure` is not modelled. The operations it sequences (reset, configuration, device info, program check) are modelled one by one.
- `Kuka.Close`: only the closed flag is modelled, not the lock acquisition, the wait for background workers or the disconnect.
- `Kuka.MoveToJointPositions`:
  - requires at least six target values, as the source indexes six without a check;
  - the wait on the response channel has no timeout in the source, and is modelled as a finite list of reads, so a move that receives nothing ends as `Blocked`.
- `Kuka.GoToInputs`: no reply is handled between two goals, so a `success` that would clear the flag between goals is not modelled.
- `KukaProperties.GoToSkipsWhileMoving`: skipping every goal holds only because no reply is handled between goals; in the source a `success` arriving mid-walk lets the later goals move.
- `Utils.CheckDesiredJointPositions` requires at least six target values, for the same reason.
- Bytes on the wire are modelled as characters.
- The older `kuka_montior.go` variant is not part of this model. It parses the end position from shifted fields.
