/**
 * The EKI command vocabulary and the program-status enumeration with its
 * two keyword mappings.
 */
module EkiCommands {
  import opened Wrappers

  // Info commands
  const GetRobotName: string := "getrobotname"
  const GetRobotSoftwareVersion: string := "getsoftwareversion"
  const GetRobotSerialNum: string := "getrobotserialnum"
  const GetRobotType: string := "getrobottype"
  const GetRobotOperatingMode: string := "getoperatingmode"
  const GetEkiProgramState: string := "getprograminfo"
  const GetJointPosLimit: string := "getposjntlim"
  const GetJointNegLimit: string := "getnegjntlim"
  const GetEndPosition: string := "getcurrentpos"
  const GetJointPosition: string := "getcurrentjoints"
  // Motion commands
  const SetJointPosition: string := "ptptojointpos"
  const SetStop: string := "setstop"

  /** Every command token of the vocabulary, in declaration order. */
  const AllCommands: seq<string> := [
    GetRobotName, GetRobotSoftwareVersion, GetRobotSerialNum, GetRobotType,
    GetRobotOperatingMode, GetEkiProgramState, GetJointPosLimit, GetJointNegLimit,
    GetEndPosition, GetJointPosition, SetJointPosition, SetStop
  ]

  /** Go's `int64`, the underlying type of `ProgramStatus`. */
  newtype ProgramStatus = x: int | -0x8000_0000_0000_0000 <= x < 0x8000_0000_0000_0000

  // The `iota` constants, consecutive from zero.
  const StatusFree: ProgramStatus := 0
  const StatusReset: ProgramStatus := 1
  const StatusRunning: ProgramStatus := 2
  const StatusStopped: ProgramStatus := 3
  const StatusEnded: ProgramStatus := 4
  const StatusUnknown: ProgramStatus := 5

  /** The keywords the remote program reports, indexed by the status they stand for. */
  const Keywords: seq<string> := ["Free", "Reset", "Running", "Stopped", "Ended"]

  /** The error `ProgramStatusToString` returns for a status without a keyword. */
  datatype StatusError = UnknownProgramStatus(status: ProgramStatus)

  function ProgramStatusToString(status: ProgramStatus): (r: Result<string, StatusError>)
    ensures r.Success? <==> StatusFree <= status <= StatusEnded
    ensures r.Success? ==> r.value == Keywords[status as int]
    ensures r.Failure? ==> r.error == UnknownProgramStatus(status)
  {
    if status == StatusFree then Success("Free")
    else if status == StatusReset then Success("Reset")
    else if status == StatusRunning then Success("Running")
    else if status == StatusStopped then Success("Stopped")
    else if status == StatusEnded then Success("Ended")
    else Failure(UnknownProgramStatus(status))
  }

  /** Total: any string other than the five keywords decodes to `StatusUnknown`. */
  function StringToProgramStatus(status: string): (r: ProgramStatus)
    ensures StatusFree <= r <= StatusUnknown
    ensures r == StatusUnknown <==> status !in Keywords
    ensures r != StatusUnknown ==> Keywords[r as int] == status
  {
    if status == "Free" then StatusFree
    else if status == "Reset" then StatusReset
    else if status == "Running" then StatusRunning
    else if status == "Stopped" then StatusStopped
    else if status == "Ended" then StatusEnded
    else StatusUnknown
  }

  /** Decoding the keyword of a known status gives that status back. */
  lemma StatusRoundTrip(status: ProgramStatus)
    requires StatusFree <= status <= StatusEnded
    ensures ProgramStatusToString(status).Success?
    ensures StringToProgramStatus(ProgramStatusToString(status).value) == status
  {
  }

  /** Encoding a decoded string gives it back exactly when it is one of the keywords. */
  lemma KeywordRoundTrip(keyword: string)
    ensures ProgramStatusToString(StringToProgramStatus(keyword)) == Success(keyword)
        <==> keyword in Keywords
    ensures keyword !in Keywords ==>
      ProgramStatusToString(StringToProgramStatus(keyword)) == Failure(UnknownProgramStatus(StatusUnknown))
  {
  }

  /** The zero value of a `ProgramStatus` is `StatusFree`; `StatusUnknown` is 5. */
  lemma StatusNumbering()
    ensures StatusFree as int == 0 && StatusUnknown as int == 5
    ensures forall k :: 0 <= k < |Keywords| ==> StringToProgramStatus(Keywords[k]) as int == k
  {
  }

  /**
   * The tokens are pairwise distinct, so the leading token of a line
   * determines the command unambiguously.
   */
  lemma CommandTokensDistinct()
    ensures |AllCommands| == 12
    ensures forall i, j :: 0 <= i < j < |AllCommands| ==> AllCommands[i] != AllCommands[j]
  {
  }

  /** No token contains a comma or a semicolon. */
  lemma CommandTokensUndelimited()
    ensures forall i :: 0 <= i < |AllCommands| ==> ',' !in AllCommands[i] && ';' !in AllCommands[i]
  {
  }
}
