/** include/acp/protocol.hpp: every method, declared once, by direction. */
module Protocol {
  import opened JsonTree
  import opened Universe
  import opened RoundTrip
  import Reencoding
  import opened Updates
  import opened Methods

  datatype Method =
      // The client calls these on the agent.
    | Initialize
    | Authenticate
    | Logout
    | SessionNew
    | SessionLoad
    | SessionResume
    | SessionFork
    | SessionClose
    | SessionDelete
    | SessionList
    | SessionPrompt
    | SessionSetMode
    | SessionSetConfig
      // The agent calls these on the client.
    | RequestPermission
    | FsReadTextFile
    | FsWriteTextFile
    | TerminalCreate
    | TerminalOutput
    | TerminalWaitForExit
    | TerminalKill
    | TerminalRelease
    | ElicitationCreate

  datatype Note = SessionCancel | SessionUpdated | CancelRequest

  function Params(m: Method): Schema {
    match m
    case Initialize => InitializeParams()
    case Authenticate => AuthenticateParams()
    case Logout => SUnit
    case SessionNew => NewSessionParams()
    case SessionLoad => LoadSessionParams()
    case SessionResume => LoadSessionParams()
    case SessionFork => LoadSessionParams()
    case SessionClose => SessionRef()
    case SessionDelete => SessionRef()
    case SessionList => ListSessionsParams()
    case SessionPrompt => PromptParams()
    case SessionSetMode => SetModeParams()
    case SessionSetConfig => SetConfigOptionParams()
    case RequestPermission => RequestPermissionParams()
    case FsReadTextFile => ReadTextFileParams()
    case FsWriteTextFile => WriteTextFileParams()
    case TerminalCreate => CreateTerminalParams()
    case ElicitationCreate => SJson
    case _ => TerminalRef()
  }

  function Returns(m: Method): Schema {
    match m
    case Initialize => InitializeResult()
    case SessionNew => NewSessionResult()
    case SessionLoad => ResumeSessionResult()
    case SessionResume => ResumeSessionResult()
    case SessionFork => NewSessionResult()
    case SessionList => ListSessionsResult()
    case SessionPrompt => PromptResult()
    case SessionSetConfig => SetConfigOptionResult()
    case RequestPermission => RequestPermissionResult()
    case FsReadTextFile => ReadTextFileResult()
    case TerminalCreate => CreateTerminalResult()
    case TerminalOutput => TerminalOutputResult()
    case TerminalWaitForExit => TerminalExitStatus()
    case ElicitationCreate => SJson
    case _ => SUnit
  }

  function NoteParams(n: Note): Schema {
    match n
    case SessionCancel => SessionRef()
    case SessionUpdated => SessionUpdateMsg()
    case CancelRequest => CancelRequestParams()
  }

  lemma LeavesOk()
    ensures WellFormed(SUnit) && WellFormed(SJson)
  {
  }

  lemma ParamsOk(m: Method)
    ensures WellFormed(Params(m))
  {
    hide WellFormed, InitializeParams, NewSessionParams, LoadSessionParams, ListSessionsParams, PromptParams;
    hide SetModeParams, SetConfigOptionParams, RequestPermissionParams, ReadTextFileParams, WriteTextFileParams;
    hide CreateTerminalParams, AuthenticateParams, SessionRef, TerminalRef, CancelRequestParams;
    hide ListSessionsResult, PromptResult, RequestPermissionResult, ReadTextFileResult, CreateTerminalResult;
    InitializeParamsOk();
    LeavesOk();
    NewSessionOk();
    ListingOk();
    PromptOk();
    SettersOk();
    PermissionParamsOk();
    FilesOk();
    CreateTerminalOk();
    RefsOk();
  }

  lemma ReturnsOk(m: Method)
    ensures WellFormed(Returns(m))
  {
    hide WellFormed, InitializeResult, NewSessionResult, ResumeSessionResult, ListSessionsResult, PromptResult;
    hide SetConfigOptionResult, RequestPermissionResult, ReadTextFileResult, CreateTerminalResult;
    hide TerminalOutputResult, TerminalExitStatus;
    hide ListSessionsParams, PromptParams, RequestPermissionParams, ReadTextFileParams, WriteTextFileParams;
    hide CreateTerminalParams;
    InitializeResultOk();
    SessionResultsOk();
    ListingOk();
    PromptOk();
    PermissionParamsOk();
    FilesOk();
    CreateTerminalOk();
    TerminalOutputOk();
    LeavesOk();
  }

  lemma NoteParamsOk(n: Note)
    ensures WellFormed(NoteParams(n))
  {
    hide WellFormed, SessionUpdateMsg, SessionRef, CancelRequestParams;
    match n
    case SessionUpdated => SessionUpdateMsgOk();
    case _ => RefsOk();
  }

  /** Every payload of every method and notification survives the wire up to
      its normal form. */
  lemma EveryPayloadRoundTrips(m: Method, n: Note, p: Val, r: Val, q: Val)
    requires HasType(Params(m), p) && HasType(Returns(m), r) && HasType(NoteParams(n), q)
    ensures Dec(Params(m), Enc(Params(m), p)) == Ok(Norm(Params(m), p))
    ensures Dec(Returns(m), Enc(Returns(m), r)) == Ok(Norm(Returns(m), r))
    ensures Dec(NoteParams(n), Enc(NoteParams(n), q)) == Ok(Norm(NoteParams(n), q))
  {
    hide *;
    ParamsOk(m);
    ReturnsOk(m);
    NoteParamsOk(n);
    RoundTrips(Params(m), p);
    RoundTrips(Returns(m), r);
    RoundTrips(NoteParams(n), q);
  }

  /** If s accepts j, re-encoding gives JSON that s accepts and that another
      decode and encode leave as it is. */
  predicate Settles(s: Schema, j: Json) {
    Dec(s, j).Ok? ==>
      var k := Enc(s, Dec(s, j).value);
      Dec(s, k).Ok? && Enc(s, Dec(s, k).value) == k
  }

  /** Whatever JSON a peer sends as any payload, re-encoding normalises it. */
  lemma EveryPayloadSettles(m: Method, n: Note, j: Json)
    ensures Settles(Params(m), j) && Settles(Returns(m), j) && Settles(NoteParams(n), j)
  {
    hide Params, Returns, NoteParams, WellFormed, Enc, Dec;
    ParamsOk(m);
    ReturnsOk(m);
    NoteParamsOk(n);
    if Dec(Params(m), j).Ok? { Reencoding.ReencodingIsStable(Params(m), j); }
    if Dec(Returns(m), j).Ok? { Reencoding.ReencodingIsStable(Returns(m), j); }
    if Dec(NoteParams(n), j).Ok? { Reencoding.ReencodingIsStable(NoteParams(n), j); }
  }
}
