/**
 * The scale-set message listener (scalesetlistener/scalesetlistener.go):
 * configuration checks, the builder that sets up an admin connection, a
 * service client, the runner scale set and a message session, one step at a
 * time and stopping at the first failure, and the message loop that polls the
 * session's queue, refreshes an expired token and dispatches messages by type.
 *
 * Remote calls are oracles: their answers are parameters, and the calls the
 * model makes are recorded, in order, in a trace of `ServiceCall`s. The job
 * handlers are opaque: a dispatch records which handler was called with what.
 */
module ScaleSetListener {
  import opened Results

  // ---------------------------------------------------------------------------
  // Configuration

  /** The GitHub configuration fields the listener reads. */
  datatype Config = Config(
    runnerEnterprise: string,
    runnerOrg: string,
    runnerRepository: string,
    runnerScaleSetName: string,
    token: string,
    appId: int,
    appInstallationId: int,
    appPrivateKey: string,
    basicauthUsername: string,
    basicauthPassword: string)

  /** `anyEmpty`: whether any of the values, `first` included, is the empty string. */
  method AnyEmpty(first: string, others: seq<string>) returns (empty: bool)
    ensures empty <==> first == "" || exists i :: 0 <= i < |others| && others[i] == ""
  {
    var values := others + [first];
    for i := 0 to |values|
      invariant forall j :: 0 <= j < i ==> values[j] != ""
    {
      if |values[i]| == 0 {
        return true;
      }
    }
    assert values[|others|] == first;
    assert forall j :: 0 <= j < |others| ==> values[j] == others[j];
    return false;
  }

  datatype ValidationError =
    | ConfigNotProvided(repository: string, org: string, token: string, scaleSetName: string)
    | NoCredentials

  /**
   * `Validate`: repository, organization, token and scale-set name must all be
   * given. Since the token is then non-empty, the "no credentials" error can
   * never be returned.
   */
  method Validate(c: Config) returns (err: Option<ValidationError>)
    ensures err.None? <==> c.runnerRepository != "" && c.runnerOrg != "" && c.token != "" && c.runnerScaleSetName != ""
    ensures err.Some? ==> err.value == ConfigNotProvided(c.runnerRepository, c.runnerOrg, c.token, c.runnerScaleSetName)
  {
    var others := [c.runnerOrg, c.token, c.runnerScaleSetName];
    var empty := AnyEmpty(c.runnerRepository, others);
    assert others[0] == c.runnerOrg && others[1] == c.token && others[2] == c.runnerScaleSetName;
    if empty {
      return Some(ConfigNotProvided(c.runnerRepository, c.runnerOrg, c.token, c.runnerScaleSetName));
    }
    var hasToken := |c.token| > 0;
    var hasPrivateKeyConfig := c.appId > 0 && c.appInstallationId > 0 && c.appPrivateKey != "";
    var hasBasicAuth := |c.basicauthUsername| > 0 && |c.basicauthPassword| > 0;
    if !hasToken && !hasPrivateKeyConfig && !hasBasicAuth {
      return Some(NoCredentials);
    }
    return None;
  }

  // ---------------------------------------------------------------------------
  // The Actions service, as the listener sees it

  /** An opaque failure of an Actions service call. */
  datatype ServiceError = ServiceError(message: string)

  datatype AdminConnection = AdminConnection(actionsServiceUrl: string, adminToken: string)

  datatype ActionsClient = ActionsClient(actionsServiceUrl: string, adminToken: string, userAgent: string)

  datatype Label = Label(name: string, labelType: string)

  datatype RunnerSetting = RunnerSetting(ephemeral: bool, disableUpdate: bool)

  datatype RunnerScaleSet = RunnerScaleSet(id: int, name: string, runnerGroupId: int, labels: seq<Label>, runnerSetting: RunnerSetting)

  datatype Session = Session(sessionId: string, scaleSetId: int, messageQueueUrl: string, messageQueueAccessToken: string)

  datatype Message = Message(messageId: int, messageType: string, body: string)

  /** Every call the model makes to the Actions service, with its arguments. */
  datatype ServiceCall =
    | GetAdminConnection(enterprise: string, org: string, repo: string)
    | GetScaleSet(name: string)
    | ReplaceScaleSet(id: int, payload: RunnerScaleSet)
    | CreateScaleSet(payload: RunnerScaleSet)
    | CreateMessageSession(scaleSetId: int, owner: string)
    | GetMessageCall(url: string, token: string, lastMessageId: int)
    | DeleteMessageCall(url: string, token: string, messageId: int)
    | RefreshMessageSession(scaleSetId: int, sessionId: string)
    | DeleteMessageSession(scaleSetId: int, sessionId: string)

  datatype SetupError =
    | AdminConnectionFailed(cause: ServiceError)
    | ScaleSetNotFound(cause: ServiceError)
    | ScaleSetWriteFailed(cause: ServiceError)
    | HostnameFailed(cause: ServiceError)
    | SessionCreateFailed(reportedAttempts: int)

  /** `newActionsClient`: a client for the connection's service URL, authenticated with its admin token. */
  function NewActionsClient(conn: AdminConnection): (client: ActionsClient)
    ensures client.actionsServiceUrl == conn.actionsServiceUrl && client.adminToken == conn.adminToken
    ensures client.userAgent == "actions-runner-controller-message-queue-listener"
  {
    ActionsClient(conn.actionsServiceUrl, conn.adminToken, "actions-runner-controller-message-queue-listener")
  }

  /** `newRunnerScaleSet`: the canonical settings a scale set is created or replaced with. */
  function NewRunnerScaleSet(name: string): (s: RunnerScaleSet)
    ensures s.name == name && s.id == 0 && s.runnerGroupId == 1 && s.labels == [Label(name, "User")]
    ensures s.runnerSetting.ephemeral && s.runnerSetting.disableUpdate
  {
    RunnerScaleSet(0, name, 1, [Label(name, "User")], RunnerSetting(true, true))
  }

  /**
   * `createRunnerScaleSet` (the free function): looks the scale set up by name, then replaces the one
   * found (by its id) or creates a new one; `write` is the answer to that second
   * call. Returns the calls made and the scale set the service answered with.
   */
  function UpsertRunnerScaleSet(name: string, lookup: Result<Option<RunnerScaleSet>, ServiceError>, write: Result<RunnerScaleSet, ServiceError>)
    : (r: (seq<ServiceCall>, Result<RunnerScaleSet, SetupError>))
    ensures 1 <= |r.0| <= 2 && r.0[0] == GetScaleSet(name)
    ensures lookup.Err? ==> r == ([GetScaleSet(name)], Err(ScaleSetNotFound(lookup.error)))
    ensures lookup.Ok? ==> |r.0| == 2 && r.1 == (if write.Ok? then Ok(write.value) else Err(ScaleSetWriteFailed(write.error)))
    ensures lookup.Ok? && lookup.value.Some? ==> r.0[1] == ReplaceScaleSet(lookup.value.value.id, NewRunnerScaleSet(name))
    ensures lookup.Ok? && lookup.value.None? ==> r.0[1] == CreateScaleSet(NewRunnerScaleSet(name))
  {
    match lookup
    case Err(e) => ([GetScaleSet(name)], Err(ScaleSetNotFound(e)))
    case Ok(found) =>
      var payload := NewRunnerScaleSet(name);
      var call := if found.Some? then ReplaceScaleSet(found.value.id, payload) else CreateScaleSet(payload);
      var result := match write
        case Ok(s) => Ok(s)
        case Err(e) => Err(ScaleSetWriteFailed(e));
      ([GetScaleSet(name), call], result)
  }

  /** A scale-set write: a replacement or a creation. */
  predicate IsScaleSetWrite(c: ServiceCall)
  {
    c.ReplaceScaleSet? || c.CreateScaleSet?
  }

  /**
   * At most one scale set is written, never both a replacement and a creation,
   * and what is written is ephemeral, update-disabled, in runner group 1 and
   * labelled with its own name only.
   */
  lemma ScaleSetWrittenOnceCanonically(name: string, lookup: Result<Option<RunnerScaleSet>, ServiceError>, write: Result<RunnerScaleSet, ServiceError>)
    ensures var calls := UpsertRunnerScaleSet(name, lookup, write).0;
      && (forall i, j :: 0 <= i < j < |calls| ==> !(IsScaleSetWrite(calls[i]) && IsScaleSetWrite(calls[j])))
      && (forall i :: 0 <= i < |calls| && IsScaleSetWrite(calls[i]) ==>
            var p := calls[i].payload;
            && lookup.Ok?
            && p.name == name && p.runnerGroupId == 1 && p.labels == [Label(name, "User")]
            && p.runnerSetting.ephemeral && p.runnerSetting.disableUpdate
            && (calls[i].ReplaceScaleSet? <==> lookup.value.Some?))
  {
  }

  /**
   * What session creation comes to: the first success among the attempts it
   * makes, and how many attempts that is. The retry counter is decremented
   * inside a loop bounded by it, so at most two attempts are made and the
   * failure reports one.
   */
  function SessionOutcome(attempt: nat -> Result<Session, ServiceError>): (r: (nat, Result<Session, SetupError>))
    ensures 1 <= r.0 <= 2
    ensures r.1.Ok? <==> exists i :: 0 <= i < r.0 && attempt(i).Ok?
    ensures r.1.Ok? ==> attempt(r.0 - 1) == Ok(r.1.value) && forall i :: 0 <= i < r.0 - 1 ==> attempt(i).Err?
    ensures r.1.Err? ==> r == (2, Err(SessionCreateFailed(1)))
  {
    if attempt(0).Ok? then (1, Ok(attempt(0).value))
    else if attempt(1).Ok? then (2, Ok(attempt(1).value))
    else (2, Err(SessionCreateFailed(1)))
  }

  /** `createRunnerScaleSetSession`: tries to create a message session, retrying after a failure while `i < retries`. */
  method CreateRunnerScaleSetSession(scaleSetId: int, name: string, attempt: nat -> Result<Session, ServiceError>)
    returns (session: Result<Session, SetupError>, calls: seq<ServiceCall>)
    ensures (|calls|, session) == SessionOutcome(attempt)
    ensures forall i :: 0 <= i < |calls| ==> calls[i] == CreateMessageSession(scaleSetId, name)
  {
    var retries := 3;
    var i := 0;
    calls := [];
    while i < retries
      invariant 0 <= i <= 2 && retries == 3 - i
      invariant forall j :: 0 <= j < i ==> attempt(j).Err?
      invariant |calls| == i
      invariant forall j :: 0 <= j < |calls| ==> calls[j] == CreateMessageSession(scaleSetId, name)
      decreases retries - i
    {
      calls := calls + [CreateMessageSession(scaleSetId, name)];
      var r := attempt(i);
      if r.Ok? {
        return Ok(r.value), calls;
      }
      retries := retries - 1;
      i := i + 1;
    }
    return Err(SessionCreateFailed(retries)), calls;
  }

  // ---------------------------------------------------------------------------
  // Polling

  /** Why a poll failed: the queue token expired, or anything else. */
  datatype PollError = TokenExpired | PollFailed(cause: ServiceError)

  /**
   * `getMessage`: polls the queue after `lastMessageId`; a message read is then
   * deleted (the deferred `deleteMessage`), and whether that delete failed,
   * `deleted`, is only logged. Returns the calls made and the poll's answer.
   */
  function GetMessage(url: string, token: string, lastMessageId: int, polled: Result<Option<Message>, PollError>, deleted: Option<ServiceError>)
    : (r: (seq<ServiceCall>, Result<Option<Message>, PollError>))
    ensures r.1 == polled
    ensures |r.0| == (if polled.Ok? && polled.value.Some? then 2 else 1)
    ensures r.0[0] == GetMessageCall(url, token, lastMessageId)
    ensures |r.0| == 2 ==> r.0[1] == DeleteMessageCall(url, token, polled.value.value.messageId)
  {
    var get := GetMessageCall(url, token, lastMessageId);
    match polled
    case Err(e) => ([get], Err(e))
    case Ok(None) => ([get], Ok(None))
    case Ok(Some(m)) => ([get, DeleteMessageCall(url, token, m.messageId)], Ok(Some(m)))
  }

  // ---------------------------------------------------------------------------
  // The builder

  /** The listener's setup, one step per method, each skipped once an earlier step failed. */
  class Builder {
    const runnerEnterprise: string
    const runnerOrg: string
    const runnerRepository: string
    const runnerScaleSetName: string

    var actionsAdminConnection: Option<AdminConnection>
    var actionsServiceClient: Option<ActionsClient>
    var runnerScaleSet: Option<RunnerScaleSet>
    var session: Option<Session>
    /** The first error met by a building step. */
    var err: Option<SetupError>
    /** The Actions service calls made so far, in order. */
    var calls: seq<ServiceCall>

    constructor (enterprise: string, org: string, repo: string, scaleSetName: string)
      ensures runnerEnterprise == enterprise && runnerOrg == org && runnerRepository == repo && runnerScaleSetName == scaleSetName
      ensures actionsAdminConnection == None && actionsServiceClient == None && runnerScaleSet == None && session == None
      ensures err == None && calls == []
    {
      runnerEnterprise, runnerOrg, runnerRepository, runnerScaleSetName := enterprise, org, repo, scaleSetName;
      actionsAdminConnection, actionsServiceClient, runnerScaleSet, session := None, None, None, None;
      err, calls := None, [];
    }

    /** `createAdminConn`: the first step, always made; a failure is recorded as the builder's error. */
    method CreateAdminConn(response: Result<AdminConnection, ServiceError>)
      modifies this
      ensures calls == old(calls) + [GetAdminConnection(runnerEnterprise, runnerOrg, runnerRepository)]
      ensures response.Ok? ==> actionsAdminConnection == Some(response.value) && err == old(err)
      ensures response.Err? ==> actionsAdminConnection == None && err == Some(AdminConnectionFailed(response.error))
      ensures actionsServiceClient == old(actionsServiceClient) && runnerScaleSet == old(runnerScaleSet) && session == old(session)
    {
      calls := calls + [GetAdminConnection(runnerEnterprise, runnerOrg, runnerRepository)];
      match response
      case Ok(conn) =>
        actionsAdminConnection := Some(conn);
      case Err(e) =>
        actionsAdminConnection := None;
        err := Some(AdminConnectionFailed(e));
    }

    /** `createServiceClient`: builds the client from the admin connection, unless a step already failed. */
    method CreateServiceClient()
      requires err.None? ==> actionsAdminConnection.Some?
      modifies this
      ensures old(err).Some? ==> actionsServiceClient == old(actionsServiceClient)
      ensures old(err).None? ==> actionsAdminConnection.Some? && actionsServiceClient == Some(NewActionsClient(actionsAdminConnection.value))
      ensures err == old(err) && calls == old(calls) && actionsAdminConnection == old(actionsAdminConnection)
      ensures runnerScaleSet == old(runnerScaleSet) && session == old(session)
    {
      if err.Some? {
        return;
      }
      actionsServiceClient := Some(NewActionsClient(actionsAdminConnection.value));
    }

    /** `createRunnerScaleSet` as a step: unless a step already failed, gets or replaces/creates the scale set and records the outcome. */
    method CreateRunnerScaleSet(lookup: Result<Option<RunnerScaleSet>, ServiceError>, write: Result<RunnerScaleSet, ServiceError>)
      modifies this
      ensures old(err).Some? ==> err == old(err) && calls == old(calls) && runnerScaleSet == old(runnerScaleSet)
      ensures old(err).None? ==>
        var (made, result) := UpsertRunnerScaleSet(runnerScaleSetName, lookup, write);
        && calls == old(calls) + made
        && runnerScaleSet == (if result.Ok? then Some(result.value) else None)
        && err == (if result.Err? then Some(result.error) else None)
      ensures actionsAdminConnection == old(actionsAdminConnection) && actionsServiceClient == old(actionsServiceClient) && session == old(session)
    {
      if err.Some? {
        return;
      }
      var (made, result) := UpsertRunnerScaleSet(runnerScaleSetName, lookup, write);
      calls := calls + made;
      match result
      case Ok(s) =>
        runnerScaleSet, err := Some(s), None;
      case Err(e) =>
        runnerScaleSet, err := None, Some(e);
    }

    /**
     * `createSession`: returns the recorded error if a step failed. Otherwise
     * reads the host name (`hostname`; on failure the name is "" and the error
     * recorded is immediately overwritten) and creates the message session owned
     * by that name for the scale set.
     */
    method CreateSession(hostname: Result<string, ServiceError>, attempt: nat -> Result<Session, ServiceError>) returns (e: Option<SetupError>)
      requires err.None? ==> runnerScaleSet.Some?
      modifies this
      ensures old(err).Some? ==> e == old(err) && err == old(err) && calls == old(calls) && session == old(session)
      ensures old(err).None? ==>
        var owner := if hostname.Ok? then hostname.value else "";
        var (n, result) := SessionOutcome(attempt);
        && old(runnerScaleSet).Some?
        && |calls| == |old(calls)| + n && calls[..|old(calls)|] == old(calls)
        && (forall i :: |old(calls)| <= i < |calls| ==> calls[i] == CreateMessageSession(old(runnerScaleSet).value.id, owner))
        && session == (if result.Ok? then Some(result.value) else None)
        && err == (if result.Err? then Some(result.error) else None)
      ensures e == err
      ensures actionsAdminConnection == old(actionsAdminConnection) && actionsServiceClient == old(actionsServiceClient)
      ensures runnerScaleSet == old(runnerScaleSet)
    {
      if err.Some? {
        return err;
      }
      var hostName := "";
      if hostname.Ok? {
        hostName := hostname.value;
      } else {
        err := Some(HostnameFailed(hostname.error));
      }
      var result, made := CreateRunnerScaleSetSession(runnerScaleSet.value.id, hostName, attempt);
      calls := calls + made;
      if result.Ok? {
        session, err := Some(result.value), None;
      } else {
        session, err := None, Some(result.error);
      }
      return err;
    }

    /** `destroy`: deletes the builder's message session; `response` is the service's answer. */
    method Destroy(response: Option<ServiceError>) returns (e: Option<ServiceError>)
      requires session.Some? && actionsServiceClient.Some?
      modifies this
      ensures calls == old(calls) + [DeleteMessageSession(old(session).value.scaleSetId, old(session).value.sessionId)]
      ensures e == response
      ensures actionsAdminConnection == old(actionsAdminConnection) && actionsServiceClient == old(actionsServiceClient)
      ensures runnerScaleSet == old(runnerScaleSet) && session == old(session) && err == old(err)
    {
      calls := calls + [DeleteMessageSession(session.value.scaleSetId, session.value.sessionId)];
      return response;
    }

    /** Whether setup left everything the message loop needs in place. */
    predicate Ready()
      reads this
    {
      err.None? && actionsAdminConnection.Some? && actionsServiceClient.Some? && runnerScaleSet.Some? && session.Some?
    }
  }

  // ---------------------------------------------------------------------------
  // The message loop

  /** A call of one of the opaque job handlers, or the log line an unknown message type gets. */
  datatype Dispatch =
    | MaybeAcquireJob(client: ActionsClient, session: Session, message: Message)
    | HandleJobAssignment(client: ActionsClient, scaleSet: RunnerScaleSet, message: Message)
    | NoopHandleJobCompletion(message: Message)
    | UnknownMessageType(message: Message)

  /** What the loop reads but never changes: the admin connection and session the builder made, and the scope. */
  datatype LoopContext = LoopContext(
    staleAdminConnection: AdminConnection,
    builderSession: Session,
    scaleSet: RunnerScaleSet,
    enterprise: string,
    org: string,
    repo: string)

  /** The outside world's answers in iteration k of the loop. */
  datatype LoopEnv = LoopEnv(
    cancelled: nat -> bool,
    polled: nat -> Result<Option<Message>, PollError>,
    deleted: nat -> Option<ServiceError>,
    adminConnection: nat -> Result<AdminConnection, ServiceError>,
    refreshed: nat -> (Option<Session>, Option<ServiceError>))

  /**
   * What the loop changes: its cursor and local session, the builder's admin
   * connection, the client it shares with the builder, and the traces of
   * service calls and dispatches.
   */
  datatype LoopState = LoopState(
    lastMessageId: int,
    session: Option<Session>,
    adminConnection: Option<AdminConnection>,
    client: ActionsClient,
    calls: seq<ServiceCall>,
    dispatched: seq<Dispatch>)

  /** How the loop ends: it returns nil on cancellation, or dereferences a nil session. */
  datatype LoopExit = Stopped | NilSessionPanic

  datatype StepResult = Exit(exit: LoopExit, final: LoopState) | Next(next: LoopState)

  /** The dispatch of a message by its exact type string; the job-available handler is given the builder's session. */
  function DispatchFor(builderSession: Session, scaleSet: RunnerScaleSet, client: ActionsClient, m: Message): (d: Dispatch)
    ensures d.message == m
    ensures d.MaybeAcquireJob? <==> m.messageType == "RunnerScaleSetJobAvailable"
    ensures d.HandleJobAssignment? <==> m.messageType == "RunnerScaleSetJobAssigned"
    ensures d.NoopHandleJobCompletion? <==> m.messageType == "RunnerScaleSetJobCompleted"
    ensures d.MaybeAcquireJob? ==> d.client == client && d.session == builderSession
    ensures d.HandleJobAssignment? ==> d.client == client && d.scaleSet == scaleSet
  {
    if m.messageType == "RunnerScaleSetJobAvailable" then MaybeAcquireJob(client, builderSession, m)
    else if m.messageType == "RunnerScaleSetJobAssigned" then HandleJobAssignment(client, scaleSet, m)
    else if m.messageType == "RunnerScaleSetJobCompleted" then NoopHandleJobCompletion(m)
    else UnknownMessageType(m)
  }

  /**
   * One iteration of `runAndNotify` that polls, with the local session `s`. A poll error
   * other than token expiry changes nothing but the call trace. Token expiry
   * fetches a new admin connection into the builder, then (on success) copies
   * the admin token of the connection captured before the loop into the client
   * and replaces the local session by whatever the refresh call returns. A
   * message moves the cursor to its id and is dispatched once.
   */
  function Advance(ctx: LoopContext, env: LoopEnv, k: nat, st: LoopState, s: Session): (next: LoopState)
    ensures |next.calls| > |st.calls|
    ensures next.calls[|st.calls|] == GetMessageCall(s.messageQueueUrl, s.messageQueueAccessToken, st.lastMessageId)
    ensures env.polled(k).Err? ==> next.lastMessageId == st.lastMessageId && next.dispatched == st.dispatched
    ensures env.polled(k).Err? && env.polled(k).error.PollFailed? ==> next.session == st.session && next.adminConnection == st.adminConnection && next.client == st.client
    ensures env.polled(k) == Ok(None) ==> next.lastMessageId == st.lastMessageId && next.dispatched == st.dispatched && next.session == st.session
    ensures env.polled(k).Ok? && env.polled(k).value.Some? ==>
      var m := env.polled(k).value.value;
      && next.lastMessageId == m.messageId
      && next.dispatched == st.dispatched + [DispatchFor(ctx.builderSession, ctx.scaleSet, st.client, m)]
      && next.session == st.session && next.client == st.client
    ensures env.polled(k) == Err(TokenExpired) ==>
      var connCalls := st.calls + [GetMessageCall(s.messageQueueUrl, s.messageQueueAccessToken, st.lastMessageId),
                                   GetAdminConnection(ctx.enterprise, ctx.org, ctx.repo)];
      && next.lastMessageId == st.lastMessageId && next.dispatched == st.dispatched
      && (env.adminConnection(k).Err? ==>
            && next.adminConnection == None && next.calls == connCalls
            && next.session == st.session && next.client == st.client)
      && (env.adminConnection(k).Ok? ==>
            && next.adminConnection == Some(env.adminConnection(k).value)
            && next.client == st.client.(adminToken := ctx.staleAdminConnection.adminToken)
            && next.calls == connCalls + [RefreshMessageSession(s.scaleSetId, s.sessionId)]
            && next.session == env.refreshed(k).0)
  {
    var (made, polled) := GetMessage(s.messageQueueUrl, s.messageQueueAccessToken, st.lastMessageId, env.polled(k), env.deleted(k));
    var polledState := st.(calls := st.calls + made);
    match polled
    case Err(PollFailed(_)) => polledState
    case Err(TokenExpired) =>
      var connState := polledState.(calls := polledState.calls + [GetAdminConnection(ctx.enterprise, ctx.org, ctx.repo)]);
      (match env.adminConnection(k)
       case Err(_) => connState.(adminConnection := None)
       case Ok(conn) =>
         connState.(
           adminConnection := Some(conn),
           client := connState.client.(adminToken := ctx.staleAdminConnection.adminToken),
           calls := connState.calls + [RefreshMessageSession(s.scaleSetId, s.sessionId)],
           session := env.refreshed(k).0))
    case Ok(None) => polledState
    case Ok(Some(m)) =>
      polledState.(
        lastMessageId := m.messageId,
        dispatched := polledState.dispatched + [DispatchFor(ctx.builderSession, ctx.scaleSet, polledState.client, m)])
  }

  /** One iteration of `runAndNotify`: cancellation ends the loop, a nil session panics, otherwise the loop polls. */
  function Step(ctx: LoopContext, env: LoopEnv, k: nat, st: LoopState): (r: StepResult)
    ensures env.cancelled(k) ==> r == Exit(Stopped, st)
    ensures !env.cancelled(k) && st.session.None? ==> r == Exit(NilSessionPanic, st)
    ensures !env.cancelled(k) && st.session.Some? ==> r == Next(Advance(ctx, env, k, st, st.session.value))
  {
    if env.cancelled(k) then Exit(Stopped, st)
    else if st.session.None? then Exit(NilSessionPanic, st)
    else Next(Advance(ctx, env, k, st, st.session.value))
  }

  /** The loop from iteration k on, up to the iteration at which it ends; `stop` is an iteration at which it is cancelled. */
  ghost function RunFrom(ctx: LoopContext, env: LoopEnv, k: nat, st: LoopState, stop: nat): (LoopExit, LoopState)
    requires k <= stop && env.cancelled(stop)
    decreases stop - k
  {
    match Step(ctx, env, k, st)
    case Exit(e, final) => (e, final)
    case Next(next) => RunFrom(ctx, env, k + 1, next, stop)
  }

  /** A step that goes on leaves the rest of the run to the next iteration. */
  lemma RunFromNext(ctx: LoopContext, env: LoopEnv, k: nat, st: LoopState, next: LoopState, stop: nat)
    requires k <= stop && env.cancelled(stop)
    requires Step(ctx, env, k, st) == Next(next)
    ensures k + 1 <= stop
    ensures RunFrom(ctx, env, k, st, stop) == RunFrom(ctx, env, k + 1, next, stop)
  {
  }

  /** A step that ends the run is its last. */
  lemma RunFromExit(ctx: LoopContext, env: LoopEnv, k: nat, st: LoopState, stop: nat)
    requires k <= stop && env.cancelled(stop)
    requires Step(ctx, env, k, st).Exit?
    ensures RunFrom(ctx, env, k, st, stop) == (Step(ctx, env, k, st).exit, st)
  {
  }

  /** While the client holds the captured admin token, a run never changes the client: a fetched token never reaches it. */
  lemma {:induction false} RunKeepsClient(ctx: LoopContext, env: LoopEnv, k: nat, st: LoopState, stop: nat)
    requires k <= stop && env.cancelled(stop)
    requires st.client.adminToken == ctx.staleAdminConnection.adminToken
    ensures RunFrom(ctx, env, k, st, stop).1.client == st.client
    decreases stop - k
  {
    match Step(ctx, env, k, st)
    case Exit(_, _) =>
    case Next(next) =>
      assert next.client == st.client;
      RunKeepsClient(ctx, env, k + 1, next, stop);
  }

  /** The number of message deletions in a call trace. */
  function Deletions(calls: seq<ServiceCall>): nat
  {
    if |calls| == 0 then 0 else Deletions(calls[..|calls| - 1]) + (if calls[|calls| - 1].DeleteMessageCall? then 1 else 0)
  }

  lemma {:induction false} DeletionsAppend(a: seq<ServiceCall>, b: seq<ServiceCall>)
    ensures Deletions(a + b) == Deletions(a) + Deletions(b)
    decreases |b|
  {
    if |b| > 0 {
      assert (a + b)[..|a + b| - 1] == a + b[..|b| - 1];
      DeletionsAppend(a, b[..|b| - 1]);
    } else {
      assert a + b == a;
    }
  }

  /** One poll deletes a message exactly when it reads one. */
  lemma PollDeletions(url: string, token: string, lastMessageId: int, polled: Result<Option<Message>, PollError>, deleted: Option<ServiceError>)
    ensures Deletions(GetMessage(url, token, lastMessageId, polled, deleted).0) == (if polled.Ok? && polled.value.Some? then 1 else 0)
  {
    var made := GetMessage(url, token, lastMessageId, polled, deleted).0;
    assert Deletions(made[..1]) == 0 by {
      assert made[..1][..0] == [];
    }
    if |made| == 2 {
      assert made[..|made| - 1] == made[..1];
    } else {
      assert made == made[..1];
    }
  }

  /** One step that does not end the loop deletes a message exactly when it dispatches one, and then moves the cursor to it. */
  lemma StepDeletes(ctx: LoopContext, env: LoopEnv, k: nat, st: LoopState)
    requires Step(ctx, env, k, st).Next?
    ensures var next := Step(ctx, env, k, st).next;
      && (next.dispatched == st.dispatched || (|next.dispatched| == |st.dispatched| + 1 && next.dispatched[..|st.dispatched|] == st.dispatched))
      && Deletions(next.calls) == Deletions(st.calls) + |next.dispatched| - |st.dispatched|
      && next.lastMessageId == (if next.dispatched == st.dispatched then st.lastMessageId
                                else next.dispatched[|st.dispatched|].message.messageId)
  {
    var s := st.session.value;
    var (made, polled) := GetMessage(s.messageQueueUrl, s.messageQueueAccessToken, st.lastMessageId, env.polled(k), env.deleted(k));
    DeletionsAppend(st.calls, made);
    PollDeletions(s.messageQueueUrl, s.messageQueueAccessToken, st.lastMessageId, env.polled(k), env.deleted(k));
    if polled.Err? && polled.error.TokenExpired? {
      var connCalls := st.calls + made + [GetAdminConnection(ctx.enterprise, ctx.org, ctx.repo)];
      DeletionsAppend(st.calls + made, [GetAdminConnection(ctx.enterprise, ctx.org, ctx.repo)]);
      DeletionsAppend(connCalls, [RefreshMessageSession(s.scaleSetId, s.sessionId)]);
    }
  }

  /**
   * What a run keeps relative to the state `st0` it started from: it only
   * appends dispatches, every job-available dispatch it appends carries the
   * builder's session, it deletes exactly one message per dispatch, and the
   * cursor is the id of the last message it dispatched.
   */
  ghost predicate RunInv(ctx: LoopContext, st0: LoopState, st: LoopState)
  {
    && |st0.dispatched| <= |st.dispatched| && st.dispatched[..|st0.dispatched|] == st0.dispatched
    && (forall i :: |st0.dispatched| <= i < |st.dispatched| && st.dispatched[i].MaybeAcquireJob? ==>
          st.dispatched[i].session == ctx.builderSession)
    && Deletions(st.calls) - Deletions(st0.calls) == |st.dispatched| - |st0.dispatched|
    && st.lastMessageId == (if |st.dispatched| == |st0.dispatched| then st0.lastMessageId
                            else st.dispatched[|st.dispatched| - 1].message.messageId)
  }

  lemma RunInvStart(ctx: LoopContext, st: LoopState)
    ensures RunInv(ctx, st, st)
  {
    assert st.dispatched[..|st.dispatched|] == st.dispatched;
  }

  /** A step that goes on keeps the invariant. */
  lemma StepKeepsRunInv(ctx: LoopContext, env: LoopEnv, k: nat, st0: LoopState, st: LoopState)
    requires RunInv(ctx, st0, st)
    requires Step(ctx, env, k, st).Next?
    ensures RunInv(ctx, st0, Step(ctx, env, k, st).next)
  {
    var next := Step(ctx, env, k, st).next;
    StepDeletes(ctx, env, k, st);
    var n0, n1 := |st0.dispatched|, |st.dispatched|;
    if next.dispatched != st.dispatched {
      var m := env.polled(k).value.value;
      assert next.dispatched == st.dispatched + [DispatchFor(ctx.builderSession, ctx.scaleSet, st.client, m)];
      assert next.dispatched[..n0] == st.dispatched[..n0];
      assert forall i :: n0 <= i < n1 ==> next.dispatched[i] == st.dispatched[i];
    }
  }

  /** A property of loop states that every iteration that goes on preserves. */
  ghost predicate StepsPreserve(ctx: LoopContext, env: LoopEnv, inv: LoopState -> bool)
  {
    forall j: nat, s: LoopState :: inv(s) && Step(ctx, env, j, s).Next? ==> inv(Step(ctx, env, j, s).next)
  }

  /** Induction over a run: a property every iteration preserves holds of the state the run ends in. */
  lemma {:induction false} RunPreserves(ctx: LoopContext, env: LoopEnv, k: nat, st: LoopState, stop: nat, inv: LoopState -> bool)
    requires k <= stop && env.cancelled(stop)
    requires StepsPreserve(ctx, env, inv) && inv(st)
    ensures inv(RunFrom(ctx, env, k, st, stop).1)
    decreases stop - k
  {
    var r := Step(ctx, env, k, st);
    if r.Exit? {
      RunFromExit(ctx, env, k, st, stop);
    } else {
      RunFromNext(ctx, env, k, st, r.next, stop);
      RunPreserves(ctx, env, k + 1, r.next, stop, inv);
    }
  }

  /** The dispatch invariant holds of the state a run ends in. */
  lemma RunKeepsRunInv(ctx: LoopContext, env: LoopEnv, k: nat, st: LoopState, stop: nat)
    requires k <= stop && env.cancelled(stop)
    ensures RunInv(ctx, st, RunFrom(ctx, env, k, st, stop).1)
  {
    var inv := s => RunInv(ctx, st, s);
    forall j: nat, s: LoopState | inv(s) && Step(ctx, env, j, s).Next?
      ensures inv(Step(ctx, env, j, s).next)
    {
      StepKeepsRunInv(ctx, env, j, st, s);
    }
    RunInvStart(ctx, st);
    RunPreserves(ctx, env, k, st, stop, inv);
  }

  /** Every job-available message of a run is handed the builder's session, never a refreshed one. */
  lemma RunAcquiresWithBuilderSession(ctx: LoopContext, env: LoopEnv, k: nat, st: LoopState, stop: nat)
    requires k <= stop && env.cancelled(stop)
    ensures var final := RunFrom(ctx, env, k, st, stop).1;
      && |st.dispatched| <= |final.dispatched| && final.dispatched[..|st.dispatched|] == st.dispatched
      && forall i :: |st.dispatched| <= i < |final.dispatched| && final.dispatched[i].MaybeAcquireJob? ==>
           final.dispatched[i].session == ctx.builderSession
  {
    RunKeepsRunInv(ctx, env, k, st, stop);
  }

  /** A run deletes exactly as many messages as it dispatches. */
  lemma RunDeletesWhatItDispatches(ctx: LoopContext, env: LoopEnv, k: nat, st: LoopState, stop: nat)
    requires k <= stop && env.cancelled(stop)
    ensures var final := RunFrom(ctx, env, k, st, stop).1;
      && |st.dispatched| <= |final.dispatched|
      && Deletions(final.calls) - Deletions(st.calls) == |final.dispatched| - |st.dispatched|
  {
    RunKeepsRunInv(ctx, env, k, st, stop);
  }

  /** A run leaves the cursor at the id of the last message it dispatched, or where it was if it dispatched none. */
  lemma RunCursorFollowsDispatches(ctx: LoopContext, env: LoopEnv, k: nat, st: LoopState, stop: nat)
    requires k <= stop && env.cancelled(stop)
    ensures var final := RunFrom(ctx, env, k, st, stop).1;
      && |st.dispatched| <= |final.dispatched|
      && final.lastMessageId == (if |final.dispatched| == |st.dispatched| then st.lastMessageId
                                 else final.dispatched[|final.dispatched| - 1].message.messageId)
  {
    RunKeepsRunInv(ctx, env, k, st, stop);
  }

  /** A run whose session refreshes never come back nil ends by cancellation, returning nil. */
  lemma {:induction false} RunStopsCleanly(ctx: LoopContext, env: LoopEnv, k: nat, st: LoopState, stop: nat)
    requires k <= stop && env.cancelled(stop)
    requires st.session.Some?
    requires forall j :: k <= j ==> env.refreshed(j).0.Some?
    ensures RunFrom(ctx, env, k, st, stop).0 == Stopped
    decreases stop - k
  {
    match Step(ctx, env, k, st)
    case Exit(_, _) =>
    case Next(next) =>
      assert env.refreshed(k).0.Some?;
      RunStopsCleanly(ctx, env, k + 1, next, stop);
  }

  /** `messageLoop`: the builder whose fields the loop reads and updates, and the dispatches it made. */
  class MessageLoop {
    const b: Builder
    var dispatched: seq<Dispatch>

    constructor (b: Builder)
      ensures this.b == b && dispatched == []
    {
      this.b := b;
      dispatched := [];
    }

    /** One iteration of the loop that neither ends it nor finds the session nil, done on the builder in place. */
    method PollOnce(ctx: LoopContext, env: LoopEnv, k: nat, lastMessageId: int, s: Session) returns (nextId: int, session: Option<Session>)
      requires b.actionsServiceClient.Some? && !env.cancelled(k)
      requires ctx.enterprise == b.runnerEnterprise && ctx.org == b.runnerOrg && ctx.repo == b.runnerRepository
      modifies this, b
      ensures b.actionsServiceClient.Some?
      ensures b.session == old(b.session) && b.runnerScaleSet == old(b.runnerScaleSet) && b.err == old(b.err)
      ensures Step(ctx, env, k, LoopState(lastMessageId, Some(s), old(b.actionsAdminConnection), old(b.actionsServiceClient).value, old(b.calls), old(dispatched)))
           == Next(LoopState(nextId, session, b.actionsAdminConnection, b.actionsServiceClient.value, b.calls, dispatched))
      ensures env.polled(k) == Err(TokenExpired) ==>
        var connCalls := old(b.calls) + [GetMessageCall(s.messageQueueUrl, s.messageQueueAccessToken, lastMessageId),
                                         GetAdminConnection(b.runnerEnterprise, b.runnerOrg, b.runnerRepository)];
        && nextId == lastMessageId && dispatched == old(dispatched)
        && (env.adminConnection(k).Err? ==>
              && b.actionsAdminConnection == None && b.calls == connCalls
              && session == Some(s) && b.actionsServiceClient == old(b.actionsServiceClient))
        && (env.adminConnection(k).Ok? ==>
              && b.actionsAdminConnection == Some(env.adminConnection(k).value)
              && b.actionsServiceClient == Some(old(b.actionsServiceClient).value.(adminToken := ctx.staleAdminConnection.adminToken))
              && b.calls == connCalls + [RefreshMessageSession(s.scaleSetId, s.sessionId)]
              && session == env.refreshed(k).0)
    {
      nextId, session := lastMessageId, Some(s);
      var client := b.actionsServiceClient.value;
      var (made, polled) := GetMessage(s.messageQueueUrl, s.messageQueueAccessToken, lastMessageId, env.polled(k), env.deleted(k));
      b.calls := b.calls + made;
      if polled.Err? {
        if polled.error.TokenExpired? {
          b.calls := b.calls + [GetAdminConnection(b.runnerEnterprise, b.runnerOrg, b.runnerRepository)];
          var conn := env.adminConnection(k);
          if conn.Ok? {
            b.actionsAdminConnection := Some(conn.value);
            b.actionsServiceClient := Some(client.(adminToken := ctx.staleAdminConnection.adminToken));
            b.calls := b.calls + [RefreshMessageSession(s.scaleSetId, s.sessionId)];
            session := env.refreshed(k).0;
          } else {
            b.actionsAdminConnection := None;
          }
        }
      } else if polled.value.Some? {
        var m := polled.value.value;
        nextId := m.messageId;
        dispatched := dispatched + [DispatchFor(ctx.builderSession, ctx.scaleSet, client, m)];
      }
    }

    /**
     * `runAndNotify`: polls until cancelled, as `RunFrom` describes, starting
     * from cursor 0 and the builder's session. `stop` is an iteration at which
     * the context is cancelled.
     */
    method RunAndNotify(env: LoopEnv, ghost stop: nat) returns (exit: LoopExit)
      requires b.Ready() && env.cancelled(stop)
      modifies this, b
      ensures var ctx := LoopContext(old(b.actionsAdminConnection).value, old(b.session).value, old(b.runnerScaleSet).value,
                                     b.runnerEnterprise, b.runnerOrg, b.runnerRepository);
        var init := LoopState(0, old(b.session), old(b.actionsAdminConnection), old(b.actionsServiceClient).value, old(b.calls), old(dispatched));
        var (e, final) := RunFrom(ctx, env, 0, init, stop);
        && exit == e
        && b.actionsAdminConnection == final.adminConnection
        && b.actionsServiceClient == Some(final.client)
        && b.calls == final.calls
        && dispatched == final.dispatched
      ensures b.session == old(b.session) && b.runnerScaleSet == old(b.runnerScaleSet) && b.err == old(b.err)
    {
      var ctx := LoopContext(b.actionsAdminConnection.value, b.session.value, b.runnerScaleSet.value, b.runnerEnterprise, b.runnerOrg, b.runnerRepository);
      var session := b.session;
      ghost var init := LoopState(0, session, b.actionsAdminConnection, b.actionsServiceClient.value, b.calls, dispatched);
      var lastMessageId := 0;
      var k: nat := 0;
      while true
        invariant k <= stop
        invariant b.actionsServiceClient.Some?
        invariant b.session == old(b.session) && b.runnerScaleSet == old(b.runnerScaleSet) && b.err == old(b.err)
        invariant RunFrom(ctx, env, k, LoopState(lastMessageId, session, b.actionsAdminConnection, b.actionsServiceClient.value, b.calls, dispatched), stop)
               == RunFrom(ctx, env, 0, init, stop)
        decreases stop - k
      {
        ghost var cur := LoopState(lastMessageId, session, b.actionsAdminConnection, b.actionsServiceClient.value, b.calls, dispatched);
        if env.cancelled(k) {
          RunFromExit(ctx, env, k, cur, stop);
          return Stopped;
        }
        if session.None? {
          RunFromExit(ctx, env, k, cur, stop);
          return NilSessionPanic;
        }
        lastMessageId, session := PollOnce(ctx, env, k, lastMessageId, session.value);
        RunFromNext(ctx, env, k, cur, LoopState(lastMessageId, session, b.actionsAdminConnection, b.actionsServiceClient.value, b.calls, dispatched), stop);
        k := k + 1;
      }
    }
  }

  // ---------------------------------------------------------------------------
  // The listener

  /** The outside world's answers during setup: admin connection, scale-set lookup and write, host name, session attempts. */
  datatype SetupEnv = SetupEnv(
    adminConnection: Result<AdminConnection, ServiceError>,
    lookup: Result<Option<RunnerScaleSet>, ServiceError>,
    write: Result<RunnerScaleSet, ServiceError>,
    hostname: Result<string, ServiceError>,
    attempt: nat -> Result<Session, ServiceError>)

  datatype RunError = ClientCreationFailed(cause: ServiceError) | SetupFailed(setupError: SetupError)

  /** How `Run` ends: it returns nil, returns an error, or panics on a nil session. */
  datatype RunOutcome = ReturnedNil | ReturnedError(error: RunError) | Panicked

  /**
   * What the builder chain of `Run` comes to: the calls it makes and, unless a
   * step fails, the admin connection, scale set and session it builds. The
   * first failing step's error is the result; a host-name failure is never
   * reported, because session creation overwrites it.
   */
  function SetupOutcome(c: Config, setup: SetupEnv): (r: (seq<ServiceCall>, Result<(AdminConnection, RunnerScaleSet, Session), SetupError>))
    ensures |r.0| >= 1 && r.0[0] == GetAdminConnection(c.runnerEnterprise, c.runnerOrg, c.runnerRepository)
    ensures forall i :: 0 <= i < |r.0| ==> !r.0[i].GetMessageCall? && !r.0[i].DeleteMessageSession?
    ensures r.1.Err? <==>
      setup.adminConnection.Err? || UpsertRunnerScaleSet(c.runnerScaleSetName, setup.lookup, setup.write).1.Err? || SessionOutcome(setup.attempt).1.Err?
    ensures r.1.Err? ==> !r.1.error.HostnameFailed?
    ensures setup.adminConnection.Err? ==> r.1 == Err(AdminConnectionFailed(setup.adminConnection.error)) && |r.0| == 1
    ensures setup.adminConnection.Ok? ==>
      var (upsertCalls, upserted) := UpsertRunnerScaleSet(c.runnerScaleSetName, setup.lookup, setup.write);
      && |r.0| > |upsertCalls| && r.0[1..|upsertCalls| + 1] == upsertCalls
      && (upserted.Err? ==> r.1 == Err(upserted.error) && |r.0| == |upsertCalls| + 1)
      && (upserted.Ok? ==>
            var owner := if setup.hostname.Ok? then setup.hostname.value else "";
            var (n, created) := SessionOutcome(setup.attempt);
            && |r.0| == 1 + |upsertCalls| + n
            && (forall i :: 1 + |upsertCalls| <= i < |r.0| ==> r.0[i] == CreateMessageSession(upserted.value.id, owner))
            && (created.Err? ==> r.1 == Err(created.error))
            && (created.Ok? ==> r.1 == Ok((setup.adminConnection.value, upserted.value, created.value))))
  {
    var connCalls := [GetAdminConnection(c.runnerEnterprise, c.runnerOrg, c.runnerRepository)];
    match setup.adminConnection
    case Err(e) => (connCalls, Err(AdminConnectionFailed(e)))
    case Ok(admin) =>
      var (upsertCalls, upserted) := UpsertRunnerScaleSet(c.runnerScaleSetName, setup.lookup, setup.write);
      match upserted
      case Err(e) => (connCalls + upsertCalls, Err(e))
      case Ok(scaleSet) =>
        var owner := if setup.hostname.Ok? then setup.hostname.value else "";
        var (n, created) := SessionOutcome(setup.attempt);
        var sessionCalls := seq(n, _ => CreateMessageSession(scaleSet.id, owner));
        (connCalls + upsertCalls + sessionCalls,
         match created
         case Err(e) => Err(e)
         case Ok(session) => Ok((admin, scaleSet, session)))
  }

  /**
   * The builder chain of `Run`: a new builder for the configured scope, then
   * `createAdminConn`, `createServiceClient`, `createRunnerScaleSet` and
   * `createSession`, returning the first error. It comes to `SetupOutcome`.
   */
  method Setup(c: Config, setup: SetupEnv) returns (b: Builder, err: Option<SetupError>)
    ensures fresh(b)
    ensures b.runnerEnterprise == c.runnerEnterprise && b.runnerOrg == c.runnerOrg && b.runnerRepository == c.runnerRepository
    ensures var (made, built) := SetupOutcome(c, setup);
      && b.calls == made
      && err == (if built.Err? then Some(built.error) else None)
      && (built.Ok? ==>
            && b.Ready()
            && b.actionsAdminConnection == Some(built.value.0)
            && b.actionsServiceClient == Some(NewActionsClient(built.value.0))
            && b.runnerScaleSet == Some(built.value.1)
            && b.session == Some(built.value.2))
  {
    b := new Builder(c.runnerEnterprise, c.runnerOrg, c.runnerRepository, c.runnerScaleSetName);
    b.CreateAdminConn(setup.adminConnection);
    b.CreateServiceClient();
    ghost var before := b.calls;
    b.CreateRunnerScaleSet(setup.lookup, setup.write);
    ghost var upserted := b.calls;
    err := b.CreateSession(setup.hostname, setup.attempt);
    ghost var (made, built) := SetupOutcome(c, setup);
    assert b.calls == made by {
      if setup.adminConnection.Ok? && b.runnerScaleSet.Some? {
        assert |b.calls| == |made|;
        forall i | 0 <= i < |made|
          ensures b.calls[i] == made[i]
        {
          if i >= |upserted| {
          } else if i >= |before| {
            assert b.calls[i] == upserted[i];
          } else {
            assert b.calls[i] == upserted[i] == before[i];
          }
        }
      }
    }
  }

  /**
   * `Run`: creates the GitHub client (`newClient` is its error, if any), runs
   * the setup chain, and on success runs the message loop, deleting the session
   * before it returns or panics. The error of that deletion is dropped.
   */
  method Run(c: Config, newClient: Option<ServiceError>, setup: SetupEnv, env: LoopEnv, destroyed: Option<ServiceError>, ghost stop: nat)
    returns (outcome: RunOutcome, calls: seq<ServiceCall>)
    requires env.cancelled(stop)
    ensures newClient.Some? ==> outcome == ReturnedError(ClientCreationFailed(newClient.value)) && calls == []
    ensures newClient.None? ==>
      (outcome.ReturnedError? <==>
        setup.adminConnection.Err? || UpsertRunnerScaleSet(c.runnerScaleSetName, setup.lookup, setup.write).1.Err? || SessionOutcome(setup.attempt).1.Err?)
    ensures outcome.ReturnedError? ==> forall i :: 0 <= i < |calls| ==> !calls[i].GetMessageCall? && !calls[i].DeleteMessageSession?
    ensures !outcome.ReturnedError? ==>
      var session := SessionOutcome(setup.attempt).1.value;
      && |calls| > 0 && calls[|calls| - 1] == DeleteMessageSession(session.scaleSetId, session.sessionId)
    ensures !outcome.ReturnedError? && (forall j :: env.refreshed(j).0.Some?) ==> outcome == ReturnedNil
    ensures newClient.None? ==>
      var (setupCalls, built) := SetupOutcome(c, setup);
      && (built.Err? ==> outcome == ReturnedError(SetupFailed(built.error)) && calls == setupCalls)
      && (built.Ok? ==>
            var (admin, scaleSet, session) := built.value;
            var ctx := LoopContext(admin, session, scaleSet, c.runnerEnterprise, c.runnerOrg, c.runnerRepository);
            var init := LoopState(0, Some(session), Some(admin), NewActionsClient(admin), setupCalls, []);
            var (exit, final) := RunFrom(ctx, env, 0, init, stop);
            && outcome == (if exit == Stopped then ReturnedNil else Panicked)
            && calls == final.calls + [DeleteMessageSession(session.scaleSetId, session.sessionId)])
  {
    if newClient.Some? {
      return ReturnedError(ClientCreationFailed(newClient.value)), [];
    }
    var b, err := Setup(c, setup);
    if err.Some? {
      return ReturnedError(SetupFailed(err.value)), b.calls;
    }
    var loop := new MessageLoop(b);
    ghost var ctx := LoopContext(b.actionsAdminConnection.value, b.session.value, b.runnerScaleSet.value, b.runnerEnterprise, b.runnerOrg, b.runnerRepository);
    ghost var init := LoopState(0, b.session, b.actionsAdminConnection, b.actionsServiceClient.value, b.calls, []);
    var exit := loop.RunAndNotify(env, stop);
    if forall j :: env.refreshed(j).0.Some? {
      RunStopsCleanly(ctx, env, 0, init, stop);
    }
    var _ := b.Destroy(destroyed);
    outcome := if exit == Stopped then ReturnedNil else Panicked;
    calls := b.calls;
  }
}
