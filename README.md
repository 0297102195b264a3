# actions-runner-controller: the runner-pool scaling core, in Dafny

This project models four pieces of actions-runner-controller and proves what they promise:

- **The runner replica-set reconcile step** (`controllers/runnerreplicaset_controller.go`). It counts the runners a `RunnerReplicaSet` controls. Then it does one of two things:
  - It probes GitHub for each runner's busy, offline or not-found state and deletes up to `available - desired` runners that are not busy.
  - It creates `desired - available` runners from the template with `newRunner`.

  Finally it writes the counts to the status when they changed.
- **The scale-set message listener** (`scalesetlistener/scalesetlistener.go`). It covers:
  - the configuration checks (`Validate`, `anyEmpty`);
  - the builder chain: admin connection, service client, get-then-replace-or-create of the runner scale set, message session with retries;
  - the message loop: it polls the session's queue, refreshes an expired token, moves the cursor and dispatches each message by its type.
- **The GitHub client helpers** (`github/github.go`). They cover:
  - scope resolution (repository over organization over enterprise) and `owner/name` splitting;
  - the registration-token cache key;
  - the token cache with its 30-minute freshness margin and pruning of expired entries;
  - the enterprise API URL;
  - the page loops of `ListRunners` and `ListRunnerGroupRepositoryAccesses`;
  - the query of `listOrganizationRunnerGroupsVisibleToRepo`;
  - the busy/offline/not-found probe `IsRunnerBusy`.
- **The two repeatable flag types** of `main.go`.

Every call out of the process is an *oracle*, which means the server's answer is a parameter of the modelled operation. This covers the Kubernetes API, the GitHub API, the Actions service, the host name and the cancellation of the context. A call that may be answered more than once is given a function from the call's number (`nat`) to its answer. Calls the model makes are recorded, as values, in a trace or in an `Effects` record. That lets contracts state which calls were made, in what order and with what arguments. Time is an `int` in nanoseconds, passed in as `now`.

Unbounded loops are the page loops and the message loop. Each takes a ghost witness of an answer that ends it: a page without a successor or a failed page, or an iteration at which the context is cancelled. Each is proved against a ghost function of the oracle:
- `Gathered` for the page loops;
- `RunFrom` for the message loop, built on the one-iteration function `Step`.

Files, one module each:

| file | module | models |
|---|---|---|
| results.dfy | `Results` | `Option` and `Result` |
| strings.dfy | `Strings` | `strings.Split`/`Join` on one separator, `HasPrefix`/`HasSuffix`/`Contains`/`TrimSuffix`, decimal formatting |
| flags.dfy | `Flags` | `main.go` flag types |
| github.dfy | `GitHub` | `github/github.go` |
| listener.dfy | `ScaleSetListener` | `scalesetlistener/scalesetlistener.go` |
| replicaset.dfy | `RunnerReplicaSetController` | `controllers/runnerreplicaset_controller.go` |

The model keeps these behaviours of the code as written:

- **Delete event names the wrong runner.** The delete loop records the event for the i-th delete with the name of `myRunners[i]`, not of `notBusy[i]`, the runner actually deleted (`controllers/runnerreplicaset_controller.go:178`). See `DeleteRunners` and `DeleteEventNamesWrongRunner`.
- **No preference for offline runners.** A comment in the code (`controllers/runnerreplicaset_controller.go:157`) calls offline runners a great target for scale-down. The code still appends them to `notBusy` in list order like any other target (`:157-169`), and the model follows the code. See `OfflineRunnersAreNotPreferred`.
- **Stale admin token on refresh.** On token expiry the loop stores a fresh admin connection in the builder. It then copies into the client the admin token of the connection it captured before the loop (`scalesetlistener/scalesetlistener.go:151`, `:183`, `:189`). See `Advance` and `RunKeepsClient`.
- **Refreshed session is never dispatched.** The refreshed session replaces only the loop's local session (`:191`); the job-available handler is always given the builder's session (`:206`). See `RunAcquiresWithBuilderSession`.
- **A nil refreshed session panics.** A refresh that fails leaves the local session as the call returned it, possibly nil. The next poll then dereferences nil; this is the loop's exit `NilSessionPanic`.
- **Two session attempts, not three.** `createRunnerScaleSetSession` decrements `retries` inside a loop bounded by `i < retries` (`:275-283`). So it makes at most two attempts, and on failure it reports "1 attempts". See `SessionOutcome`.
- **Host-name error overwritten.** A failed host-name lookup records an error at `:133` that is overwritten at `:136`. The session is then created for the empty owner name, and the setup outcome does not depend on the host name. See `Builder.CreateSession` and `Setup`.
- **Unreachable credentials check.** `Validate` rejects an empty token before it checks for credentials, so its "no credentials" error can never be returned. See `Validate`.
- **The API URL can end in a slash.** `getEnterpriseApiUrl` trims only one trailing slash. Its result therefore ends in "/" exactly when nothing was appended and the path ended in "//". See `ApiPathEndsInSlash`. For every other path, rebuilding from the result changes nothing (`ApiUrlIdempotent`).
- **Registration-token keys can collide.** The cache key is built from the raw scope inputs. It identifies the scope only when the organization and repository hold no comma (`RegistrationKeyInjective`). Without that, two scopes share a key (`RegistrationKeyCollision`).

## Model

| member | source | states |
|---|---|---|
| Flags.StringSlice.Set | main.go:66-69 | appends the value as exactly one new element, verbatim (empty or with commas), keeps the existing elements, and returns no error |
| Flags.CommaSeparatedStringSlice.Set | main.go:415-424 | keeps the existing elements and appends after them exactly the non-empty comma-separated pieces of the value, in order; returns no error |
| Flags.CommaPieces | main.go:416-421 | every piece a value contributes is non-empty and holds no comma |
| Flags.CommaPiecesConcat | main.go:416-421 | a comma splits a value's contribution into that of the text before it followed by that of the text after it, so leading, trailing and repeated commas add nothing |
| Flags.CommaPiecesRoundTrip | main.go:415-424 | non-empty, comma-free items joined by commas contribute exactly those items |
| GitHub.SplitOwnerAndRepo | github/github.go:452-458 | succeeds iff the name holds exactly one "/"; then the two halves are slash-free and joined by "/" give back the name; otherwise the error carries the name |
| GitHub.SplitOwnerAndRepoRoundTrip | github/github.go:452-458 | every slash-free owner and name come back from "owner/name" |
| GitHub.GetEnterpriseOrganizationAndRepo | github/github.go:433-446 | succeeds iff the repository is a valid "owner/name", or it is empty and an organization or enterprise is given; a repository wins (enterprise cleared, organization ignored), then an organization, then an enterprise; the error is the split error or "all empty" |
| GitHub.RegistrationKey | github/github.go:448-450 | the key is labelled organization, then repository, then enterprise, each verbatim, with nothing else in between |
| GitHub.RegistrationKeyInjective | github/github.go:448-450 | with comma-free organization and repository, equal cache keys mean equal organization, repository and enterprise |
| GitHub.RegistrationKeyCollision | github/github.go:448-450 | with a comma in the organization, two different scopes share one cache key |
| GitHub.EndpointFor | github/github.go:377-385 | a scope goes to the repository endpoint iff it names a repository, to the organization endpoint iff it names an owner and no repository, else to the enterprise endpoint |
| GitHub.EndpointPrecedence | github/github.go:434-444 | a resolved "owner/name" with a non-empty name calls the repository endpoint for that owner and name; otherwise an organization calls the organization endpoint, else the enterprise endpoint |
| GitHub.TrailingSlashRepositoryIsOrganizationCall | github/github.go:435-437 | the repository "octo/" resolves to owner "octo" without a repository, so calls go to the organization endpoint |
| GitHub.GetEnterpriseApiUrl | github/github.go:460-476 | a parse failure is returned unchanged; otherwise the result is a URL that starts with scheme "://" host |
| GitHub.ApiPathTargetsApiV3 | github/github.go:465-475 | when the host neither starts with "api." nor contains ".api.", the path ends in "/api/v3", whether it was appended or already there |
| GitHub.ApiPathEndsInSlash | github/github.go:465-475 | the path ends in "/" iff "api/v3/" was not appended and the configured path ended in "//" |
| GitHub.RebuildAfterAppend | github/github.go:468-475 | after "api/v3/" was appended, the result has no trailing slash and feeding it back appends nothing |
| GitHub.RebuildWithoutAppend | github/github.go:465-475 | when nothing is appended and the path does not end in "//", the result loses its trailing slash, and only that |
| GitHub.ApiUrlIdempotent | github/github.go:460-476 | for a path not ending in "//", normalising the normalised URL gives the same URL |
| GitHub.FetchPages | github/github.go:226-241 | it returns the items of every page in order, up to the first response that names no next page or fails, and that failure's error; request j asks for 100 items, at the page number given in response j-1 (none for the first request) |
| GitHub.ListRunners | github/github.go:219-244 | a scope error makes no request; otherwise every request goes to the scope's endpoint with the page loop's options; on a failed page the runners gathered so far are returned with the error |
| GitHub.ListRunnerGroupRepositoryAccesses | github/github.go:291-310 | every request is for the given organization and runner group, with the page loop's options; the same page loop, but a failed page returns no repositories, only the error |
| GitHub.RunnerGroupsVisibleToRepoPath | github/github.go:316-326 | the path starts with the visible-to-repository query, and nothing is added iff there are no options or neither page size nor page is positive; with options, the path is the query followed by the page-size parameter when the size is positive, then the page parameter when the page is positive |
| GitHub.QueryParamReadBack | github/github.go:320-324 | a parameter is "&name=" followed by decimal digits that read back as its value |
| GitHub.RunnerGroupsPathEndsWithLastOption | github/github.go:318-325 | a positive page number is the last parameter; otherwise a positive page size is |
| GitHub.FindRunner | github/github.go:500-509 | the first runner with the name gives its busy flag, with an offline error iff its status is "offline"; no such runner gives (false, not found) |
| GitHub.IsRunnerBusy | github/github.go:494-510 | a failed listing gives (false, that error); otherwise the listed runners are searched as FindRunner does |
| GitHub.Unexpired | github/github.go:347-351 | keeps exactly the entries that have not expired (expiry not before now), each unchanged |
| GitHub.UnexpiredTwice | github/github.go:343-352 | two clean-ups equal one clean-up at the later time |
| GitHub.StoredTokenIsServed | github/github.go:169-191 | a token stored at `now` that is still fresh later survives the clean-up that follows the store, unchanged |
| GitHub.Client.Cleanup | github/github.go:343-352 | the cache becomes exactly every entry that has not expired, unchanged |
| GitHub.Client.GetRegistrationToken | github/github.go:149-195 | a cached token fresh for 30 more minutes is served with no API call and no change; a bad scope returns the cached entry (stale or absent) with the error; otherwise the scope's endpoint is called once, and the token is cached (then the cache cleaned) only after a 201 answer; a create error or another status leaves the cache unchanged and returns no token |
| ScaleSetListener.AnyEmpty | scalesetlistener/scalesetlistener.go:313-321 | true iff the first value or any other value is the empty string |
| ScaleSetListener.Validate | scalesetlistener/scalesetlistener.go:31-45 | accepts iff repository, organization, token and scale-set name are all non-empty; a rejection is always "not provided" with the four values, never "no credentials" |
| ScaleSetListener.NewActionsClient | scalesetlistener/scalesetlistener.go:217-224 | the client uses the connection's service URL and admin token and the listener's user agent |
| ScaleSetListener.NewRunnerScaleSet | scalesetlistener/scalesetlistener.go:226-238 | the payload carries the name, runner group 1, the single label `{name, "User"}`, and is ephemeral and update-disabled |
| ScaleSetListener.UpsertRunnerScaleSet | scalesetlistener/scalesetlistener.go:240-267 | first looks the name up; a lookup error ends there; otherwise it replaces the one found by its id, or creates one when none is found, with the canonical payload, and returns the service's answer or the write error |
| ScaleSetListener.ScaleSetWrittenOnceCanonically | scalesetlistener/scalesetlistener.go:226-264 | at most one write, never both a replace and a create; a write happens only after a successful lookup, is a replace iff a scale set was found, and its payload is ephemeral, update-disabled, in runner group 1 and labelled `{name, "User"}` only |
| ScaleSetListener.SessionOutcome | scalesetlistener/scalesetlistener.go:269-286 | one or two attempts; the session is the first successful attempt's; after two failures, the error reports 1 attempt |
| ScaleSetListener.CreateRunnerScaleSetSession | scalesetlistener/scalesetlistener.go:269-286 | makes exactly as many session-creation calls as SessionOutcome counts, all for the scale set and name, and returns its outcome |
| ScaleSetListener.GetMessage | scalesetlistener/scalesetlistener.go:288-311 | returns the poll's answer unchanged; polls once with the cursor; deletes exactly when a message was read, once, by that message's id; a failed delete changes nothing |
| ScaleSetListener.Builder.constructor | scalesetlistener/scalesetlistener.go:53-61 | a builder for the configured scope with nothing built and no error |
| ScaleSetListener.Builder.CreateAdminConn | scalesetlistener/scalesetlistener.go:101-108 | always asks for an admin connection for the scope; stores it, or on failure clears it and records the error |
| ScaleSetListener.Builder.CreateServiceClient | scalesetlistener/scalesetlistener.go:110-116 | after an earlier error changes nothing; otherwise builds the client from the admin connection's URL and token |
| ScaleSetListener.Builder.CreateRunnerScaleSet | scalesetlistener/scalesetlistener.go:118-124 | after an earlier error makes no call and changes nothing; otherwise makes UpsertRunnerScaleSet's calls and stores its scale set or its error |
| ScaleSetListener.Builder.CreateSession | scalesetlistener/scalesetlistener.go:126-138 | after an earlier error returns it, makes no call and changes nothing; otherwise creates the session for the scale set's id, owned by the host name ("" when the lookup failed), and records SessionOutcome's session or error, dropping a host-name error |
| ScaleSetListener.Builder.Destroy | scalesetlistener/scalesetlistener.go:140-142 | deletes the builder's message session, by its scale set and session id, and returns the service's answer |
| ScaleSetListener.DispatchFor | scalesetlistener/scalesetlistener.go:204-213 | the message goes to the job-available, job-assigned or job-completed handler exactly when its type string is that one, otherwise it is only logged; the job-available handler gets the client and the builder's session, the job-assigned handler the client and the scale set |
| ScaleSetListener.Advance | scalesetlistener/scalesetlistener.go:174-213 | one poll with the local session: an ordinary poll error keeps cursor, session, connection, client and dispatches; token expiry keeps cursor and dispatches and asks for an admin connection for the scope; if that fails, the builder's connection becomes nil and nothing else changes; if it succeeds, the connection is stored, the client gets the admin token captured before the loop, the session is refreshed and the local session becomes whatever the refresh returned; an empty queue keeps cursor, session and dispatches; a message sets the cursor to its id and appends exactly one dispatch, chosen by its type, with the builder's session |
| ScaleSetListener.Step | scalesetlistener/scalesetlistener.go:164-200 | a cancelled context ends the loop with nil and no change; a nil local session panics; otherwise the iteration polls as Advance says |
| ScaleSetListener.StepDeletes | scalesetlistener/scalesetlistener.go:174-213 | an iteration that goes on adds at most one dispatch, deletes a message exactly when it adds one, and moves the cursor only then, to that message's id |
| ScaleSetListener.RunKeepsClient | scalesetlistener/scalesetlistener.go:183-189 | while the client holds the captured admin token, no run changes the client: a freshly fetched token never reaches it |
| ScaleSetListener.RunAcquiresWithBuilderSession | scalesetlistener/scalesetlistener.go:191-206 | a run only adds dispatches, and every job-available dispatch it adds carries the builder's session, never a refreshed one |
| ScaleSetListener.RunDeletesWhatItDispatches | scalesetlistener/scalesetlistener.go:198-213 | a run deletes exactly as many messages as it dispatches |
| ScaleSetListener.RunCursorFollowsDispatches | scalesetlistener/scalesetlistener.go:198-202 | after a run the cursor is the id of the last message dispatched, or where it started if none was |
| ScaleSetListener.RunStopsCleanly | scalesetlistener/scalesetlistener.go:164-172 | when no refresh returns a nil session, the loop ends only by cancellation, returning nil |
| ScaleSetListener.MessageLoop.PollOnce | scalesetlistener/scalesetlistener.go:174-213 | one iteration on the builder: its new connection, client, trace and dispatches are those Step gives, and its session, scale set and error stay unchanged; on token expiry, the builder's connection, client and trace and the local session are as Advance gives them |
| ScaleSetListener.MessageLoop.RunAndNotify | scalesetlistener/scalesetlistener.go:149-215 | from cursor 0 and the builder's session, the loop's exit and the builder's final connection, client, trace and dispatches are those RunFrom gives; the builder's session is untouched |
| ScaleSetListener.SetupOutcome | scalesetlistener/scalesetlistener.go:53-68 | the chain asks for the admin connection, then makes the scale-set calls, then the session attempts, stopping after the first failing step, whose error is the result; it fails iff the admin connection, the scale-set lookup or write, or both session attempts fail; it never polls or deletes a session, and never reports a host-name error |
| ScaleSetListener.Setup | scalesetlistener/scalesetlistener.go:53-68 | the builder's calls and the returned error are SetupOutcome's; after a successful setup the builder holds its admin connection, the client for it, its scale set and its session |
| ScaleSetListener.Run | scalesetlistener/scalesetlistener.go:47-77 | a client-creation error makes no call; otherwise it returns an error iff setup fails, then that setup error, with setup's calls only; after a successful setup the loop runs as RunFrom gives from setup's calls, it returns nil iff the loop stopped and panics iff the session went nil, and the last call deletes the session; without nil refreshes it returns nil |
| RunnerReplicaSetController.SetControllerReference | controllers/runnerreplicaset_controller.go:226-228 | fails iff the object already has a controller that is another object, returning that controller; otherwise upserts the controller reference to the replica set |
| RunnerReplicaSetController.UpsertMakesController | controllers/runnerreplicaset_controller.go:226-228 | upserting the reference makes the replica set the controller of the references |
| RunnerReplicaSetController.NewRunner | controllers/runnerreplicaset_controller.go:214-231 | apart from its owner references, the runner's metadata is the template's with GenerateName `rs.Name + "-"` and the replica set's namespace; its spec is the template's and it has no status yet |
| RunnerReplicaSetController.NewRunnerOwnership | controllers/runnerreplicaset_controller.go:214-231 | no error iff the template's controller, if any, refers to the replica set; then the runner is controlled by it; otherwise the error names the template's controller and the runner keeps the template's references |
| RunnerReplicaSetController.MyRunnersMembers | controllers/runnerreplicaset_controller.go:80-83 | a runner is one of the replica set's iff it is listed and controlled by it (by uid) |
| RunnerReplicaSetController.Desired | controllers/runnerreplicaset_controller.go:92-98 | the desired count is the replica set's `replicas`, or 1 when unset |
| RunnerReplicaSetController.ReadyAtMostAvailable | controllers/runnerreplicaset_controller.go:84-88 | the ready count never exceeds the available count |
| RunnerReplicaSetController.CountRunners | controllers/runnerreplicaset_controller.go:76-90 | the controlled runners in list order; available is their number and ready the number in phase Running; `0 <= ready <= available <= listed` |
| RunnerReplicaSetController.NotBusyMembers | controllers/runnerreplicaset_controller.go:107-164 | a runner is a target iff it is one of the replica set's and its probe says not busy, or offline (busy or not), or not found and created strictly more than 15 minutes ago |
| RunnerReplicaSetController.BusyRunnersAreKept | controllers/runnerreplicaset_controller.go:139-164 | a runner reported busy and online, or not found and not older than 15 minutes, is never a target |
| RunnerReplicaSetController.FirstAbort | controllers/runnerreplicaset_controller.go:120-137 | the first runner whose probe is a rate limit or another error, and no earlier one is |
| RunnerReplicaSetController.SelectNotBusy | controllers/runnerreplicaset_controller.go:105-165 | probes runners in order up to and including the first that aborts, and returns that abort; without one, every runner is probed and the targets are exactly NotBusy, in list order |
| RunnerReplicaSetController.DeleteRunners | controllers/runnerreplicaset_controller.go:171-180 | deletes the first n targets in order, up to and including the first failure that is not "not found", and returns that error; the event of the i-th successful delete names the i-th of the replica set's runners |
| RunnerReplicaSetController.CreateRunners | controllers/runnerreplicaset_controller.go:184-197 | creates the runner n times, up to and including the first failure, and returns that error |
| RunnerReplicaSetController.ScaleDown | controllers/runnerreplicaset_controller.go:102-180 | a probe abort ends the pass before any delete, with the rate-limit delay iff GitHub limited the rate; otherwise deletes the first `min(available - desired, targets)` targets as DeleteRunners does |
| RunnerReplicaSetController.ScaleUp | controllers/runnerreplicaset_controller.go:181-198 | a template controlled by another object fails before any create; otherwise creates the new runner `desired - available` times, up to the first failure |
| RunnerReplicaSetController.UpdateStatus | controllers/runnerreplicaset_controller.go:200-211 | writes a copy with the given counts iff they differ from the status, and fails only when that write fails |
| RunnerReplicaSetController.Pass | controllers/runnerreplicaset_controller.go:76-211 | the counts, then scale-down iff available exceeds desired (1 when unset), scale-up iff desired exceeds available, nothing when equal; only a pass without error considers the status, with the counts taken before scaling |
| RunnerReplicaSetController.Reconcile | controllers/runnerreplicaset_controller.go:56-212 | a missing replica set ends with no error and no effect, another read error is returned; a replica set being deleted, or a failed listing other than "not found", has no effect; otherwise one pass as Pass states |
| RunnerReplicaSetController.ScaleDownDeletesOnlyTargets | controllers/runnerreplicaset_controller.go:105-176 | every deleted runner is one of the replica set's and a target; none was reported busy |
| RunnerReplicaSetController.ScaleDownDeleteCount | controllers/runnerreplicaset_controller.go:167-180 | with no probe abort and no delete failure, exactly `min(available - desired, targets)` runners are deleted, the first targets in list order, and the pass goes on |
| RunnerReplicaSetController.OfflineRunnersAreNotPreferred | controllers/runnerreplicaset_controller.go:157-169 | an idle runner listed before an offline one is deleted first: offline runners get no priority |
| RunnerReplicaSetController.DeleteEventNamesWrongRunner | controllers/runnerreplicaset_controller.go:171-178 | with a busy runner listed before an idle one, deleting the idle runner records an event naming the busy one |

## Left out

- HTTP and transports. The Kubernetes client, go-github, the Actions service client and everything in `NewClient` (oauth2, GitHub App installation, caching and metrics transports) are left out. Their answers are oracle parameters.
- Concurrency. The mutex of the token cache is not modelled. The `go c.cleanup()` goroutine is modelled as a synchronous clean-up right after the store, at the same `now`.
- Clocks and waiting. `time.Now` is the parameter `now`. The 30-second sleep between session attempts is not modelled.
- Host name and URL parsing. `os.Hostname` and `url.Parse` are inputs: their results, or errors, are parameters.
- Logging and events. Logging and event recording are left out, except the delete event, whose text the model records.
- The job handlers. `scalesetclient.MaybeAcquireJob`, `HandleJobAssignment` and `NoopHandleJobCompletion` are not part of this model. A dispatch records which handler would be called and with what arguments.
- The notify channel. `runAndNotify` never uses it, so it is not modelled.
- `retryDelayOnGitHubAPIRateLimitError` is not part of this model. It is the parameter `rateLimitDelay`.
- Other GitHub client operations. `ListOrganizationRunnerGroups`, `ListOrganizationRunnerGroupsForRepository`, `ListRepositoryWorkflowRuns` and `RemoveRunner` are not modelled. Their page loops have the shape of `FetchPages` and are proved only through its two callers. `RemoveRunner`'s endpoint choice is the `EndpointFor` of the other wrappers.
- Process wiring. The flag, manager and controller wiring of `main.go` (`main`, `String`) is left out. So are the generated deep-copy functions, the session-service mock, the identifier test and the Azure Key Vault wrapper.
- RunnerReplicaSetController.ReferSameObject: compares kind and name only. The runtime library also compares the API group, which the model's references do not carry. Two references of the same kind and name in different API groups therefore count as the same object here.
- Resource errors. `SetControllerReference` can also fail on scheme or group-version-kind problems of the runtime library. Only the "already owned by another controller" error is modelled.
- Nil on error. Where a Go call returns a value together with an error, the model keeps the value only where the code reads it: the refreshed session, and the runner returned by `newRunner`. Elsewhere the value is the conventional nil.
- GitHub.FetchPages, GitHub.ListRunners, GitHub.ListRunnerGroupRepositoryAccesses and GitHub.IsRunnerBusy: these are modelled only for a server that eventually answers a page without a successor, or a failure. A server that names next pages forever is left out, because the loop then does not terminate.
- ScaleSetListener.MessageLoop.RunAndNotify: this is modelled only for a run whose context is cancelled at some iteration `stop`, because only such a run terminates.
- ScaleSetListener.Run: for the same reason, it requires an iteration at which the context is cancelled.
- Time arithmetic: integers are unbounded. Go's `time.Time.Sub` saturates at the largest duration, which only matters for times about 292 years apart, so saturation is not modelled.
- Integer width: the runner counts are unbounded integers rather than Go `int` (64-bit). A namespace never holds enough runners to overflow them.
