# Verification of the atellagent client

A Dafny model of the stateful core of the client, with proofs over every input, every
schedule or every reachable state. `dafny verify dfyconfig.toml` checks the whole project.

What is modelled, and how:

- **Asynchronous protocols** are labelled transition systems. One event is one section of a
  task between two awaits, one disk step, one exchange with the service, a lost reply, a
  cancellation or a crash. `Step` is partial (a disabled event has no successor), `Exec` runs
  a schedule, an invariant is kept by every step, and the theorems speak of every schedule.
  `Delivery` is one accepted delivery with its racing handler, lease renewal and result
  commit; `Participant` is the receiver, certificate rotation and lifecycle; `McpConnection`
  is the connection owner of the local tool server; `Reporting` is the stored reporting
  preference under its lease; `Renewal` is device certificate renewal by any number of
  concurrent callers over write-once files. Beside what no run may do stands what must happen:
  ordinary runs followed to their end from any reachable state that allows them, and counts
  that name the event behind every session, request and delivery.
- **Sequential code that changes things** is imperative Dafny proved against specification
  functions: the commit retry loop, the chunked size check, the parser of hook commands, the
  JSON and TOML merges and removals, the multi-file apply against other editors, the bounded
  tree search, the chain walk, pagination and the connection retry. Other programs and failing
  system calls are arbitrary choices inside these methods, so their contracts hold for all of
  them.
- **Printers and parsers** are functions over strings: POSIX quoting (section 2.2.2 of
  POSIX.1-2017 XCU), PowerShell quote doubling, Base64 (section 4 of RFC 4648) over UTF-16LE
  (section 2.1 of RFC 2781), and sizes in UTF-8 (section 3 of RFC 3629).

| Module | Subject |
|---|---|
| `Outcomes`, `Text`, `Json` | shared values: options and results, encodings, JSON values and Python's equality on them |
| `ResultBudget`, `Delivery`, `Participant`, `ParticipantRuns`, `McpConnection` | the connected runtime |
| `Renewal`, `RenewalInvariant`, `RenewalSafety`, `RenewalRun` | device certificate renewal: steps, what every step keeps, safety, recovery |
| `Shlex`, `HookCommands`, `HookParser`, `Discovery` | hook commands, printed and found again |
| `HookSettings`, `McpSettings`, `CodexSettings`, `InstalledHooks`, `HookApply` | settings merged, removed, discovered and saved |
| `Reporting`, `Paging`, `ConnectRetry` | reporting preference, pages, connection retries |

Five expected properties do not hold of the code as it stands. Each has its exact condition,
proved for all inputs, and a concrete input that shows it fail:

- A rotation cancelled before its final report never re-enables receiving, and neither does
  stopping, restarting or reloading the participant afterwards: receiving can recover if and
  only if no such cancellation happened (`Participant.ReceivingRecovers`). In
  `Participant.StoppedRotationStrands` a participant accepts a rotation, is stopped, cancels
  it in its drain when the grace period ends, and is started again: it is up, idle and never
  receives.
- A renewal proposal is visible before its directory is forced to disk, and a call that adopts
  it does not force it. Its key survives every future, power failures included, in the
  proposal or in a generation, if and only if some call that linked the proposal, a pointer or
  a selection of that directory went on to force it (`RenewalSafety.KeySurvivesIffForced`). A
  call that links its own proposal always does before it posts
  (`RenewalSafety.LinkedKeySurvives`); in `RenewalSafety.AdoptedKeyCanBeLost` one call is
  killed after linking a proposal, one after linking the pointer, and a third activates, so
  that a power failure can lose the key of the active certificate. Kills, disk errors and lost
  replies without a power failure never lose a key.
- Removing merged hooks drops a generated event that the user had left as an empty list; the
  settings come back if and only if there was none (`HookSettings.RoundTripRestoresSettings`).
  `{"hooks": {"PreToolUse": []}}` does not (`InstalledHooks.EmptyEventIsDropped`).
- Removing the MCP entry drops an `mcpServers` object the user had left empty; the settings
  come back if and only if there was none (`McpSettings.RemoveUndoesMerge`).
  `{"mcpServers": {}}` becomes `{}` (`McpSettings.EmptyServersAreDropped`).
- Removing a socket permission leaves the lists it created behind, and removing the TOML entry
  drops an empty `mcp_servers`; the settings come back if and only if the list was already
  there and no empty object was (`CodexSettings.RemoveUndoesMerge`,
  `CodexSettings.RemoveUndoesEndpoint`). `{}` becomes `{"network": {"allow_unix_sockets": []}}`
  (`CodexSettings.EmptyListStays`).

Assumptions about what the repository does not contain: the gateway is idempotent per message
(the first result wins, only the same result is acknowledged); the renewal service takes a
proposal only from the holder of the active certificate, issues one certificate per operation,
and activates it over that certificate while its parent is active; random names and keys are
never drawn twice; link, rename and directory creation are atomic.

## Model

| member | source | states |
|---|---|---|
| Delivery.DeliveryIsSafe | connected/participant_delivery.py:155-217 | under every interleaving of handler, renewal, commit, gateway, lost replies and cancellation: the handler is called at most once, at most six requests are sent, all equal to the one payload built once, ending joins all children, and ending without error means the gateway holds that payload |
| Delivery.GatewayHoldsOnlyThisResult | connected/participant_delivery.py:96-111 | a result already committed is never displaced, and a fresh message never holds anything but this delivery's payload |
| Delivery.PostsFitTheProtocol | connected/participant_delivery.py:99-111 | every request of a parsed message's delivery encodes within the request limit |
| Delivery.CompletionNeedsReply | connected/participant_delivery.py:131-140 | a commit is acknowledged only by the gateway's bound reply to its last request |
| Delivery.ConflictAloneNeverCompletes | connected/participant_delivery.py:197-207 | a delivery that ends without error received such a reply, so a renewal conflict alone never counts as success |
| Delivery.LostReplyRecovers | connected/participant_delivery.py:104-122 | in every reachable state after a failed request with an attempt left, even after a renewal conflict, one answered retry completes the delivery |
| Delivery.CommitsTheHandlersResult | connected/participant_delivery.py:178-190 | told from the events alone: what is committed is the payload of the result the handler returned, as its code left it when the commit started, or of a failure naming the error, and a fresh message that completes holds it |
| Delivery.ReturnedResultIsCommitted | connected/participant_delivery.py:99-101 | a returned result that is left alone until the commit starts is the one committed |
| Delivery.RaisedErrorIsReported | connected/participant_delivery.py:180-186 | a handler that raised is reported as failed, with the type of its error and nothing else |
| Delivery.OrdinaryDeliveryCompletes | connected/participant_delivery.py:155-217 | when nothing goes wrong the delivery completes with exactly that payload, sent once |
| Delivery.FailedAttemptDecides | connected/participant_delivery.py:112-122 | from every reachable state a failed attempt that got no answer or a 502, 503 or 504 and was not the sixth is retried, and one answer completes the delivery; any other failure ends it in an error |
| Delivery.LeaseLossDecides | connected/participant_delivery.py:174-207 | losing the lease before the handler ends commits nothing ever; during the commit nothing more is sent, except that after a 409 the commit alone goes on |
| Delivery.CancelledDeliverySendsNothing | connected/participant_delivery.py:208-217 | after a cancellation at any moment no run calls the handler, sends a request or completes |
| Delivery.CommitResult | connected/participant_delivery.py:93-140 | the retry loop against any network: acknowledged exactly when the deciding attempt is answered and the gateway holds nothing else, sending only copies of one payload |
| ResultBudget.FitsJson | connected/result_budget.py:15-27 | despite both early exits the chunked check decides whether the total UTF-8 length is within the maximum before the encoder raises; a text value with a lone surrogate is too large when even one byte per code point exceeds the rest, and invalid otherwise |
| ResultBudget.CommitPayloadWithinLimits | connected/result_budget.py:41-69 | whatever the handler returned, what is sent encodes and meets both field limits and the request limit |
| ResultBudget.FittingResultsAreKept | connected/result_budget.py:41-57 | the handler's own result is sent exactly when it fits; otherwise a failure is, and building again changes nothing |
| ResultBudget.PayloadIsBoundToItsLease | connected/result_budget.py:30-69 | the six keys of every payload and what is under them: the message's own lease id and token, and the result's status, schema, payload and evidence, or a failure by operation with the code for why |
| ResultBudget.FallbackFits | connected/result_budget.py:58-69 | every fallback meets all limits for any lease token of up to 256 characters that UTF-8 can encode, as every request of the delivery needs |
| ParticipantRuns.EverythingIsAccountedFor | connected/participant_rotation.py:73-84 | over every run each session installed is a rotation's activation or a completed reload, and each of those installs one; likewise each request is a registered receive call and each delivery an accepted acknowledgement |
| Participant.AdmissionIsBounded | connected/participant_receiver.py:46-89 | in every reachable state at most `max_concurrency` received deliveries (one, if that is less) are unfinished, and an accepted one finds a free semaphore permit at once |
| Participant.RotationSwapsAlone | connected/participant_rotation.py:73-84 | a rotation replaces the session only when it is the one unfinished delivery and no receive call is past the gate |
| Participant.NothingIsClaimedDuringRotation | connected/participant_receiver.py:91-113 | from a rotation's acceptance to its end no receive request is sent and no delivery is added, whatever else happens |
| Participant.RotationReenables | connected/participant_rotation.py:253-298 | a rotation that ends re-enables receiving exactly when it was not cancelled before its final report |
| ParticipantRuns.FinishedRotationSwappedOnce | connected/participant_rotation.py:237-244 | a rotation that ends after only proceeding has installed exactly one session, whatever else happened meanwhile |
| ParticipantRuns.RotationCompletes | connected/participant_rotation.py:253-298 | from every reachable state at most six successful steps end a rotation that is alone: receiving enabled, and a new session exactly if it had not been swapped or given up |
| ParticipantRuns.FailureIsReportedUnlessTemporary | connected/participant_rotation.py:270-298 | a failure before the swap is reported unless temporary, on the old session, and receiving is enabled again either way |
| Participant.DoomedNeverReceives | connected/participant_rotation.py:291-298 | after a cancellation before the report, no later run of stops, starts and reloads ever enables receiving or claims again |
| Participant.ReceivingRecovers | connected/participant_rotation.py:253-298 | in every reachable state some continuation enables receiving if and only if no rotation was or is being cancelled before its report |
| Participant.StoppedRotationStrands | connected/participant.py:234-331 | a concrete run that accepts a rotation, cancels it during its drain by stopping, and starts again ends up, idle, and unable ever to receive |
| Participant.ReloadWaitsForLoopDeliveries | connected/participant.py:234-331 | a credential reload replaces the session only when every delivery the receive loop spawned has finished |
| ParticipantRuns.MessageIsReceived | connected/participant_receiver.py:46-89 | from every reachable open state a receive call whose exchanges succeed sends one request and adds one delivery, or a rotation behind a closed gate |
| ParticipantRuns.AcceptedDeliveryRuns | connected/participant_delivery.py:155-156 | in every reachable state an accepted delivery runs, ends and gives its permit back |
| ParticipantRuns.RefusedMessageAddsNothing | connected/participant_receiver.py:71-103 | an unsupported message or an invalid capability is answered by a rejection and adds nothing |
| ParticipantRuns.FullParticipantWaits | connected/participant_receiver.py:52-58 | at the limit a receive call waits for a delivery to end and then goes on, or gives up when stopping |
| ParticipantRuns.StopCanAlwaysEnd | connected/participant.py:234-331 | from every reachable started state a stop or reload can end: deliveries cancelled after the grace period, loops joined, down or started again on one new session as asked |
| McpConnection.OneOwnerAtATime | connected/mcp_client.py:200-222 | under every interleaving at most one connection owner is unfinished, and a new one is created only when all earlier ones are joined |
| McpConnection.StoppingJoins | connected/mcp_client.py:175-198 | a close or failed startup gives up the lock only when no owner is left running, however often it is cancelled |
| McpConnection.ClientsAreLive | connected/mcp_client.py:120-168 | a published client belongs to the current owner, whose startup succeeded and which nobody stopped; a connect never waits for an owner that ended without an answer |
| McpConnection.ConnectPublishes | connected/mcp_client.py:200-222 | in every reachable state without a connection a connect creates one owner and publishes its client once started |
| McpConnection.ConnectReplacesFinishedOwner | connected/mcp_client.py:200-212 | a live connection is reused; a finished owner is joined and replaced, or the connect gives up if it had failed |
| McpConnection.CloseCanAlwaysEnd | connected/mcp_client.py:175-198 | a close or a failed or cancelled startup unpublishes at once, makes the owner stop, and can always end with no connection left |
| RenewalInvariant.StepKeepsInv | onboarding/device_renewal_protocol.py:42-88 | every step of concurrent callers, failures, kills and the service keeps the invariant tying files, callers and service together |
| RenewalInvariant.Selection | onboarding/device_renewal_stage.py:104-109 | selecting an activated candidate keeps the invariant, happens at the chain's end, moves the end to the candidate, and the candidate's certificate is what the service holds active |
| RenewalInvariant.Activation | onboarding/device_renewal_protocol.py:77-78 | activation happens only for the candidate of the chain's end and makes its certificate the active and expected one |
| RenewalInvariant.RemoveOk | onboarding/credential_generation.py:30-42 | when the failure path removes a generation it is unnamed and no pointer names it, and the removal keeps the invariant |
| RenewalInvariant.CleanOk | onboarding/credential_generation.py:30-42 | the failure path finds its generation committed exactly when a pointer names it, even when the link succeeded before the failure |
| RenewalInvariant.TailAfterSelection | onboarding/device_renewal_loading.py:82-97 | one selection moves the end of exactly those chains that ended at the selecting directory |
| RenewalSafety.KeysAreRetained | onboarding/device_renewal_preparation.py:74-86 | in every reachable state each operation the service knows has its private key retained on disk, and the active certificate lies beside its key |
| RenewalSafety.SelectionsWereActivated | onboarding/device_renewal_stage.py:86-109 | a generation is selected only if the service activated exactly that operation, key and certificate |
| RenewalSafety.PointersAreComplete | onboarding/credential_generation.py:16-29 | every pointer names its own complete generation with the committed certificate and key, one pointer per directory |
| RenewalSafety.CommittedFilesStay | onboarding/atomic_private_file.py:14-33 | proposals, pointers, selections and named generations never change or go away over any continuation without a power failure |
| RenewalSafety.OneProposalPerGeneration | onboarding/device_renewal_preparation.py:58-100 | all concurrent, repeated or restarted preparations of one generation work with the same operation and key |
| RenewalSafety.KeySurvivesIffForced | onboarding/atomic_private_file.py:28-42 | after every run, earlier power failures included, an operation's retained key survives every future, wherever it is copied, if and only if some call forced the directory it had linked the proposal, a pointer or a selection in |
| RenewalSafety.LinkedKeySurvives | onboarding/atomic_private_file.py:30-31 | a call that finds no proposal when it links its own forces it before doing anything else, so that from its first post on the key survives every future |
| RenewalSafety.AdoptedKeyCanBeLost | onboarding/device_renewal_preparation.py:74-86 | a run without power failures after which the service holds active a certificate whose key a power failure loses |
| RenewalRun.Load | onboarding/device_renewal_loading.py:82-99 | over any files, the walk returns the end of the one chain of at most 63 valid links and fails when there is none |
| RenewalRun.ChainsAreValid | onboarding/device_renewal_loading.py:59-79 | on the files renewals leave behind every chain is valid, has its number of links and ends at its tail |
| RenewalRun.CandidateIsSettled | onboarding/device_renewal_recovery.py:48-65 | every undisturbed call that finds a retained candidate: once it returns, the candidate is selected if it was activated or the call's material is its parent, and otherwise the parent is returned and stays unselected |
| RenewalRun.RenewalConverges | onboarding/device_renewal_protocol.py:45-86 | after any run of crashes and losses, every undisturbed renewal, its activation reply lost or not and however certificates are issued meanwhile, never fails, can go on until it returns, does so within a bound on its steps, and returns the end of the selected chain, which is what the service holds active |
| RenewalRun.UncertainActivationIsResolved | onboarding/device_renewal_protocol.py:76-86 | in every reachable state a call whose activation got no reply or failed, or whose selection failed, reads the receipt: if exactly its candidate was activated at most three steps select and return it, otherwise it fails at once and nothing changes |
| RenewalRun.LostReplyStillActivates | onboarding/device_renewal_protocol.py:82-85 | a lost activation reply leaves the candidate active at the service all the same |
| RenewalRun.ExistingPointerIsAdopted | onboarding/credential_generation.py:30-42 | a call that loses the race for the pointer removes its own generation and activates the one that is there |
| RenewalRun.FailedCommitCleansUp | onboarding/credential_generation.py:30-42 | a commit that fails before its pointer is linked leaves nothing of its generation, one that fails after keeps everything |
| Shlex.SplitOfJoin | cli/native_hook_commands.py:25 | splitting the joined words gives back every word list |
| Shlex.SafeWordsStayBare | cli/native_hook_commands.py:25 | a word is printed unquoted exactly when it is not empty and all harmless |
| Shlex.EscapeTakesOneCharacter | discovery/inventory.py:113 | outside quotes a backslash takes any next character |
| Shlex.EscapeInDoubleQuotes | discovery/inventory.py:113 | in double quotes a backslash takes only a quote or a backslash |
| Text.Base64RoundTrip | cli/native_hook_commands.py:34 | decoding the Base64 text of any bytes gives the bytes |
| Text.Utf16RoundTrip | discovery/inventory.py:96 | decoding the UTF-16LE form of any text gives the text |
| Text.Base64Examples | cli/native_hook_commands.py:34 | the examples of the standard and the two signs of the alphabet |
| Text.UnicodeExamples | connected/result_budget.py:23 | byte order and surrogates of UTF-16LE, and where UTF-8 grows to two, three and four bytes |
| Json.ListIsPrinted | connected/result_budget.py:16-17 | a list prints its items between brackets, with commas and no spaces |
| Json.CharactersArePrinted | connected/result_budget.py:16-17 | quotes and control characters are escaped, ASCII stays, and beyond it a character stays or is escaped as its own number, or that of its surrogates |
| HookParser.LiteralMatchIsUnique | discovery/inventory.py:104 | the quoted-literal pattern matches in at most one way, so backtracking cannot change what is read |
| HookParser.HookCommandMatches | discovery/inventory.py:89-130 | the parsing loop computes the recognition predicate |
| HookParser.PrintedCommandFits | cli/native_hook_commands.py:10-35 | every printed command is within the parser's length limit |
| HookParser.AcceptedExactly | cli/native_hook_commands.py:10-27 | exactly which argument lists are printed, with parent components, drives and pipe names told by the characters of the arguments |
| HookParser.HostsGetTheirDialect | cli/native_hook_commands.py:25-35 | macOS gets quoted words; on Windows Claude Code gets the script with `shell: powershell` and Codex an explicit launch whose argument decodes to the script, without a shell |
| HookParser.PrintedArgumentsAreRead | cli/native_hook_commands.py:25-35 | the parser reads exactly the printed arguments in all three dialects |
| HookParser.PrinterParserAgree | discovery/inventory.py:89-130 | for every accepted argument list on both platforms, host `h` is found exactly when it is the printed host and the executable is a public launcher |
| HookParser.ShellWordsAreRecognised | discovery/inventory.py:110-130 | shell words of any origin are recognised for a host exactly when they run one of the three launchers, `python -m` included, with that host, within 65536 characters |
| HookSettings.MergeSettings | cli/native_hook_json_merge.py:52-92 | the copying, appending and counting loops compute the merge specification, conflicts included |
| HookSettings.MergeOnlyAppends | cli/native_hook_json_merge.py:66-85 | every other key and every prior group keeps its place and value, and each generated group ends up present exactly once, whether the merge added any or not |
| HookSettings.MergeIsIdempotent | cli/native_hook_json_merge.py:77-84 | a second merge of the same fragment adds nothing and returns its input |
| HookSettings.MergeSucceedsExactly | cli/native_hook_json_merge.py:66-85 | a fragment is taken exactly when every generated group finds no group for its command, or one that equals it; otherwise it is a conflict |
| HookSettings.RemoveSettings | cli/native_hook_json_remove.py:8-29 | the in-place removal loop computes the removal specification |
| HookSettings.RemoveEventsTreats | cli/native_hook_json_remove.py:15-22 | removal event by event is one pass that treats every saved event on its own |
| HookSettings.RemovedFromEvent | cli/native_hook_json_remove.py:15-22 | of a generated event exactly the groups that equal a generated one go, in order, and the event with its last group |
| HookSettings.RemoveUndoesMerge | cli/native_hook_json_remove.py:8-29 | removing after merging into settings that held none of the groups gives every event its prior groups and removes as many as were added |
| HookSettings.RoundTripRestoresSettings | cli/native_hook_json_remove.py:13-22 | the settings come back, apart from a retained `hooks` object, exactly when no generated event had been saved as an empty list |
| InstalledHooks.EmptyEventIsDropped | cli/native_hook_json_remove.py:19-22 | settings with an empty `PreToolUse` list do not come back, whatever the host |
| InstalledHooks.GeneratedForHost | cli/native_hook_definition.py:19-25 | the events generated for each host and the handler under each |
| McpSettings.MergeInstallsOnlyItsEntry | cli/native_mcp_settings.py:54-79 | a merge leaves the generated entry, changes no other setting or server, is idempotent, and replaces in place only the exact earlier launch |
| McpSettings.SavedEntryDecides | cli/native_mcp_settings.py:46-79 | no entry: added, nothing to remove; the generated one: kept or removed; the exact earlier launch: brought up to date in place or removed; any other: a conflict |
| McpSettings.RemovalTakesOnlyItsEntry | cli/native_mcp_settings.py:54-79 | a removal takes the generated entry or the exact earlier launch, keeps every other server and setting in place, drops only an emptied servers object, and a second one changes nothing |
| McpSettings.RemoveUndoesMerge | cli/native_mcp_settings.py:68-74 | removing after adding restores the settings exactly unless they held an empty servers object |
| McpSettings.EmptyServersAreDropped | cli/native_mcp_settings.py:69-72 | settings with an empty servers object come back without it |
| CodexSettings.EndpointIsAppendedOnce | cli/native_hook_toml_merge.py:63-90 | an endpoint not yet allowed is appended once after the saved ones, nothing else changes, and doing it again changes nothing |
| CodexSettings.MergeIsIdempotent | cli/native_hook_toml_merge.py:46-90 | a merge changes only the two settings it is for, and a second one returns its input |
| CodexSettings.FragmentDecides | cli/native_hook_toml_merge.py:36-90 | exactly which settings take a fragment, why others do not, and what is added where |
| CodexSettings.EndpointsAreExact | cli/native_hook_toml_merge.py:72-75 | which socket paths may be allowed, told by their characters |
| CodexSettings.DeleteOccurrences | cli/native_hook_toml_remove.py:27-30 | the descending deletion loop equals the filtering comprehension and counts the duplicates |
| CodexSettings.EndpointIsRemovedEverywhere | cli/native_hook_toml_remove.py:22-30 | every occurrence goes, the other endpoints keep their order, and the count is the number of occurrences |
| CodexSettings.RemovalIsExact | cli/native_hook_toml_remove.py:10-37 | removal leaves neither entry nor endpoint and no other value changed |
| CodexSettings.RemoveUndoesEndpoint | cli/native_hook_toml_remove.py:22-30 | removing after allowing restores the settings exactly when they already had the list |
| CodexSettings.RemoveUndoesMerge | cli/native_hook_toml_remove.py:10-37 | removing a whole fragment after merging it counts what was added and restores the settings exactly when they held no empty servers object for an added entry and already had the list for an added endpoint |
| CodexSettings.EmptyListStays | cli/native_hook_toml_remove.py:10-37 | merging a fragment with any one endpoint into empty settings and removing it leaves an empty list of sockets |
| HookApply.TakeBaselines | cli/native_hook_posix_apply.py:55-65 | every reviewed path has its reviewed snapshot, or is still missing below a directory this call made |
| HookApply.ReplaceOne | cli/native_hook_posix_apply.py:67-94 | one replacement happens only after every reviewed path was seen at its baseline; each path nobody edits after its own check still matches at the rename |
| HookApply.Apply | cli/native_hook_posix_apply.py:25-99 | against any editor and any failures the files replaced are a prefix of the changed edits with their reviewed contents, exactly those reported, all of them on success, and baselines differ from the review only below directories the call made; when nothing fails and nobody edits, everything reviewed is saved |
| Discovery.FindAdapter | discovery/inventory.py:133-147 | the stack and its two limits visit the tree in last-first order up to the limits |
| Discovery.ReportedAdapterExists | discovery/inventory.py:133-147 | an adapter is reported only if some nested object has a `command` that launches the hook for the host |
| Discovery.SearchIsExactWithinLimits | discovery/inventory.py:133-147 | with no container more than sixteen levels down and at most 4096 nested values the search reports exactly that |
| InstalledHooks.MergedHooksAreDiscovered | discovery/inventory.py:133-147 | settings a generated fragment was merged into are reported as hooked for its host, within those limits |
| Reporting.UploadsFollowAcknowledgedOptIn | onboarding/device_reporter.py:26-48 | every upload follows an enabling last preference, and after an opt-in an acknowledged enable |
| Reporting.NoUploadAfterOptOut | onboarding/reporting_state.py:75-86 | once an opt-out is saved no upload is sent before an opt-in is saved |
| Reporting.RemovalIsRetried | onboarding/device_reporter.py:31-37 | until the removal is acknowledged the record demands it and every tick begins by sending it |
| Reporting.DueTickUploads | onboarding/device_reporter.py:38-48 | a tick with nothing to synchronise does nothing within 300 seconds of the last upload, and else asks for the status and uploads once if it allows |
| Reporting.OptInTakesEffect | onboarding/device_reporter.py:26-48 | a saved opt-in is acknowledged at the next tick, which goes on to upload |
| Reporting.OptOutTakesEffect | onboarding/device_reporter.py:31-39 | a saved opt-out is acknowledged at the next tick and nothing is uploaded |
| Reporting.InterruptedTickStaysPending | onboarding/device_reporter.py:31-37 | a tick interrupted before its answer leaves the preference pending |
| Reporting.InitialPreference | onboarding/reporting_state.py:63-73 | an initial preference is saved only where there was none |
| Paging.Identifiers | onboarding/native_saved_inventory.py:13-32 | one scan in any order yields the eight smallest identities beyond the cursor and a cursor exactly when more remain, or fails exactly on an unreadable directory |
| Paging.FollowCursors | onboarding/connection_lifecycle.py:17-36 | following cursors over a fixed directory ends and visits every retained identity once in increasing order |
| Paging.AcceptedPagesAdvance | onboarding/device_assignments.py:91-103 | whatever pages a service returns, the accepted ones join to a strictly increasing list, eight new identities a page |
| Paging.AcceptedExactly | onboarding/device_assignments.py:91-103 | a page is accepted exactly when its identities increase, lie beyond the cursor, are at most eight, and all eight before a next cursor |
| Paging.HonestPagesAreAccepted | onboarding/device_assignments.py:91-103 | what one scan of a directory yields is accepted |
| ConnectRetry.TransientConnectError | onboarding/http_response.py:15-32 | the bounded walk answers true exactly when everything behind the error is reached through fewer than sixteen references without a TLS failure, circular causes included |
| ConnectRetry.RequestJson | onboarding/http_response.py:35-62 | every attempt but the last never opened a connection and hides no TLS failure, so the request is sent at most once |

## Left out

- Delivery.DeliveryIsSafe: counts calls of `_request`; the session's own connection retries below it are not part of this model, and neither are handler actions or the contents of renewed capabilities.
- Participant.AdmissionIsBounded: direct MCP requests also enter the set of deliveries and skip the receive gate; they depend on code outside the modelled files and are left out.
- Participant.RotationSwapsAlone: the rotation's exchanges with the service and its staged files are single steps that succeed or fail; its lock is never contended because at most one rotation is unfinished.
- RenewalSafety.KeysAreRetained: holds for kills, disk errors and lost replies; power failures have their own exact condition in RenewalSafety.KeySurvivesIffForced.
- RenewalSafety.KeySurvivesIffForced: a generation's own files last as long as its entry in the parent directory; the steps that force a directory are those of POSIX systems, as the code forces none on Windows.
- RenewalRun.RenewalConverges: assumes unexpired material and an operation that the service neither fails nor cancels; expiry, refusals and the limit of fifteen minutes on waiting for a certificate appear elsewhere as failures of a call.
- RenewalSafety.PointersAreComplete: without power failures; the reads of one reconciliation and the removal of one directory are single steps.
- HookApply.Apply: the POSIX implementation only; a snapshot's file identity is one version number; an edit after a path's own final check and before the rename is outside the guarantee, as in the source.
- Reporting.NoUploadAfterOptOut: speaks of requests sent; a request delayed in the network past its own timeout is not part of this model.
- CodexSettings.MergeIsIdempotent: works on parsed values; comments and layout of the TOML text are not part of this model.
- HookSettings.MergeOnlyAppends: works on parsed values; the size limit is an arbitrary predicate on documents.
- ResultBudget.FitsJson: lone surrogates in object keys are not part of this model; elsewhere than in handler results (Text, Shlex, HookCommands, HookParser, the settings and Discovery) texts are sequences of Unicode scalar values.
- ResultBudget.FallbackFits: a lease token with a lone surrogate is not part of this model; it already makes the acknowledgement that precedes the handler impossible to encode.
- Paging.FollowCursors: entries that appear or vanish between pages are not part of this model.
- X.509, RSA, JWT, TLS and OAuth: a certificate is a key and a serial number, verification compares records.
- JSON and TOML text syntax, payload shapes, UUID and timestamp parsing: single-branch facts, except where sizes, order and cursors depend on them.
- File ownership, modes, symbolic links and Windows handles: a private directory is assumed.
- Command-line parsing, presentation, operating system services and the runtime supervisor: sequencing and printing only.
- Quota caches, directive verification and the staging files of service-account certificates: not part of this model.
