# Verification of the Cogtrix agent core

A Dafny model of the parts of Cogtrix whose behaviour depends on interleavings, on unbounded histories or on
delicate bookkeeping, with the properties those parts exist for.

| module | component |
|---|---|
| `ConfirmationUi`, `ConfirmationProtocol`, `ConfirmationSafety`, `ConfirmationOutcome` | asking the user before a tool runs: the answer codes and the API user interface, the protocol, from the invoker's denial check to the tool, as a labelled transition system over any number of calls, what every run of it guarantees, and how the labels of a run decide what becomes of each call |
| `McpReconnect`, `McpAlone` | reconnecting, disconnecting and restarting MCP servers on one event loop, as a transition system that tracks every open handle, and what each of these tasks achieves |
| `McpNaming`, `McpMirror`, `McpSettings`, `McpRuntime` | naming MCP tools; the manager's tables, their mirror in the live tool registry and the settings each tool carries there, once as values (with the theorems) and once as the two classes that update them in place |
| `McpStartup` | connecting a server with retries, and the time budgets around connecting |
| `JsonPointer` | resolving a local `$ref` (section 4 of RFC 6901) |
| `ContextTrim` | fitting a conversation into the model's context window |
| `AuditTail` | the append-only audit log, its backward chunked tail reader and its query |
| `SecretCache`, `SecretValues` | reading secrets from the environment and from files, caching them, configuring them and taking them out of the environment |
| `StreamCallbacks` | streaming a turn to a WebSocket, and what the client ends up showing |
| `SessionMetrics` | the log buckets and the scores computed from them |
| `LazyProxy` | lazily imported tools, resolved by double-checked locking |
| `Options`, `Text` | the optional value and the few ASCII string operations the modules share |

Code that updates state step by step is a class or a method with loops, proved against a function of the old
state; the theorems are lemmas about those functions. Code shared by threads or coroutines is a transition system
whose labels are the atomic steps (a statement block under a lock, or the code between two awaits); its
theorems hold for every run, of any length and any number of participants. Outcomes of I/O, the clock, fresh ids
and the order in which a set or the environment is walked are parameters or nondeterministic.

Where the code does not do what its documentation or its shape suggests, the model follows the code, and the
exact condition is proved:

* `_tail_lines` asks for one piece too few when the file ends with a newline, as the audit log always does, and
  then may cut the oldest line (`AuditTail.TailExactIff`): on a log, exactly when a block boundary falls inside the
  oldest record asked for (`AuditTail.LogIsCutIff`). A single record that fills a read block is lost
  (`AuditTail.BlockLongRecordIsCut`); asking for one piece more repairs it (`AuditTail.OneMorePieceIsExact`).
* `query` tests its limit after adding a match, so a limit of zero or less returns one event (`AuditTail.Query`).
* Without the confirmation lock a call runs on the answer to another call's prompt
  (`ConfirmationSafety.WithoutLockAnswersLeak`).
* `restart` does not take the reconnect lock. A run with restarts loses exactly as many handles as it has steps that
  install a connection over another or are a restart's failure to connect (`McpReconnect.HandlesLostExactly`,
  `McpReconnect.NoHandleIsLostIff`). Alone, a restart loses one exactly when a connect attempt fails
  (`McpReconnect.RestartAloneIsCleanIff`); next to a reconnect it can lose one even when both succeed
  (`McpReconnect.RestartRacesReconnect`).
* `disconnect` waits for no reconnect: the removed server comes back exactly when one had already read its
  configuration (`McpReconnect.DisconnectedComesBackIff`). A restart reads it only after closing the old connection,
  so a disconnect meanwhile ends it with a `KeyError` (`McpReconnect.DisconnectDefeatsRestart`).
* The wrapper skips its denial check when `/approve` is on (`ConfirmationSafety.DenialIsAbsorbing`). The invoker's
  check makes up for it (`ConfirmationSafety.DeniedToolsNeverRun`), except for a call run on another session state
  than its wrapper's, as queued tasks are (`ConfirmationSafety.NewCallStillRunsIff`), and for one let through just
  before the denial landed (`ConfirmationSafety.LateDenialIsOverridden`).
* `connect_all` compares a prefixed name with the names given so far only, so it may take a built-in's name, and a
  reserved name it skips is admitted by a later restart (`McpNaming.ConnectAvoidsBaseIff`,
  `McpNaming.BuiltinIsShadowed`, `McpNaming.NamingsAgreeIff`, `McpNaming.ReservedNameDiverges`).
* The start-up budget is sure to be enough for a server exactly when it holds three attempts of full length with the
  two back-offs (`McpStartup.AlwaysFitsIff`), which is never so for the slowest server
  (`McpStartup.SlowestMayExceed`); retries that fail fast fit (`McpStartup.RetriesFitIff`,
  `McpStartup.SilentServerExceeds`).
* A final token without a run id is followed by no discard, so the client keeps it
  (`StreamCallbacks.ClientShowsLastBlockIff`, `StreamCallbacks.SupersededAnswerStays`).
* A lazily imported module that does not register the tool's name makes its stub resolve to itself
  (`LazyProxy.UnregisteredNameResolvesToItself`).
* One unreadable or empty secret file ends a load before any variable is unset, so every secret stays inheritable
  (`SecretCache.SecretStore.ApplyEnvVars`, `SecretCache.UnreadableFileKeepsSecrets`). The order in which the generic
  keys are met decides exactly when one provider gets two different values from them
  (`SecretCache.ConfigurationIsDeterminedIff`, `SecretCache.TwoSpellingsClash`).
* A secret file written with a plain newline loses the last character of a secret that ends in a carriage return
  (`SecretValues.WrittenSecretsReadBack`).
* After a parsed search the branch of `_compute_rba` that gives no score is never taken
  (`SessionMetrics.ComputeRba`).

## Model

| member | source | states |
|---|---|---|
| ConfirmationUi.CodesAreUnderstood | cogtrix_core/agent/safety.py:223-245 | every code the API user interface can return is recognised by the prompt loop, with the meaning intended, so the loop ends after one reading |
| ConfirmationUi.TypedWords | cogtrix_core/agent/safety.py:223-245 | what a terminal user types, in any case and with any blanks around, is read by its word: which words approve once or for the session, deny once, disable the tool, forbid all or cancel, an empty one approving once |
| ConfirmationUi.ActionsApprove | cogtrix_core/api/confirmation.py:31-43 | exactly the actions "allow" and "allow_all" lead to a confirmation or an approval; every unknown action is a refusal |
| ConfirmationUi.RunConfirmationPrompt | cogtrix_core/agent/safety.py:214-245 | the answer is that of the first input that is recognised or missing; all earlier inputs were unrecognised |
| ConfirmationUi.Rendered | cogtrix_core/api/confirmation.py:74-88 | a new prompt gets a new, unset event and displaces the pending one by setting its event |
| ConfirmationUi.ApiConfirmationUI.constructor | cogtrix_core/api/confirmation.py:53-64 | nothing is pending, and the default answer is a refusal |
| ConfirmationUi.ApiConfirmationUI.RenderPrompt | cogtrix_core/api/confirmation.py:66-102 | the fields become those of the abstract slot after rendering |
| ConfirmationUi.ApiConfirmationUI.Resolve | cogtrix_core/api/confirmation.py:149-164 | accepted exactly when the id is the pending prompt's; otherwise nothing changes |
| ConfirmationUi.ApiConfirmationUI.Cancel | cogtrix_core/api/confirmation.py:166-180 | the pending prompt's event is set and its cancellation noted; the action is left as it was, so a prompt nobody answered reads as a refusal |
| ConfirmationUi.PollUntilDone | cogtrix_core/api/confirmation.py:114-147 | at most 600 polls; the loop stops at the first poll that is signalled, displaced or cancelled, or when the polls made have taken 300 seconds, and no poll begins after that |
| ConfirmationProtocol.RunKeepsInv | cogtrix_core/agent/safety.py:300-391 | the invariant of the protocol, over every run: the block has one occupant, the slot answers the latest prompt only, and what each call may do was granted |
| ConfirmationSafety.OnlyAuthorisedCallsRun | cogtrix_core/agent/safety.py:300-391 | in every interleaving, with `/approve` toggled and tools registered again at any time, the tool runs only if trust is not "deny" and the wrapper found that it needs no confirmation or that `/approve` is on, or found the tool approved with nobody having taken that approval back, or the last answer to its own prompt was y or a |
| ConfirmationSafety.AnswersAreSent | cogtrix_core/api/confirmation.py:149-164 | an approving choice for an id was sent by a `resolve` that names this id |
| ConfirmationSafety.ApprovalNamesThisPrompt | cogtrix_core/api/confirmation.py:74-88 | behind an approved reading stand, in this order, the rendering of this prompt, a `resolve` naming its id with an approving action, and the reading; no stale or foreign id authorises a call |
| ConfirmationSafety.PromptIsAnsweredExactly | cogtrix_core/agent/safety.py:357-380 | a reading call decides by the last answer to its own prompt: what it does next, and exactly how approvals, denials and deny-all change |
| ConfirmationSafety.WokenByThisPromptOnly | cogtrix_core/api/confirmation.py:114-147 | a reader wakes before its deadline exactly when its own prompt was answered, or the run cancelled, after the prompt was rendered |
| ConfirmationSafety.HolderIsNeverStuck | cogtrix_core/agent/safety.py:312-380 | whatever the client does, the call in the block can always move and leaves the block after a bounded number of its own steps |
| ConfirmationSafety.DenialIsAbsorbing | cogtrix_core/agent/safety.py:304-316 | in the wrapper, once a tool is denied, or all are, and while this is not taken back, a call to it that has not passed the wrapper's denial check runs if and only if the wrapper takes it past the confirmation block, with or without the lock and whatever the approvals |
| ConfirmationSafety.DeniedToolsNeverRun | cogtrix_core/orchestration/deduped_tool_invoker.py:427-441 | with one session state for the invoker and the wrapper, no call of a denied tool that has yet to be invoked ever runs while the denial stands, whatever `/approve`, the approvals, the metadata and the trust |
| ConfirmationSafety.NewCallStillRunsIff | cogtrix_core/orchestration/deduped_tool_invoker.py:435 | while its tool is denied a new call can still run if and only if the graph runs it on another session state than its wrapper's |
| ConfirmationSafety.DeniedWhileApproveIsOff | cogtrix_core/agent/safety.py:304-316 | while `/approve` stays off and the tool keeps needing confirmation, not even a call let through before the denial runs, on any session state |
| ConfirmationSafety.LateDenialIsOverridden | cogtrix_core/cli/commands.py:1440-1453 | a run in which a call that the invoker let through before the denial landed runs because `/approve` was switched on |
| ConfirmationSafety.RefusalPins | cogtrix_core/agent/safety.py:318-375 | after a call is refused for good, or finds no user interface, every later call to the tool on the same session state is refused, and any other runs only if its wrapper takes it past the confirmation block |
| ConfirmationSafety.ApprovalIsRemembered | cogtrix_core/agent/safety.py:315-363 | an approval lasts until it is revoked, `/approve` is switched off, or the session ends |
| ConfirmationSafety.WithoutLockAnswersLeak | cogtrix_core/agent/safety.py:312-357 | if the lock did not span rendering and reading, there is a run in which a call that nobody approved runs its tool on the answer to another prompt |
| ConfirmationOutcome.SessionIsExact | cogtrix_core/agent/safety.py:300-391 | after every run a tool is approved exactly if some step granted that and none took it back since, and denied exactly if the last step that decides it denied it or all tools |
| ConfirmationOutcome.RunsIffAuthorised | cogtrix_core/agent/safety.py:300-391 | in every interleaving a call runs, or is about to on its answer, if and only if it is authorised: the wrapper refuses nothing that needs no confirmation, was found approved, or was allowed by its own prompt |
| ConfirmationOutcome.FinishedCallsAreTold | cogtrix_core/agent/safety.py:300-391 | the labels of a run tell how each finished call ended: run, refused or aborted, each if and only if |
| ConfirmationOutcome.PromptsAreNeeded | cogtrix_core/agent/safety.py:300-343 | a prompt is rendered only for a call that was found to need confirmation, with `/approve` off, neither denied nor approved, and with somebody to ask |
| ConfirmationOutcome.ApprovedCallRuns | cogtrix_core/agent/safety.py:312-316 | a remembered approval is honoured: a call in the block whose tool is approved and not denied runs by its own three steps, without a prompt, and changes nothing else |
| ConfirmationOutcome.AsksIff | cogtrix_core/agent/safety.py:315-339 | after the approval check a prompt can follow if and only if the tool was not approved and there is a user interface; an approved call runs, and without an interface the tool is denied |
| ConfirmationOutcome.EveryCallCanFinish | cogtrix_core/agent/safety.py:300-391 | from every reachable state every call can be brought to its end by its own steps after those of the call holding the lock, at most 24 in all, whatever the client does |
| McpReconnect.HandlesLostExactly | cogtrix_core/mcp_client.py:860-934 | in every interleaving of reconnects, disconnects and restarts, the open handles nobody refers to are as many as the steps that installed a connection over another or were a restart's failure to connect |
| McpReconnect.NoHandleIsLostIff | cogtrix_core/mcp_client.py:1573-1591 | so a run keeps every handle if and only if it has no such step |
| McpReconnect.RunKeepsLocks | cogtrix_core/mcp_client.py:879-903 | in every run a reconnect is inside exactly when it owns its server's lock |
| McpReconnect.NoHandleIsLost | cogtrix_core/mcp_client.py:860-903 | without restarts, every open handle is installed in `_connections` or held by a running task, and every installed handle is open |
| McpReconnect.InstallNeverOverwrites | cogtrix_core/mcp_client.py:860-903 | when a reconnect installs its connection, the server has none |
| McpReconnect.ReconnectsExclude | cogtrix_core/mcp_client.py:879-882 | two reconnects of one server are never both inside its lock |
| McpReconnect.QuiescentHandles | cogtrix_core/mcp_client.py:860-934 | when every task has ended, the open handles are the installed connections, one for each server, and as many more as the run lost; without restarts they are exactly the installed ones |
| McpReconnect.OwnerReleases | cogtrix_core/mcp_client.py:880-900 | the owner of a server's lock can always move, and gives the lock back after at most four steps, however its connection attempt ends |
| McpReconnect.RestartAloneIsCleanIff | cogtrix_core/mcp_client.py:1573-1591 | in every run with one restart and no other task, no handle is lost if and only if no connect attempt failed |
| McpReconnect.RestartRacesReconnect | cogtrix_core/mcp_client.py:1562-1592 | a run in which a restart overwrites the connection a reconnect has just installed, losing an open handle |
| McpReconnect.DisconnectedComesBackIff | cogtrix_core/mcp_client.py:1661-1673 | after a disconnect some continuation brings the server back without anyone configuring it if and only if a reconnect or restart had read its configuration and has yet to finish |
| McpReconnect.RestartFindsNoConfiguration | cogtrix_core/mcp_client.py:1577-1584 | a restart that has yet to read a configuration that is gone can only fail, changing no table |
| McpReconnect.DisconnectDefeatsRestart | cogtrix_core/mcp_client.py:1577-1584 | a run in which a disconnect during the restart's close ends the restart, after which the server stays gone |
| McpAlone.ReconnectReconnects | cogtrix_core/mcp_client.py:860-903 | from every reachable state a reconnect of a configured server whose lock is free, let to run, ends with the old handle closed and the lock free: finished with a new handle installed, or failed with none installed and none left open |
| McpAlone.RestartRestarts | cogtrix_core/mcp_client.py:1545-1592 | a restart let to run replaces the connection in the same way, but leaves the handle of a failed attempt open |
| McpAlone.DisconnectDisconnects | cogtrix_core/mcp_client.py:1622-1682 | a disconnect let to run ends with the server neither configured nor connected and its handle closed, whoever holds the lock |
| McpAlone.NothingToDo | cogtrix_core/mcp_client.py:860-879 | a reconnect gives up at once exactly when the manager shuts down or the server has no configuration, a restart when it has none, and nothing changes |
| McpAlone.WaitsForLockOnly | cogtrix_core/mcp_client.py:879-884 | a reconnect waits exactly for the lock, and gives up without touching the connection if the manager shuts down meanwhile |
| McpNaming.NamesAreFresh | cogtrix_core/mcp_client.py:1198-1254 | every insertion is under a new key: as many names as wrapped tools, each naming a tool of the list by its own or its prefixed name |
| McpNaming.NamesAreKept | cogtrix_core/mcp_client.py:1198-1254 | a name once given keeps its tool while later tools are named |
| McpNaming.ToolIsNamedIff | cogtrix_core/mcp_client.py:1203-1254 | a tool gets its own name if it is free, else its prefixed one if that is free, and none if and only if it may not be wrapped or neither is; it keeps its server, original name and confirmation flag, and touches no other name |
| McpNaming.OwnNameIsTaken | cogtrix_core/mcp_client.py:1198-1254 | in the end the own name of every tool that may be wrapped has been given or was to be avoided |
| McpNaming.ListAvoidsBase | cogtrix_core/mcp_client.py:1707-1754 | `get_langchain_tools` never takes a name it was told to avoid |
| McpNaming.ConnectSkipsReserved | cogtrix_core/mcp_client.py:1207-1213 | `connect_all` never wraps a tool with a reserved name |
| McpNaming.ConnectAvoidsBaseIff | cogtrix_core/mcp_client.py:1215-1234 | `connect_all` takes no name it was told to avoid if and only if no colliding tool's prefixed name is one |
| McpNaming.NamingsAgreeIff | cogtrix_core/mcp_client.py:1707-1754 | for the same tools in the same order, both namings are equal if and only if no tool shadows an avoided name and no reserved name would be admitted |
| McpNaming.NamingsAgree | cogtrix_core/mcp_client.py:1707-1754 | the two namings are equal when no tool has a reserved name and no prefixed name is to be avoided |
| McpNaming.ReservedNameDiverges | cogtrix_core/mcp_client.py:1707-1754 | a tool called "checkpoint" gets no name at connection and its own name after a restart |
| McpNaming.BuiltinIsShadowed | cogtrix_core/mcp_client.py:1215-1234 | a tool list on which `connect_all` takes a built-in's name, and `get_langchain_tools` would not |
| McpMirror.ApplyKeepsMirror | cogtrix_core/mcp_client.py:1515-1682 | connecting, restarting and removing each keep the mirror: a name is mapped to a server exactly when its registry metadata says so, the tool stored is that server's, every mapped server is configured, and the pinned set is the MCP names whose metadata says pin |
| McpMirror.EveryRunKeepsMirror | cogtrix_core/api/mcp_runtime.py:46-108 | so does every sequence of these operations from a fresh start |
| McpMirror.ConnectLeavesOthers | cogtrix_core/mcp_client.py:1140-1260 | connecting changes no entry it does not name, nor the server it is mapped to, and touches none registered before exactly when no prefixed name shadows one |
| McpMirror.RestartLeavesOthers | cogtrix_core/api/routes/mcp.py:514-551 | a restart leaves every built-in and every other server's tool as it was, without any condition on names |
| McpMirror.RestartRebuilds | cogtrix_core/mcp_client.py:1593-1610 | after a restart the names that belong to the server are exactly those just given, with the given pin |
| McpMirror.NameTargetsAvoid | cogtrix_core/mcp_client.py:1599-1608 | in a restart of several servers the names given keep clear of the collision base, and each comes from a connected target |
| McpMirror.RestartAllRebuilds | cogtrix_core/mcp_client.py:1572-1610 | after a restart of any number of servers, the names mapped to them are exactly those just given, none a built-in's, and every other server's names are as they were |
| McpMirror.RestartAllOfOne | cogtrix_core/mcp_client.py:1545-1610 | for one server this is the restart the mirror theorems are about |
| McpMirror.RegisterFresh | cogtrix_core/api/mcp_runtime.py:46-81 | registering a server's tools where it has none makes its names exactly those registered |
| McpMirror.RemoveRevokesExactly | cogtrix_core/api/routes/mcp.py:245-257 | removing a server removes exactly its names from the registry, the metadata, the pinned set and the map |
| McpMirror.BuiltinsSurvive | cogtrix_core/api/mcp_runtime.py:28-43 | a built-in tool is unchanged by any run in which no connection shadows a registered name |
| McpSettings.ConnectInstalls | cogtrix_core/mcp_client.py:1152-1198 | every server in the list is configured with its own entry, and connected with the tools it offered if it answered |
| McpSettings.ConnectSets | cogtrix_core/api/mcp_runtime.py:64-81 | after connecting, every name is as it was or carries the confirmation and pin settings of one of the servers in the list, and is a tool that this server offers |
| McpSettings.RestartSets | cogtrix_core/api/routes/mcp.py:536-550 | after a restart every name of the server carries its configured confirmation and the given pin, and is a tool it now offers; nothing is left of a server that could not be reached |
| McpSettings.ConnectOffersAll | cogtrix_core/mcp_client.py:1198-1254 | after connecting, the own name of every tool offered that may be wrapped is in the registry |
| McpSettings.RestartOffersAll | cogtrix_core/mcp_client.py:1593-1610 | so it is after a restart |
| McpSettings.EveryRunKeepsSettings | cogtrix_core/mcp_client.py:672 | over every sequence of start-ups, additions under new names, restarts and removals, whether a tool asks for confirmation and whether it is pinned is what the configuration of its own server says |
| McpRuntime.MCPManager.NameOne | cogtrix_core/mcp_client.py:1203-1254 | one turn of the naming loop |
| McpRuntime.MCPManager.NameServer | cogtrix_core/mcp_client.py:1198-1254 | the loop over one server's tools names them in turn and maps each name to the server |
| McpRuntime.MCPManager.ConnectAll | cogtrix_core/mcp_client.py:1140-1260 | the new connections, configurations and map are those of the value-level operation |
| McpRuntime.MCPManager.GetLangchainTools | cogtrix_core/mcp_client.py:1684-1754 | names the tools of the connected targets and adds them to the map |
| McpRuntime.MCPManager.PurgeMap | cogtrix_core/mcp_client.py:1574-1576 | removes exactly the server's entries from the map |
| McpRuntime.MCPManager.Restart | cogtrix_core/mcp_client.py:1515-1620 | the manager's whole new state and the tools returned, for one named server or for all of them, each reconnected or not |
| McpRuntime.MCPManager.ReconnectTargets | cogtrix_core/mcp_client.py:1573-1591 | the loop that purges, closes and reconnects each target |
| McpRuntime.MCPManager.NameTargets | cogtrix_core/mcp_client.py:1593-1608 | the loop that names the connected targets' tools, each server clear of those before it |
| McpRuntime.MCPManager.Disconnect | cogtrix_core/mcp_client.py:1622-1682 | the manager's whole new state |
| McpRuntime.AppState.McpBuiltinToolNames | cogtrix_core/api/mcp_runtime.py:28-43 | exactly the registered names without MCP metadata |
| McpRuntime.AppState.RegisterMcpTools | cogtrix_core/api/mcp_runtime.py:46-81 | the registry's whole new state after adding the named tools, in any order |
| McpRuntime.AppState.UnregisterMcpServerTools | cogtrix_core/api/mcp_runtime.py:84-108 | exactly the server's names are gone, and returned |
| McpRuntime.AppState.ConnectServers | cogtrix_core/api/app.py:473-507 | start-up is the value-level operation that the mirror theorems are about |
| McpRuntime.AppState.RestartServer | cogtrix_core/api/routes/mcp.py:514-551 | so is the restart route |
| McpRuntime.AppState.RemoveServer | cogtrix_core/api/routes/mcp.py:245-257 | so is the route that removes a server |
| McpStartup.ConnectOne | cogtrix_core/mcp_client.py:974-1116 | exactly the attempts that come before the first success, fail-fast failure or third try are made; every handle opened is closed except the one returned; and the time taken is exactly that of the attempts, their closing and the back-offs between them |
| McpStartup.RetriesFitIff | cogtrix_core/mcp_client.py:1174-1179 | a server that uses up its retries is done within the start-up budget if and only if its three attempts with the two back-offs take no longer than the largest timeout and five seconds |
| McpStartup.AlwaysFitsIff | cogtrix_core/mcp_client.py:1174-1179 | every way the attempts of a server can go fits the budget if and only if three attempts of full length with the back-offs do |
| McpStartup.SlowestMayExceed | cogtrix_core/mcp_client.py:1174-1179 | so the slowest server is never sure to fit, though a single attempt of any server does when closing takes at most five seconds |
| McpStartup.SilentServerExceeds | cogtrix_core/mcp_client.py:739-745 | with the default timeout three attempts that time out take 97 of 35 seconds, three that are refused at once take 7 |
| McpStartup.RestartBudgetCoversWaits | cogtrix_core/mcp_client.py:1550-1560 | the overall timeout of a restart is at least the sum of all its inner waits, for any list of targets |
| JsonPointer.Walk | cogtrix_core/mcp_client.py:245-254 | the walk follows the decoded tokens through nested mappings and fails where a key is missing |
| JsonPointer.FollowIsAChain | cogtrix_core/mcp_client.py:249-254 | a path leads to a node if and only if there is a chain of nodes from the root, each the named field of the one before |
| JsonPointer.ResolveRef | cogtrix_core/mcp_client.py:239-263 | the type of the node the reference leads to, `str` when it leads nowhere, and the error for a type that cannot be looked up |
| JsonPointer.NamedTypes | cogtrix_core/mcp_client.py:224-232 | the type of each of the seven names, `str` for any other, and an error exactly for a list or a mapping |
| JsonPointer.FirstTypeCounts | cogtrix_core/mcp_client.py:259-262 | of a list of types the first that is not "null" counts, and "string" when there is none |
| JsonPointer.DecodeEscape | cogtrix_core/mcp_client.py:251 | decoding `~1` before `~0` undoes escaping, for every key |
| JsonPointer.TildeFirstReadsBackIff | cogtrix_core/mcp_client.py:251 | decoding in the other order would undo it exactly for the keys that do not contain `~1` |
| JsonPointer.SplitJoin | cogtrix_core/mcp_client.py:248 | splitting at "/" undoes joining, for tokens without a slash |
| JsonPointer.PointerRoundTrip | cogtrix_core/mcp_client.py:245-254 | for every document and every non-empty path of keys, the pointer written for the path leads to exactly the node the path leads to |
| ContextTrim.ShortenedCost | cogtrix_core/agent/core.py:445-471 | a shortened text message costs at most the limit plus its marker's tokens |
| ContextTrim.TruncatedText | cogtrix_core/agent/core.py:460-471 | a truncated text keeps both ends of the original and has the length of the limit plus the marker |
| ContextTrim.BudgetLeavesRoom | cogtrix_core/agent/core.py:500-512 | the answer's reserve stays free in every window that has room for it, the budget stays positive, and one token more would leave less than 1024 tokens or a quarter of the window |
| ContextTrim.CutFromFourOver | cogtrix_core/agent/core.py:460-471 | a text is cut exactly when it is four characters or more over four times the limit, to its two ends around a marker that says how much is gone; everything else stays as it is |
| ContextTrim.PartsMakeWhole | cogtrix_core/agent/core.py:514-523 | system head, history and user tail are the conversation, cut in three |
| ContextTrim.DropOldest | cogtrix_core/agent/core.py:574-579 | the running total drops messages from the front until the rest fits, and no more |
| ContextTrim.DropOrphans | cogtrix_core/agent/core.py:591-604 | pops the leading AI and Tool messages, and no more |
| ContextTrim.FitIsLongest | cogtrix_core/agent/core.py:574-579 | what is kept fits, and keeping even one message more would not |
| ContextTrim.KeptIsSuffix | cogtrix_core/agent/core.py:574-604 | the kept history is a suffix in order, fits, starts a turn, and all that was dropped beyond the longest fitting suffix are AI and Tool messages |
| ContextTrim.TrimToTokenBudget | cogtrix_core/agent/core.py:487-617 | the in-place trimming computes the function the theorems are about |
| ContextTrim.TrimmedFits | cogtrix_core/agent/core.py:487-617 | in estimated tokens: with budget left for history the result costs at most the budget; otherwise only head and tail remain; both always survive in place |
| ContextTrim.TextFitsBudget | cogtrix_core/agent/core.py:445-457 | in characters: whenever any history is sent, what is sent is no longer than four characters for each token of the budget and three for each message, lists of blocks included |
| ContextTrim.OnlyTheExcessIsDropped | cogtrix_core/agent/core.py:574-604 | in characters: every longer end of the history would exceed four characters a token of the budget, counting at least four a message and forty for an empty one, and of the end that fits only leading AI and Tool messages are dropped |
| ContextTrim.WhatFitsIsSentWhole | cogtrix_core/agent/core.py:487-617 | a conversation of at most so many characters that starts a turn and has no oversized message is sent as it is |
| ContextTrim.EndsSurvive | cogtrix_core/agent/core.py:514-523 | the system message and the last message are always first and last of what is sent, shortened to half the budget at most |
| ContextTrim.EveryMessageIsBounded | cogtrix_core/agent/core.py:525-573 | every message of the result is one of the conversation, shortened: a text of head or tail costs at most half the budget, one of the history at most the single-message limit, each with its marker if it was cut |
| ContextTrim.NothingDroppedWhenItFits | cogtrix_core/agent/core.py:487-617 | a conversation that fits loses no turn |
| ContextTrim.TrimmedPaired | cogtrix_core/agent/core.py:574-617 | if every Tool message had its AI message before it with only AI and Tool messages between, then every one that is kept still has |
| ContextTrim.PrepareMessages | cogtrix_core/agent/core.py:620-688 | assembling history, prefix and input and trimming them |
| ContextTrim.PreparedPaired | cogtrix_core/agent/core.py:620-688 | the prepared conversation is paired whenever the history was, and ends with the user's input |
| AuditTail.JoinSplit | cogtrix_core/audit.py:215 | splitting at newlines is undone by joining, no piece holds a newline, and k newlines give k + 1 pieces |
| AuditTail.SplitConcat | cogtrix_core/audit.py:214-215 | splitting a concatenation glues exactly the two pieces at the seam |
| AuditTail.TailLines | cogtrix_core/audit.py:199-219 | the last n pieces of what the scan read; nothing for n below one |
| AuditTail.ScanBackwards | cogtrix_core/audit.py:204-215 | the loop ends with exactly the pieces behind the position where the scan must stop |
| AuditTail.StopPosIsFirst | cogtrix_core/audit.py:210-215 | the scan reads no block more than it needs |
| AuditTail.TailExactIff | cogtrix_core/audit.py:199-219 | for every file, block size and n, all lines are the true last lines except possibly the oldest, which is a suffix of the true one; it is cut if and only if the file ends a line, the scan stopped inside the file holding exactly n newlines, and not at a line start |
| AuditTail.StopPosOnBlock | cogtrix_core/audit.py:210-215 | the scan stops at the start of the file or at the block boundary nearest the end that is enough |
| AuditTail.CutsOldestLineIff | cogtrix_core/audit.py:199-219 | the oldest line is cut if and only if the file ends a line and some block boundary, not a line start, has exactly n newlines behind it |
| AuditTail.LogIsCutIff | cogtrix_core/audit.py:77-142 | on a log of at least n records this is a block boundary inside the n-th record from the end, or right behind its last byte; on a shorter log nothing is cut |
| AuditTail.UnfinishedFileIsExact | cogtrix_core/audit.py:199-219 | a file without a final newline is always read exactly |
| AuditTail.OneMorePieceIsExact | cogtrix_core/audit.py:210 | asking for one piece more makes the reader exact on every file |
| AuditTail.AuditLogger.Record | cogtrix_core/audit.py:77-87 | appends exactly one line, or nothing when disabled or when writing fails |
| AuditTail.AuditLogger.Tail | cogtrix_core/audit.py:124-142 | the events of the tail lines that parse, in order |
| AuditTail.ParsedExactly | cogtrix_core/audit.py:124-142 | the events are those of exactly the lines that parse, in order: a bad line costs only itself |
| AuditTail.TrueLinesEncoded | cogtrix_core/audit.py:77-87 | the lines of a log are the records written to it |
| AuditTail.TailOfLog | cogtrix_core/audit.py:124-142 | on a log of records, `tail` returns the last n, or loses exactly the oldest of them when that line was cut and no longer parses |
| AuditTail.BlockLongRecordIsCut | cogtrix_core/audit.py:199-219 | with the block size in use, a log of one block-long record is read wrongly |
| AuditTail.Query | cogtrix_core/audit.py:144-196 | the matching events, newest first, up to the limit, but always at least the first match |
| AuditTail.NewestExactly | cogtrix_core/audit.py:160-196 | the matches are exactly the lines that parse and pass the filter, last one first |
| AuditTail.QueryReversesTail | cogtrix_core/audit.py:124-196 | an unfiltered query is `tail` backwards, whenever the tail cut no line |
| SecretCache.AbsorbKeepsLookups | cogtrix_core/config.py:2538-2566 | looking secrets up, and caching them, changes no later answer, so the order of the reads does not matter |
| SecretCache.SecretStore.SecretEnv | cogtrix_core/config.py:2538-2566 | the live value, else the cached one, else the named file's text without one line end, an error when that cannot be read or is empty, nothing when no file is named; what was found is cached and nothing else changes |
| SecretCache.SecretStore.UnsetSensitiveEnv | cogtrix_core/config.py:2471-2481 | removes exactly the listed names and the generic provider keys |
| SecretCache.GenericNames | cogtrix_core/config.py:2628-2637 | exactly the generic provider keys that are live, cached, or reachable through a `_FILE` variable |
| SecretCache.SecretStore.ReadEntries | cogtrix_core/config.py:2604-2615 | fails exactly when one of the names is unreadable; else caches and configures each that resolves |
| SecretCache.SecretStore.ReadGenericKeys | cogtrix_core/config.py:2638-2642 | the same for the generic keys, in any order, which override the well-known ones |
| SecretCache.SecretStore.ApplyEnvVars | cogtrix_core/config.py:2588-2749 | a load's whole effect on cache, environment and configured keys; a failed one leaves the environment untouched |
| SecretCache.UnsetNamesAreRead | cogtrix_core/config.py:2430-2455 | every variable that is unset has been read by the same load |
| SecretCache.LoadUnsetsExactly | cogtrix_core/config.py:2742-2749 | after a load that unsets, no sensitive variable is left, every other is unchanged, and each value removed is in the cache |
| SecretCache.UnreadableFileKeepsSecrets | cogtrix_core/config.py:2514-2520 | an environment in which an unreadable secret file for one provider makes every load fail and leaves another provider's key inheritable |
| SecretCache.LoadedSecretsStay | cogtrix_core/config.py:2538-2566 | every secret a load read resolves afterwards to what that load found, whatever has become of the files |
| SecretCache.ReloadConfiguresTheSame | cogtrix_core/config.py:2588-2749 | a reload can be read in full and allows exactly the same provider and service keys as the load before it |
| SecretCache.OrdersGiveExactly | cogtrix_core/config.py:2638-2642 | the configurations a load is allowed are exactly those that some order of reading the generic keys gives |
| SecretCache.ConfigurationIsDeterminedIff | cogtrix_core/config.py:2638-2642 | every order of reading the generic keys gives the same configuration if and only if no provider gets two different values from them |
| SecretCache.TwoSpellingsClash | cogtrix_core/config.py:2398-2400 | an environment with one provider's name in two spellings and two keys, in which the order decides |
| SecretCache.SecretsOutliveTheirVariables | cogtrix_core/config.py:2484-2496 | over any run of loads, reads and environment changes, a secret once read, even by a load that then failed, resolves to the same value at every later moment unless its variable is set to a new value |
| SecretValues.WrittenSecretsReadBack | cogtrix_core/config.py:2521-2535 | a secret file with "\r\n" after the secret reads back as the secret, one with "\n" exactly when the secret does not end in "\r", and one without a line end exactly when the secret does not end in "\n" |
| SecretValues.LoadReadsFiles | cogtrix_core/config.py:2521-2566 | a load without a variable or cached value takes the secret from the named file, and keeps it |
| SecretValues.VariableConfiguresItsSlot | cogtrix_core/config.py:2602-2712 | each documented variable that resolves configures its own provider or service, unless a generic key is found for that provider; one that does not leaves the configuration file's key |
| SecretValues.OneVariableOneKey | cogtrix_core/config.py:2588-2749 | with one documented variable set and nothing else every load succeeds, sets exactly that key, caches it and, if it unsets, leaves the environment empty |
| SecretValues.GenericKeyWins | cogtrix_core/config.py:2638-2659 | a generic key, the only one for its provider, configures the provider it names in lower case, over the documented variable |
| SecretValues.KeptWhenAsked | cogtrix_core/config.py:2457-2469 | the escape hatch is open exactly for "1", "true" and "yes", in any case and with any blanks around |
| SecretValues.SigningSecretIsTaken | cogtrix_core/config.py:2742-2749 | the signing secret is taken out of the environment and stays in the cache |
| StreamCallbacks.WebSocketCallbackHandler.constructor | cogtrix_core/api/callbacks.py:37-70 | no tool started, nothing buffered, no frame |
| StreamCallbacks.WebSocketCallbackHandler.OnLlmNewToken | cogtrix_core/api/callbacks.py:109-143 | the fields and frames after a token |
| StreamCallbacks.WebSocketCallbackHandler.OnToolStart | cogtrix_core/api/callbacks.py:193-224 | the fields and frames after a tool start |
| StreamCallbacks.WebSocketCallbackHandler.OnToolEnd | cogtrix_core/api/callbacks.py:226-244 | the fields and frames after a tool end, with its duration |
| StreamCallbacks.WebSocketCallbackHandler.OnToolError | cogtrix_core/api/callbacks.py:246-265 | the fields and frames after a tool error |
| StreamCallbacks.ToolStartsAreInFlight | cogtrix_core/api/callbacks.py:193-231 | after any events the recorded keys are exactly those started with no end since |
| StreamCallbacks.InFlightWhenPaired | cogtrix_core/api/callbacks.py:193-255 | with distinct run ids and paired events, these are the tools started and not ended |
| StreamCallbacks.FinalIsDecided | cogtrix_core/api/callbacks.py:124-126 | a token counts as final exactly when some tool has started and none is in flight |
| StreamCallbacks.ClientShowsLastBlockIff | cogtrix_core/api/callbacks.py:109-143 | the client ends with exactly the last block of final tokens if and only if the token before that block carried a run id |
| StreamCallbacks.SupersededAnswerStays | cogtrix_core/api/callbacks.py:136-141 | a turn in which the client keeps a superseded answer, because its token carried no run id |
| StreamCallbacks.ClientShowsLastBlock | cogtrix_core/api/callbacks.py:132-142 | when all final tokens carry run ids it always does, and the discards are one fewer than the blocks |
| StreamCallbacks.BufferedTurn | cogtrix_core/api/callbacks.py:127-130 | without live streaming no final token and no discard is ever enqueued, and the flag is set exactly when a final token was held back |
| StreamCallbacks.TokensAreConserved | cogtrix_core/api/callbacks.py:109-143 | every token is enqueued once and in order, except the final ones that buffering holds back |
| StreamCallbacks.EveryToolEventIsAnnounced | cogtrix_core/api/callbacks.py:193-265 | each start, end and failure of a tool, and each model error, is announced by exactly one frame at its place; an end carries its own key, is marked failed exactly for a failure, and lasts from the last start of that key |
| SessionMetrics.ParseLog | cogtrix_core/analysis/session_metrics.py:104-151 | one bucket for each session seen, holding exactly its calls and the lines of its searches, checkpoints and writes; fails exactly when a tool start names no tool |
| SessionMetrics.CallsExactly | cogtrix_core/analysis/session_metrics.py:125-128 | the calls are the tools named on exactly the session's lines that start one, in order |
| SessionMetrics.FirstWordIs | cogtrix_core/analysis/session_metrics.py:126 | the tool is the word between the leading blanks and the next blank |
| SessionMetrics.OneLineEach | cogtrix_core/analysis/session_metrics.py:127-135 | the parser keeps as many line numbers as there are calls of the tool |
| SessionMetrics.PositionsAreTheSearches | cogtrix_core/analysis/session_metrics.py:228-235 | the positions are those of the searches, each once and in order |
| SessionMetrics.ScanFindsNext | cogtrix_core/analysis/session_metrics.py:228-238 | the k-th round of the scan finds the k-th search, and none is found after the last |
| SessionMetrics.ComputeWshr | cogtrix_core/analysis/session_metrics.py:218-247 | for any recorded lines, the score is the hits among the searches the rounds visit, over the number of lines; none exactly when there are no lines |
| SessionMetrics.AnyUseful | cogtrix_core/analysis/session_metrics.py:241-244 | a search is a hit exactly when one of the next five calls is neither discovery nor a search |
| SessionMetrics.HitRateIsTheFraction | cogtrix_core/analysis/session_metrics.py:218-247 | on parsed data every round finds a search, and the score is the share of all searches that are followed within five calls by a call of use |
| SessionMetrics.ComputeRba | cogtrix_core/analysis/session_metrics.py:168-194 | 100 exactly when the first call that is not discovery is a search, 0 otherwise, none exactly without calls |
| SessionMetrics.ComputeCrs | cogtrix_core/analysis/session_metrics.py:250-269 | the penalty counts exactly the discovery tools called more than twice, for each checkpoint, and the score is never negative |
| SessionMetrics.CompositeIsAMean | cogtrix_core/analysis/session_metrics.py:354-384 | the composite lies between the smallest and the largest score there is, and is missing exactly when all are |
| SessionMetrics.CompositeOfPercentages | cogtrix_core/analysis/session_metrics.py:370-384 | with the weights in use, percentages give a percentage |
| SessionMetrics.ComputeTtfpa | cogtrix_core/analysis/session_metrics.py:197-215 | one more than the position of the first productive call; none exactly when there is none |
| SessionMetrics.PrimarySession | cogtrix_core/analysis/session_metrics.py:306-308 | a session no other of which has more calls |
| SessionMetrics.ComputeSessionMetrics | cogtrix_core/analysis/session_metrics.py:294-388 | for every log: an error exactly for a tool start without a name, no data exactly without lines, else the session with most calls, each of its six scores told from its calls, and the composite as their weighted mean, between 0 and 100 and missing exactly without calls |
| LazyProxy.RunKeepsInv | cogtrix_core/registry.py:131-155 | the invariant of double-checked locking, over every interleaving |
| LazyProxy.ResolvedIsWriteOnce | cogtrix_core/registry.py:131-155 | once set, the resolved tool never changes |
| LazyProxy.CallersAgree | cogtrix_core/registry.py:131-155 | any two callers that return got the same tool |
| LazyProxy.ImportedOnce | cogtrix_core/registry.py:139-153 | the module is imported successfully at most once by the proxy, unless its name has vanished from the registry |
| LazyProxy.FailureIsRetryable | cogtrix_core/registry.py:139-153 | a failed import leaves the proxy unresolved and unlocked, and a later call can resolve it |
| LazyProxy.LookupFindsStubIff | cogtrix_core/registry.py:145-154 | the lookup after the import finds the proxy itself exactly when nobody registered the name |
| LazyProxy.ResolvesToRealTool | cogtrix_core/registry.py:374-434 | if every import registers the name, every caller that returns has got a real tool, and no other is ever stored |
| LazyProxy.ResolvesToLastRegistered | cogtrix_core/registry.py:144-155 | every caller gets the tool that was last registered under the proxy's own name before its look-up, by whomever and however often |
| LazyProxy.LaterCallersReturn | cogtrix_core/registry.py:131-141 | once the tool is stored, a caller that checks, or checks again under the lock, returns it at once |
| LazyProxy.UnregisteredNameResolvesToItself | cogtrix_core/registry.py:131-155 | if an import does not, there is a run in which the stub resolves to itself |

## Left out

- ConfirmationUi.RunConfirmationPrompt: inputs are a finite sequence that must hold an answer, because waiting for a
  terminal user who never answers has no end; the API interface never needs a second reading.
- ConfirmationSafety.OnlyAuthorisedCallsRun: one API user interface is modelled; a confirmation shared with other user
  interfaces is not.
- ConfirmationSafety.DenialIsAbsorbing: calls approved before the denial may still finish, as in the code.
- ConfirmationSafety.DeniedToolsNeverRun: of the invoker only its denial check is modelled; cached duplicates, call
  budgets and argument corrections never make a call run.
- McpReconnect.HandlesLostExactly: task cancellation and `close_all` are not modelled; closing a handle always ends.
- McpMirror.ApplyKeepsMirror: the routes restart one server, so the mirror is about that; restarting several is at the
  manager only. Operations that time out or overlap are not modelled.
- McpSettings.EveryRunKeepsSettings: servers are added under names not in use, as the route makes sure.
- McpAlone.ReconnectReconnects: a task running among others is the subject of `McpReconnect`'s theorems.
- McpRuntime.MCPManager.ConnectAll: connecting within the budget; a start-up that exceeds it fails as a whole.
- ContextTrim.TrimmedFits: the reserve of a quarter of the window is an integer quotient, which is what the
  product truncated to an integer gives; messages are values, so that two lists sharing one message object is not expressed.
- AuditTail.TailLines: works on bytes; decoding the lines as UTF-8 with replacement is not modelled.
- SecretCache.SecretStore.ApplyEnvVars: the configuration is the keys of providers and services; the other settings of
  the same function, the preset details of a new provider and the warning about its base URL are left out. The six and
  nine consecutive reads of well-known names are loops over tables, and the names of generic keys are collected in one
  set. A secret file that is not valid UTF-8 is not
  modelled.
- SecretValues.WrittenSecretsReadBack: a file is the text that reading it gives; translating line ends while reading is
  not modelled.
- StreamCallbacks.TokensAreConserved: frames are those handed to the queue; a full queue drops frames later.
- SessionMetrics.PrimarySession: between sessions with equally many calls any may be chosen.
- SessionMetrics.ComputeWshr: scores are exact; rounding to two decimals is left out. Matching the line pattern is
  not modelled, nor are the counters of rounds, nudges and breaks.
- LazyProxy.ImportedOnce: a Python import that runs again after failing half-way is one failed import.
- Strings are sequences of ASCII characters: lower-casing and stripping of other characters are not modelled.
- The spinner, the diff preview and the automatic commit around a confirmed call: they do not take part in the decision.
- The MCP wire protocol, URL validation, path normalisation and building argument models: no state of interest.
- The interactive program, the set-up wizard and database migrations: user interface and wiring.
