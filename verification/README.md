# rcl action endpoints and security-directory lookup, in Dafny

This project models three parts of ROS 2's `rcl` and `rcl_action` C libraries and proves properties of the model.

- **The action server's goal registry** (`action_server.dfy`, module `ActionServerModel`).
  - An `ActionServer` object holds an optional implementation record.
  - The record owns five transport entities: the goal, cancel and result services, and the feedback and status publishers.
  - It also owns the action name, the options and the registry of goal handles in acceptance order.
  - Modelled operations: init, fini and validity; accepting a goal with duplicate rejection; goal lookup by uuid; the goal status array snapshot; and the getters.
- **The action client** (`action_client.dfy`, module `ActionClientModel`). This is a validated pass-through to five transport entities: three service clients and two subscriptions.
  - Every send and take call checks the client, then the message pointer, then forwards to the transport.
  - It then translates the transport's code with a small table.
  - Init and fini run sequences of sub-entity initialisations and finalisations.
  - Three helpers connect the client to a wait set.
- **The secure root lookup** (`security_directory.dfy`, module `SecurityDirectory`).
  - A node's security directory is either the directory named by `ROS_SECURITY_NODE_DIRECTORY`, or the longest directory name under `<ROS_SECURITY_ROOT_DIRECTORY>/<namespace>` that is a prefix of the node name.

Shared values live in `rcl_types.dfy` (module `RclTypes`): the return codes, goal ids, node references, and the five-entity record `PerChannel`.

Every collaborator the core calls becomes an input carrying the code that call would return:
- name expansion, entity init and fini, allocation, `rcl_send_request` / `rcl_take_response` / `rcl_take`, and `rcl_wait_set_add_*`;
- `rcutils_get_env` becomes a map of variables;
- tinydir listings and `rcutils_is_directory` become a `FileSystem` value.

Objects that the C updates in place are classes with `modifies` frames: the server, the client and the wait set. Code that only computes is functions.

## Model

| member | source | states |
|---|---|---|
| ActionServerModel.IsValid | rcl_action/src/rcl_action/action_server.c:481-508 | valid exactly when the pointer and its impl are non-null and all five entities (goal, cancel and result services; feedback and status publishers) are valid |
| ActionServerModel.InitCheck | rcl_action/src/rcl_action/action_server.c:125-140 | null server → INVALID_ARGUMENT; null or invalid node → NODE_INVALID; then null type support, name or options, or a bad allocator → INVALID_ARGUMENT; then an existing impl → ALREADY_INIT; OK exactly when every check passes |
| ActionServerModel.EntityInitCode | rcl_action/src/rcl_action/action_server.c:53-115 | a service or publisher init step yields OK only if both name expansion and init succeed; BAD_ALLOC is kept from either; any other failure becomes ERROR |
| ActionServerModel.InitOutcome | rcl_action/src/rcl_action/action_server.c:141-188 | after the checks, init succeeds exactly when allocation, all five entity inits and the name copy succeed; a failed allocation is BAD_ALLOC; a failing goal step gives its own code |
| ActionServerModel.InitOutcomeIsFirstFailure | rcl_action/src/rcl_action/action_server.c:141-188 | the outcome is FirstFailure of the steps in the C order (allocation, goal, cancel, result, feedback, status, name copy): the code of the first step that fails, so a later step's BAD_ALLOC is kept |
| RclTypes.FirstFailure | rcl_action/src/rcl_action/action_server.c:141-188 | OK exactly when every step is OK; otherwise the code of the first step that is not OK |
| ActionServerModel.ActionServer.constructor | rcl_action/src/rcl_action/action_server.c:46-51 | a zero-initialised server has no impl |
| ActionServerModel.Init | rcl_action/src/rcl_action/action_server.c:117-188 | a failed check returns its code and leaves the server untouched; otherwise the code is InitOutcome; success leaves a valid server with all entities, the name, the options and an empty registry; failure rolls back and leaves no impl |
| ActionServerModel.FiniCode | rcl_action/src/rcl_action/action_server.c:200-219 | the fini code is OK exactly when all five entity finalisations succeed, else ERROR |
| ActionServerModel.Fini | rcl_action/src/rcl_action/action_server.c:190-223 | null server → SERVER_INVALID; invalid node → NODE_INVALID with nothing changed; otherwise the impl is released so the server is invalid; a zero-initialised server gives OK |
| ActionServerModel.ExistsScanSound | rcl_action/src/rcl_action/action_server.c:450-479 | the goal lookup scan never reports a uuid that is not registered |
| ActionServerModel.ExistsScanComplete | rcl_action/src/rcl_action/action_server.c:450-479 | when every handle's info is readable, the scan is true exactly when some registered goal has the same 16-byte uuid |
| ActionServerModel.AcceptKeepsUuidsDistinct | rcl_action/src/rcl_action/action_server.c:263-300 | appending a goal the duplicate check did not find keeps a readable registry free of repeated uuids |
| ActionServerModel.UuidsEqual | rcl_action/src/rcl_action/action_server.c:466-474 | the byte-by-byte loop over the 16 uuid bytes answers true exactly when the two uuids are equal |
| ActionServerModel.GoalExists | rcl_action/src/rcl_action/action_server.c:450-479 | false for an invalid server or a null info; otherwise the in-order scan's answer, which compares uuids only and stops at an unreadable handle |
| ActionServerModel.AcceptNewGoal | rcl_action/src/rcl_action/action_server.c:258-301 | a handle is returned exactly when the server is valid, the info is non-null, the uuid is not found, reallocation succeeds and handle init succeeds; otherwise the registry is unchanged; on success exactly one handle carrying the given info is appended after the old ones |
| ActionServerModel.StatusList | rcl_action/src/rcl_action/action_server.c:329-352 | the snapshot has one entry per goal, and entry i is the info and status of goal i |
| ActionServerModel.FirstUnreadable | rcl_action/src/rcl_action/action_server.c:329-352 | the position where the snapshot loop stops: every earlier handle is readable and the handle there is not |
| ActionServerModel.GetGoalStatusArray | rcl_action/src/rcl_action/action_server.c:312-353 | invalid server → SERVER_INVALID before null output → INVALID_ARGUMENT; zero goals → OK with no array; an array init failure keeps BAD_ALLOC and is otherwise ERROR; else an array of n entries, filled in order up to the first unreadable handle (ERROR) or fully (OK, equal to StatusList) |
| ActionServerModel.GetGoalHandles | rcl_action/src/rcl_action/action_server.c:437-448 | a valid server with a non-null output reports the number of goals; the handle array is returned only when that number is positive, and it is the registry |
| ActionServerModel.GetActionName | rcl_action/src/rcl_action/action_server.c:419-426 | the name is returned exactly for a valid server, and it is the stored name |
| ActionServerModel.GetOptions | rcl_action/src/rcl_action/action_server.c:428-435 | the options are returned exactly for a valid server, and they are the stored options |
| ActionClientModel.IsValid | rcl_action/src/rcl_action/action_client.c:700-708 | a client is valid exactly when the pointer and its impl are non-null |
| ActionClientModel.Guarded | rcl_action/src/rcl_action/action_client.c:491-494 | invalid client → ACTION_CLIENT_INVALID, then null message → INVALID_ARGUMENT, and the transport is reached exactly when both checks pass |
| ActionClientModel.SendCode | rcl_action/src/rcl_action/action_client.c:496-503 | a send returns OK exactly when the transport does, and ERROR otherwise |
| ActionClientModel.GoalResponseCode | rcl_action/src/rcl_action/action_client.c:516-529 | CLIENT_TAKE_FAILED → ACTION_CLIENT_TAKE_FAILED; every other failure, BAD_ALLOC included, → ERROR |
| ActionClientModel.TakeCode | rcl_action/src/rcl_action/action_client.c:542-556 | the "nothing to take" code of the entity kind → ACTION_CLIENT_TAKE_FAILED; BAD_ALLOC is kept; anything else → ERROR |
| ActionClientModel.SendGoalRequest | rcl_action/src/rcl_action/action_client.c:485-504 | forwards to the goal client exactly when the client is valid and the request non-null; OK exactly when forwarded and the transport succeeds, ERROR when the transport fails |
| ActionClientModel.SendCancelRequest | rcl_action/src/rcl_action/action_client.c:634-653 | the same for the cancel client |
| ActionClientModel.SendResultRequest | rcl_action/src/rcl_action/action_client.c:586-605 | the same for the result client |
| ActionClientModel.TakeGoalResponse | rcl_action/src/rcl_action/action_client.c:506-530 | forwards to the goal client exactly when both checks pass; ACTION_CLIENT_TAKE_FAILED exactly for CLIENT_TAKE_FAILED; ERROR for any other failure; never BAD_ALLOC |
| ActionClientModel.TakeCancelResponse | rcl_action/src/rcl_action/action_client.c:655-680 | forwards to the cancel client; CLIENT_TAKE_FAILED → ACTION_CLIENT_TAKE_FAILED, and BAD_ALLOC exactly when the transport reports it |
| ActionClientModel.TakeResultResponse | rcl_action/src/rcl_action/action_client.c:607-632 | forwards to the result client; CLIENT_TAKE_FAILED → ACTION_CLIENT_TAKE_FAILED, and BAD_ALLOC exactly when the transport reports it |
| ActionClientModel.TakeFeedback | rcl_action/src/rcl_action/action_client.c:532-557 | forwards to the feedback subscription; SUBSCRIPTION_TAKE_FAILED → ACTION_CLIENT_TAKE_FAILED, and BAD_ALLOC exactly when the transport reports it |
| ActionClientModel.TakeStatus | rcl_action/src/rcl_action/action_client.c:559-584 | forwards to the status subscription; SUBSCRIPTION_TAKE_FAILED → ACTION_CLIENT_TAKE_FAILED, and BAD_ALLOC exactly when the transport reports it |
| ActionClientModel.CallIsGuarded | rcl_action/src/rcl_action/action_client.c:485-680 | each of the eight calls is the shared guard around its own entity and translation table |
| ActionClientModel.CheckOrderHolds | rcl_action/src/rcl_action/action_client.c:485-680 | for all eight calls: the invalid client is reported before the null message; neither case touches the transport, so the outcome does not depend on the transport's answer; once forwarded, the call succeeds exactly when the transport does |
| ActionClientModel.TranslationTablesDiffer | rcl_action/src/rcl_action/action_client.c:516-556 | BAD_ALLOC becomes ERROR in the goal-response take but is kept by the other takes; a response take does not recognise a subscription's take failure, and the reverse |
| ActionClientModel.ActionClient.constructor | rcl_action/src/rcl_action/action_client.c:51-56 | a zero-initialised client has no impl |
| ActionClientModel.InitCheck | rcl_action/src/rcl_action/action_client.c:305-324 | null client or null node → INVALID_ARGUMENT; invalid node → NODE_INVALID; then null type support, name or options, or a bad allocator → INVALID_ARGUMENT; then an existing impl → ALREADY_INIT; OK exactly when every check passes |
| ActionClientModel.SubEntityInitCode | rcl_action/src/rcl_action/action_client.c:58-104 | sub-entity init: OK exactly when name expansion and init succeed; the kind's SERVICE_NAME_INVALID / TOPIC_NAME_INVALID → ACTION_NAME_INVALID; BAD_ALLOC from either step is kept; anything else → ERROR |
| ActionClientModel.InitializedEntities | rcl_action/src/rcl_action/action_client.c:336-402 | the goal client is initialised exactly when the name copy and its own step succeeded; each later entity exactly when the one before it is and its own step succeeded |
| ActionClientModel.InitStepsCode | rcl_action/src/rcl_action/action_client.c:331-402 | the init sequence succeeds exactly when all five entities end up initialised |
| ActionClientModel.InitStepsCodeIsFirstFailure | rcl_action/src/rcl_action/action_client.c:331-402 | the sequence's code is FirstFailure of the steps in the C order (name copy, goal, cancel, result, feedback, status), so a later step's ACTION_NAME_INVALID or BAD_ALLOC is returned as is |
| ActionClientModel.FiniCode | rcl_action/src/rcl_action/action_client.c:428-461 | fini returns ERROR exactly when some entity that is still valid fails to finalise, else OK |
| ActionClientModel.FiniEntities | rcl_action/src/rcl_action/action_client.c:428-461 | the five guarded finalisations, accumulating ERROR, compute FiniCode |
| ActionClientModel.FiniIgnoresUninitialized | rcl_action/src/rcl_action/action_client.c:428-461 | the fini result of an entity that is not initialised is never consulted |
| ActionClientModel.Fini | rcl_action/src/rcl_action/action_client.c:416-470 | corrected fini: invalid client → ACTION_CLIENT_INVALID before invalid node → NODE_INVALID, both changing nothing; otherwise the code is FiniCode, and a successful fini releases the impl so the client is no longer valid |
| ActionClientModel.FiniAsWritten | rcl_action/src/rcl_action/action_client.c:416-470 | fini as written: same checks and code, but the impl is released only when some finalisation failed |
| ActionClientModel.FiniAsWrittenKeepsClientValid | rcl_action/src/rcl_action/action_client.c:462-468 | when all finalisations succeed, the as-written fini keeps the impl (the client stays valid), while the corrected one releases it |
| ActionClientModel.InitSequence | rcl_action/src/rcl_action/action_client.c:329-404 | after allocation, the name copy and the five sub-entity inits run in order: the code is InitStepsCode and the impl holds exactly InitializedEntities, the options and the copied name, which is null when the copy failed |
| ActionClientModel.Init | rcl_action/src/rcl_action/action_client.c:297-414 | init with the rollback through the corrected Fini: a failed check returns its code with the client untouched; failed allocation → BAD_ALLOC with no impl; success → a valid client with all five entities, the options and the name; a later failure rolls back, keeping the step's code unless the rollback fails (ERROR), and a successful rollback leaves no impl; OK exactly when the client ends up valid with all entities |
| ActionClientModel.InitAsWritten | rcl_action/src/rcl_action/action_client.c:297-414 | init as written: the same codes, but the rollback goes through the as-written fini, so the impl left behind is ImplAfterFiniAsWritten (kept when the rollback succeeds, with a null name if the name copy failed) |
| ActionClientModel.FailedNameCopyKeepsNullName | rcl_action/src/rcl_action/action_client.c:329-335 | a failed name copy initialises nothing, so the rollback succeeds: the as-written rollback keeps an impl with no entities and a null name, the corrected one releases it |
| ActionClientModel.FailedInitAsWrittenLeavesClientValid | rcl_action/src/rcl_action/action_client.c:407-413 | when the status subscription's topic name is rejected, the four earlier entities are initialised; with every rollback finalisation succeeding, init reports ACTION_NAME_INVALID and the as-written rollback keeps the impl with its name and options and no entities (the client stays valid), while the corrected one releases it |
| ActionClientModel.Registered | rcl_action/src/rcl_action/action_client.c:718-750 | the entities registered by adding in order until an add fails: a prefix of the order whose adds all succeeded, stopped at the first failure |
| ActionClientModel.AddCode | rcl_action/src/rcl_action/action_client.c:718-750 | the add sequence's code is OK exactly when everything is registered, else the first failing add's code unchanged |
| ActionClientModel.OfKind | rcl_action/src/rcl_action/action_client.c:718-750 | the entities of one kind (service client or subscription) in registration order: every kept entity has that kind, and there are no more than in the input |
| ActionClientModel.OfKindMembers | rcl_action/src/rcl_action/action_client.c:718-750 | an entity is kept exactly when it is in the input and has the given kind |
| ActionClientModel.OfKindAppend | rcl_action/src/rcl_action/action_client.c:718-750 | filtering keeps the order: the filter of a concatenation is the concatenation of the filters |
| ActionClientModel.AddOrderUnfolds | rcl_action/src/rcl_action/action_client.c:718-750 | the corrected sequence registers goal, cancel, result, feedback and status up to the first failing add and returns that add's code (else OK); the as-written sequence does the same but ends with feedback |
| ActionClientModel.AddActionClient | rcl_action/src/rcl_action/action_client.c:710-752 | corrected helper: null wait set → WAIT_SET_INVALID, then invalid client → ACTION_CLIENT_INVALID with nothing registered; otherwise goal, cancel, result, feedback and status are added in order until an add fails |
| ActionClientModel.AddActionClientAsWritten | rcl_action/src/rcl_action/action_client.c:710-752 | the helper as written: the same, but the adds stop after the feedback subscription |
| ActionClientModel.AddOrderKinds | rcl_action/src/rcl_action/action_client.c:718-750 | the intended order registers three service clients (goal, cancel, result), then two subscriptions (feedback, status) |
| ActionClientModel.AddOrderAsWrittenKinds | rcl_action/src/rcl_action/action_client.c:718-744 | the as-written order registers only the feedback subscription |
| ActionClientModel.AllAddsRegister | rcl_action/src/rcl_action/action_client.c:718-750 | when no add fails, every entity of the order is registered |
| ActionClientModel.RegisteredCounts | rcl_action/src/rcl_action/action_client.c:710-777 | with all adds succeeding, the corrected helper registers 2 subscriptions and 3 clients, the counts the client reports; the as-written helper registers 1 subscription and never the status subscription |
| ActionClientModel.WaitSetGetNumEntities | rcl_action/src/rcl_action/action_client.c:754-777 | invalid client → ACTION_CLIENT_INVALID before null outputs → INVALID_ARGUMENT; on OK: 2 subscriptions and 3 clients (the counts AddActionClient registers of each kind), and 0 guard conditions, timers and services |
| ActionClientModel.WaitSetGetEntitiesReady | rcl_action/src/rcl_action/action_client.c:779-807 | invalid client, then null outputs, then a wait set without exactly 2 subscription and 3 client slots → WAIT_SET_INVALID; on OK the feedback and status flags are subscription slots 0 and 1, and the goal, cancel and result flags are client slots 0, 1 and 2 |
| ActionClientModel.GetActionName | rcl_action/src/rcl_action/action_client.c:682-689 | an invalid client gives no name; a valid one gives exactly the stored name, which is null when the name copy of a failed init was kept by the as-written rollback |
| ActionClientModel.GetOptions | rcl_action/src/rcl_action/action_client.c:691-698 | the options are returned exactly for a valid client, and they are the stored options |
| SecurityDirectory.Capped | rcl/src/rcl/security_directory.c:49 | the measured name is at most 255 characters, is a prefix of the listed name, and is the whole name when that is short enough, otherwise exactly its first 255 characters |
| SecurityDirectory.ScanEnd | rcl/src/rcl/security_directory.c:41-57 | the scan examines readable entries only; it stops before an unreadable entry or right after an entry it cannot advance past |
| SecurityDirectory.Best | rcl/src/rcl/security_directory.c:46-53 | the best match is a prefix of the node name; it is "" or the capped name of a directory entry that is a prefix candidate; it is at least as long as every candidate; the earliest wins among equal lengths |
| SecurityDirectory.FoundIffNonEmptyCandidate | rcl/src/rcl/security_directory.c:50-60 | a match exists exactly when some examined candidate has a non-empty name |
| SecurityDirectory.CandidatesOfEqualLengthAgree | rcl/src/rcl/security_directory.c:50-53 | two candidates of equal length are the same name, so the tie rule never changes the result |
| SecurityDirectory.GetBestMatchingDirectory | rcl/src/rcl/security_directory.c:28-61 | corrected scan: a null argument or an unopenable directory gives no match and no scan; otherwise the match is Best over the entries examined before a read or advance error; found exactly when the match is non-empty |
| SecurityDirectory.ScanStepAsWritten | rcl/src/rcl/security_directory.c:41-57 | one iteration of the loop as written never moves the cursor backwards |
| SecurityDirectory.NonDirectoryEntryStallsScan | rcl/src/rcl/security_directory.c:46-48 | once the as-written loop reaches a regular file, it stays there and keeps running however many iterations follow |
| SecurityDirectory.Join | rcl/src/rcl/security_directory.c:128-131 | the joined path is the left part, one separator, then the right part |
| SecurityDirectory.SecureRoot | rcl/src/rcl/security_directory.c:79-145 | over the corrected scan (GetBestMatchingDirectory, not the stalling loop): no node name, a failed or null node-directory lookup, a failed or null root lookup after an empty node-directory variable, or empty node and root variables → no secure root; a non-empty node-directory variable is used verbatim with no prefix matching; any result is an existing directory |
| SecurityDirectory.FallbackIsBestMatchUnderBase | rcl/src/rcl/security_directory.c:120-136 | without an override and with a non-empty root, the result is exactly the lookup base (the root for namespace "/", else root joined with the namespace minus its '/') joined with the best match under it when the base can be listed, the match is non-empty and the joined path is a directory, and no secure root otherwise |
| SecurityDirectory.GetSecureRoot | rcl/src/rcl/security_directory.c:79-145 | the step-by-step lookup, which scans with the corrected GetBestMatchingDirectory, returns exactly SecureRoot |

## Left out

- Server TODO stubs are not modelled: take goal request, send goal response, publish feedback, publish status, take/send result, clear expired goals, and take/process/send cancel. They return OK unconditionally (rcl_action/src/rcl_action/action_server.c:240-256, 303-310, 355-417). The tests expect ACTION_SERVER_INVALID from them for an invalid server (rcl_action/test/rcl_action/test_action_communication.cpp:119-131); the model follows the code, in which no such check exists.
- Goal-handle behaviour (goal_handle.c is not part of this model). A handle's status is an opaque byte. Whether `get_info` / `get_status` succeed is a `valid` flag on the handle. `handleInitRet` stands for the result of `rcl_action_goal_handle_init`.
- The transport, entity plumbing and wait-set internals are inputs, not models: `rcl_send_request`, `rcl_take_response`, `rcl_take`, the init/fini/validity of services, clients, publishers and subscriptions, and `rcl_wait_set_add_*`. A finalised entity is taken to be invalid afterwards, whatever its fini returned.
- Allocator mechanics are left out. Allocation failure is an input flag. Memory layout is not modelled, nor are the leaks: the server's fini never frees the goal handles or the name. Also not modelled is the dangling registry pointer left when goal-handle init fails after reallocation (action_server.c:281-296).
- ActionServerModel.Init: the C runs its rollback on a freshly allocated impl whose options are not yet copied and whose later entities were never zero-initialised. The model copies the options at allocation and treats entities the sequence never reached as invalid.
- ActionClientModel.Init: the rollback also inspects entities the sequence never reached, in uninitialised memory; the model treats them as invalid. Init rolls back through the corrected Fini, so it does not promise what the C does after a failed init whose rollback succeeds (the impl is kept and the client stays valid); InitAsWritten models that path.
- ActionClientModel.WaitSetGetEntitiesReady: the C never checks the wait set for null and dereferences it once the client and output checks pass (action_client.c:797); the model takes a non-null wait set, so that crash is not modelled.
- ActionServerModel.AcceptNewGoal: the new handle is built directly as the given goal info, the `initialStatus` input and a valid flag, in place of `rcl_action_goal_handle_init` (goal_handle.c is not part of this model); only its return code `handleInitRet` is an input.
- SecurityDirectory.GetSecureRoot: allocation failure of `rcutils_join_path` or of the override copy is not modelled (joins always succeed). The path separator is fixed to '/'.
- SecurityDirectory.FilenameMax: `_TINYDIR_FILENAME_MAX` is taken as 256 (tinydir.h is not part of this model). Names are capped at 255 characters.
- The environment variable names come from a header that is not part of this model: `ROS_SECURITY_NODE_DIRECTORY` and `ROS_SECURITY_ROOT_DIRECTORY`. An unset variable reads as the empty string, which is how `rcutils_get_env` reports it.
- The following are not modelled: concurrency (the registry has no locking), logging, error-message strings, QoS settings, and the default-options getters. The zero-initialisation getters are the class constructors.

## Findings

| source | as written | input that shows it | evidently intended | confidence | as-written member | corrected member |
|---|---|---|---|---|---|---|
| rcl/src/rcl/security_directory.c:46-48 | a non-directory entry is skipped with `continue` before `tinydir_next`, so the cursor never advances | a lookup base containing any regular file, with `ROS_SECURITY_ROOT_DIRECTORY` set and the node-directory variable empty | skip the entry and advance to the next one | high (not executed) | SecurityDirectory.NonDirectoryEntryStallsScan | SecurityDirectory.GetBestMatchingDirectory |
| rcl_action/src/rcl_action/action_client.c:462 | the impl is released only when `ret` is not OK, so a successful fini leaves the client valid, and a failed one destroys it | fini of an initialised client whose five entity finalisations all succeed | release the impl after a successful fini (the "finalized" message sits in that block) | high (not executed) | ActionClientModel.FiniAsWrittenKeepsClientValid | ActionClientModel.Fini |
| rcl_action/src/rcl_action/action_client.c:407-413 | the init failure path rolls back through the fini of line 462, so a failed init whose rollback succeeds returns an error but leaves the impl in place and the client valid; a retry then reports ALREADY_INIT | init in which the status subscription's init rejects the topic name (after the four other entities came up) and every rollback finalisation succeeds | a failed init leaves the client zero-initialised | high (not executed) | ActionClientModel.FailedInitAsWrittenLeavesClientValid | ActionClientModel.Init |
| rcl_action/src/rcl_action/action_client.c:744 | `return RCL_RET_OK;` before the status-subscription block, so the status subscription is never added to the wait set although 2 subscriptions are reported | adding a valid client to a wait set where every add succeeds: only 1 subscription is registered | add all five entities | high (not executed) | ActionClientModel.RegisteredCounts | ActionClientModel.AddActionClient |
