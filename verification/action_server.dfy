/**
 * The action server's goal registry (rcl_action/src/rcl_action/action_server.c).
 *
 * An `ActionServer` holds an optional implementation record (`impl`); the
 * record owns the five transport entities, the action name, the options and
 * the growable array of goal handles. Transport calls (entity init/fini, name
 * expansion, allocation) are inputs: the code each of them would return.
 */
module ActionServerModel {
  import opened RclTypes

  /** A registered goal as `rcl_action_goal_handle_get_info` and
      `rcl_action_goal_handle_get_status` report it. `valid` says whether those
      two calls succeed on this handle; the goal handle's own state machine is
      not part of this model, so `status` is an opaque byte. */
  datatype GoalHandle = GoalHandle(info: GoalInfo, status: byte, valid: bool)

  /** One entry of a goal status array. */
  datatype StatusEntry = StatusEntry(info: GoalInfo, status: byte)

  /** A freshly allocated (zero-initialized) status entry. */
  const ZeroEntry: StatusEntry := StatusEntry(GoalInfo(seq(16, _ => 0), Time(0, 0)), 0)

  /** The part of `rcl_action_server_options_t` the core inspects. */
  datatype ServerOptions = ServerOptions(allocatorValid: bool)

  /** `rcl_action_server_impl_t`: entity validity, name, options and the goal
      handles in acceptance order (`goal_handles[0 .. num_goal_handles)`). */
  datatype ServerImpl = ServerImpl(
    entities: Entities,
    actionName: string,
    options: ServerOptions,
    goalHandles: seq<GoalHandle>)

  /** What the collaborators answer during `rcl_action_server_init`. */
  datatype InitOracle = InitOracle(
    allocOk: bool,                 // allocation of the impl record
    entities: PerChannel<SubInit>, // name expansion and init of each service / publisher
    nameCopyOk: bool,              // copy of the action name
    rollback: PerChannelRet)       // entity fini results if the rollback runs

  class ActionServer {
    var impl: Option<ServerImpl>

    /** `rcl_action_get_zero_initialized_server`. */
    constructor ()
      ensures impl == None
    {
      impl := None;
    }
  }

  /** `rcl_action_server_is_valid`. */
  predicate IsValid(server: ActionServer?)
    reads server
    ensures IsValid(server) <==>
      server != null && server.impl.Some? && forall c: Channel :: server.impl.value.entities.At(c)
  {
    if server == null then false
    else if server.impl.None? then false
    else
      var e := server.impl.value.entities;
      e.At(GoalChannel) && e.At(CancelChannel) && e.At(ResultChannel)
      && e.At(FeedbackChannel) && e.At(StatusChannel)
  }

  /** The argument checks of `rcl_action_server_init`, in the order the code
      makes them; `Ok` means every check passed. */
  function InitCheck(
    serverNonNull: bool, node: NodeRef, typeSupportNonNull: bool,
    actionName: Option<string>, options: Option<ServerOptions>, alreadyInit: bool): (r: RetCode)
    ensures r == Ok || r == InvalidArgument || r == NodeInvalid || r == AlreadyInit
    ensures !serverNonNull ==> r == InvalidArgument
    ensures r == NodeInvalid <==> serverNonNull && !NodeIsValid(node)
    ensures r == AlreadyInit <==>
      serverNonNull && NodeIsValid(node) && typeSupportNonNull && actionName.Some?
      && options.Some? && options.value.allocatorValid && alreadyInit
    ensures r == Ok <==>
      serverNonNull && NodeIsValid(node) && typeSupportNonNull && actionName.Some?
      && options.Some? && options.value.allocatorValid && !alreadyInit
  {
    if !serverNonNull then InvalidArgument
    else if !NodeIsValid(node) then NodeInvalid
    else if !typeSupportNonNull || actionName.None? || options.None? then InvalidArgument
    else if !options.value.allocatorValid then InvalidArgument
    else if alreadyInit then AlreadyInit
    else Ok
  }

  /** The code one `SERVICE_INIT` / `PUBLISHER_INIT` step leaves in `ret`:
      allocation failures stay `BadAlloc`, every other failure becomes `Error`. */
  function EntityInitCode(step: SubInit): (r: RetCode)
    ensures r == Ok || r == BadAlloc || r == Error
    ensures r == Ok <==> step.nameRet == Ok && step.initRet == Ok
    ensures r == BadAlloc <==> step.nameRet == BadAlloc || (step.nameRet == Ok && step.initRet == BadAlloc)
  {
    if step.nameRet != Ok then (if step.nameRet == BadAlloc then BadAlloc else Error)
    else if step.initRet != Ok then (if step.initRet == BadAlloc then BadAlloc else Error)
    else Ok
  }

  /** The outcome of `rcl_action_server_init` once its argument checks pass:
      the first failing step decides the code. */
  function InitOutcome(o: InitOracle): (r: RetCode)
    ensures r == Ok || r == BadAlloc || r == Error
    ensures r == Ok <==>
      o.allocOk && (forall c: Channel :: EntityInitCode(o.entities.At(c)) == Ok) && o.nameCopyOk
    ensures !o.allocOk ==> r == BadAlloc
    ensures o.allocOk && EntityInitCode(o.entities.goal) != Ok ==> r == EntityInitCode(o.entities.goal)
  {
    var e := o.entities;
    if !o.allocOk then BadAlloc
    else if EntityInitCode(e.At(GoalChannel)) != Ok then EntityInitCode(e.goal)
    else if EntityInitCode(e.At(CancelChannel)) != Ok then EntityInitCode(e.cancel)
    else if EntityInitCode(e.At(ResultChannel)) != Ok then EntityInitCode(e.result)
    else if EntityInitCode(e.At(FeedbackChannel)) != Ok then EntityInitCode(e.feedback)
    else if EntityInitCode(e.At(StatusChannel)) != Ok then EntityInitCode(e.status)
    else if !o.nameCopyOk then BadAlloc
    else Ok
  }

  /** The steps of `rcl_action_server_init` in the order it runs them:
      allocation, the three services, the two publishers, the name copy. */
  function InitStepCodes(o: InitOracle): (codes: seq<RetCode>)
    ensures |codes| == 7
  {
    [if o.allocOk then Ok else BadAlloc,
     EntityInitCode(o.entities.goal), EntityInitCode(o.entities.cancel), EntityInitCode(o.entities.result),
     EntityInitCode(o.entities.feedback), EntityInitCode(o.entities.status),
     if o.nameCopyOk then Ok else BadAlloc]
  }

  /** The init outcome is the code of the first step that fails, in the order
      the C runs them, and OK when none does. */
  lemma {:induction false} InitOutcomeIsFirstFailure(o: InitOracle)
    ensures InitOutcome(o) == FirstFailure(InitStepCodes(o))
  {
    var codes := InitStepCodes(o);
    FirstFailureUnfolds(codes);
  }

  /** `rcl_action_server_init`. A failed check leaves the server untouched; a
      failure after allocation rolls back through `Fini`, leaving no impl; a
      success leaves a valid server with an empty registry. */
  method Init(
    server: ActionServer?, node: NodeRef, typeSupportNonNull: bool,
    actionName: Option<string>, options: Option<ServerOptions>, o: InitOracle)
    returns (ret: RetCode)
    modifies server
    ensures var check := InitCheck(server != null, node, typeSupportNonNull, actionName, options,
                                   server != null && old(server.impl).Some?);
      && (check != Ok ==> ret == check && (server != null ==> server.impl == old(server.impl)))
      && (check == Ok ==> ret == InitOutcome(o))
      && (check == Ok && ret == Ok ==>
            server.impl == Some(ServerImpl(AllValid, actionName.value, options.value, [])))
      && (check == Ok && ret != Ok ==> server.impl == None)
    ensures ret == Ok ==> IsValid(server) && server.impl.value.goalHandles == []
  {
    ret := InitCheck(server != null, node, typeSupportNonNull, actionName, options,
                     server != null && server.impl.Some?);
    if ret != Ok {
      return;
    }
    if !o.allocOk {
      return BadAlloc;
    }
    var impl := ServerImpl(NoneValid, "", options.value, []);
    server.impl := Some(impl);
    ret := EntityInitCode(o.entities.goal);
    if ret == Ok {
      impl := impl.(entities := impl.entities.(goal := true));
      server.impl := Some(impl);
      ret := EntityInitCode(o.entities.cancel);
    }
    if ret == Ok {
      impl := impl.(entities := impl.entities.(cancel := true));
      server.impl := Some(impl);
      ret := EntityInitCode(o.entities.result);
    }
    if ret == Ok {
      impl := impl.(entities := impl.entities.(result := true));
      server.impl := Some(impl);
      ret := EntityInitCode(o.entities.feedback);
    }
    if ret == Ok {
      impl := impl.(entities := impl.entities.(feedback := true));
      server.impl := Some(impl);
      ret := EntityInitCode(o.entities.status);
    }
    if ret == Ok {
      impl := impl.(entities := impl.entities.(status := true));
      server.impl := Some(impl);
      ret := if o.nameCopyOk then Ok else BadAlloc;
    }
    if ret == Ok {
      impl := impl.(actionName := actionName.value, goalHandles := []);
      server.impl := Some(impl);
    } else {
      // the rollback's own code is discarded
      var _ := Fini(server, node, o.rollback);
    }
  }

  /** The code of `rcl_action_server_fini` when an impl exists: every entity is
      finalized, and any failure makes the whole call `Error`. */
  function FiniCode(finis: PerChannelRet): (r: RetCode)
    ensures r == Ok || r == Error
    ensures r == Ok <==> forall c: Channel :: finis.At(c) == Ok
  {
    if finis.At(GoalChannel) != Ok || finis.At(CancelChannel) != Ok || finis.At(ResultChannel) != Ok
       || finis.At(FeedbackChannel) != Ok || finis.At(StatusChannel) != Ok
    then Error
    else Ok
  }

  /** `rcl_action_server_fini`. With a valid node it always releases the impl,
      so the server is no longer valid; a zero-initialized server is `Ok`. */
  method Fini(server: ActionServer?, node: NodeRef, finis: PerChannelRet) returns (ret: RetCode)
    modifies server
    ensures server == null ==> ret == ActionServerInvalid
    ensures server != null && !NodeIsValid(node) ==>
      ret == NodeInvalid && server.impl == old(server.impl)
    ensures server != null && NodeIsValid(node) ==>
      && server.impl == None
      && !IsValid(server)
      && ret == (if old(server.impl).Some? then FiniCode(finis) else Ok)
  {
    if server == null {
      return ActionServerInvalid;
    }
    if !NodeIsValid(node) {
      return NodeInvalid;
    }
    ret := Ok;
    if server.impl.Some? {
      if finis.goal != Ok { ret := Error; }
      if finis.cancel != Ok { ret := Error; }
      if finis.result != Ok { ret := Error; }
      if finis.feedback != Ok { ret := Error; }
      if finis.status != Ok { ret := Error; }
      server.impl := None;
    }
  }

  /** The answer of the scan in `rcl_action_server_goal_exists`: handles are
      visited in order, a handle whose info cannot be read ends the scan with
      false, and only the 16 uuid bytes are compared. */
  function ExistsScan(handles: seq<GoalHandle>, uuid: Uuid): bool
  {
    if handles == [] then false
    else if !handles[0].valid then false
    else if handles[0].info.uuid == uuid then true
    else ExistsScan(handles[1..], uuid)
  }

  /** The scan never reports a goal that is not registered. */
  lemma {:induction false} ExistsScanSound(handles: seq<GoalHandle>, uuid: Uuid)
    ensures ExistsScan(handles, uuid) ==>
      exists i :: 0 <= i < |handles| && handles[i].info.uuid == uuid
  {
    if handles != [] && handles[0].valid && handles[0].info.uuid != uuid {
      ExistsScanSound(handles[1..], uuid);
      if ExistsScan(handles[1..], uuid) {
        var i :| 0 <= i < |handles[1..]| && handles[1..][i].info.uuid == uuid;
        assert handles[i + 1].info.uuid == uuid;
      }
    }
  }

  /** When every handle's info can be read, the scan is exactly uuid membership. */
  lemma {:induction false} ExistsScanComplete(handles: seq<GoalHandle>, uuid: Uuid)
    requires forall i :: 0 <= i < |handles| ==> handles[i].valid
    ensures ExistsScan(handles, uuid) <==>
      exists i :: 0 <= i < |handles| && handles[i].info.uuid == uuid
  {
    ExistsScanSound(handles, uuid);
    if handles != [] && handles[0].info.uuid != uuid {
      ExistsScanComplete(handles[1..], uuid);
      if exists i :: 0 <= i < |handles| && handles[i].info.uuid == uuid {
        var i :| 0 <= i < |handles| && handles[i].info.uuid == uuid;
        assert i > 0 && handles[1..][i - 1].info.uuid == uuid;
      }
    }
  }

  /** No two registered goals share a uuid. */
  predicate DistinctUuids(handles: seq<GoalHandle>)
  {
    forall i, j :: 0 <= i < j < |handles| ==> handles[i].info.uuid != handles[j].info.uuid
  }

  /** The duplicate check keeps the registry free of repeated uuids: appending
      a handle the scan did not find to a readable, duplicate-free registry
      leaves it duplicate-free. */
  lemma {:induction false} AcceptKeepsUuidsDistinct(handles: seq<GoalHandle>, h: GoalHandle)
    requires DistinctUuids(handles)
    requires forall i :: 0 <= i < |handles| ==> handles[i].valid
    requires !ExistsScan(handles, h.info.uuid)
    ensures DistinctUuids(handles + [h])
  {
    ExistsScanComplete(handles, h.info.uuid);
    var r := handles + [h];
    forall i, j | 0 <= i < j < |r|
      ensures r[i].info.uuid != r[j].info.uuid
    {
      if j == |handles| {
        assert r[i] == handles[i];
      }
    }
  }

  /** The byte-by-byte uuid comparison inside `rcl_action_server_goal_exists`. */
  method UuidsEqual(a: Uuid, b: Uuid) returns (same: bool)
    ensures same <==> a == b
  {
    same := true;
    var i := 0;
    while i < 16 && same
      invariant 0 <= i <= 16
      invariant same <==> a[..i] == b[..i]
    {
      assert a[..i + 1] == a[..i] + [a[i]] && b[..i + 1] == b[..i] + [b[i]];
      same := a[i] == b[i];
      i := i + 1;
    }
    assert a[..16] == a && b[..16] == b;
    if !same {
      assert a[..i] != b[..i];
    }
  }

  /** `rcl_action_server_goal_exists`: false for an invalid server or a null
      info, otherwise the answer of the in-order scan. */
  method GoalExists(server: ActionServer?, goalInfo: Option<GoalInfo>) returns (found: bool)
    ensures found <==>
      IsValid(server) && goalInfo.Some? && ExistsScan(server.impl.value.goalHandles, goalInfo.value.uuid)
  {
    if !IsValid(server) {
      return false;
    }
    if goalInfo.None? {
      return false;
    }
    var handles := server.impl.value.goalHandles;
    var uuid := goalInfo.value.uuid;
    var i := 0;
    while i < |handles|
      invariant 0 <= i <= |handles|
      invariant ExistsScan(handles, uuid) == ExistsScan(handles[i..], uuid)
    {
      assert handles[i..][0] == handles[i] && handles[i..][1..] == handles[i + 1..];
      if !handles[i].valid {
        // reading the handle's info failed
        return false;
      }
      var same := UuidsEqual(handles[i].info.uuid, uuid);
      if same {
        return true;
      }
      i := i + 1;
    }
    return false;
  }

  /** `rcl_action_accept_new_goal`. It returns no handle and leaves the
      registry unchanged when the server is invalid, the info is null, the
      scan finds the uuid, reallocation fails or the handle cannot be
      initialized; otherwise it appends exactly one handle carrying the given
      info and returns it. */
  method AcceptNewGoal(
    server: ActionServer?, goalInfo: Option<GoalInfo>,
    reallocOk: bool, handleInitRet: RetCode, initialStatus: byte)
    returns (handle: Option<GoalHandle>)
    modifies server
    ensures handle.Some? <==>
      && old(IsValid(server))
      && goalInfo.Some?
      && !ExistsScan(old(server.impl.value.goalHandles), goalInfo.value.uuid)
      && reallocOk
      && handleInitRet == Ok
    ensures handle.None? ==> server != null ==> server.impl == old(server.impl)
    ensures handle.Some? ==>
      && handle.value == GoalHandle(goalInfo.value, initialStatus, true)
      && server.impl == Some(old(server.impl.value).(
           goalHandles := old(server.impl.value.goalHandles) + [handle.value]))
      && IsValid(server)
  {
    if !IsValid(server) {
      return None;
    }
    if goalInfo.None? {
      return None;
    }
    var duplicate := GoalExists(server, goalInfo);
    if duplicate {
      return None;
    }
    var impl := server.impl.value;
    if !reallocOk {
      return None;
    }
    if handleInitRet != Ok {
      return None;
    }
    var h := GoalHandle(goalInfo.value, initialStatus, true);
    server.impl := Some(impl.(goalHandles := impl.goalHandles + [h]));
    handle := Some(h);
  }

  /** The status entry of a goal handle. */
  function EntryOf(h: GoalHandle): StatusEntry
  {
    StatusEntry(h.info, h.status)
  }

  /** The status list of a registry, built from the front. */
  function StatusList(handles: seq<GoalHandle>): (r: seq<StatusEntry>)
    ensures |r| == |handles|
    ensures forall i :: 0 <= i < |handles| ==> r[i] == StatusEntry(handles[i].info, handles[i].status)
  {
    if handles == [] then [] else [EntryOf(handles[0])] + StatusList(handles[1..])
  }

  /** The index of the first handle whose info or status cannot be read. */
  function FirstUnreadable(handles: seq<GoalHandle>): (k: nat)
    ensures k <= |handles|
    ensures forall i :: 0 <= i < k ==> handles[i].valid
    ensures k < |handles| ==> !handles[k].valid
  {
    if handles == [] then 0
    else if !handles[0].valid then 0
    else 1 + FirstUnreadable(handles[1..])
  }

  /** `rcl_action_get_goal_status_array`. `statusList` is the allocated
      `status_list.data` (null when nothing was allocated); `arrayInitRet` is
      what `rcl_action_goal_status_array_init` answers. */
  method GetGoalStatusArray(server: ActionServer?, statusMessageNonNull: bool, arrayInitRet: RetCode)
    returns (ret: RetCode, statusList: array?<StatusEntry>)
    ensures !IsValid(server) ==> ret == ActionServerInvalid && statusList == null
    ensures IsValid(server) && !statusMessageNonNull ==> ret == InvalidArgument && statusList == null
    ensures IsValid(server) && statusMessageNonNull && server.impl.value.goalHandles == [] ==>
      ret == Ok && statusList == null
    ensures IsValid(server) && statusMessageNonNull && server.impl.value.goalHandles != [] ==>
      var handles := server.impl.value.goalHandles;
      var k := FirstUnreadable(handles);
      && (arrayInitRet != Ok ==>
            statusList == null && ret == (if arrayInitRet == BadAlloc then BadAlloc else Error))
      && (arrayInitRet == Ok ==>
            && statusList != null
            && statusList.Length == |handles|
            && ret == (if k == |handles| then Ok else Error)
            && (forall j :: 0 <= j < |handles| ==>
                  statusList[j] == if j < k then EntryOf(handles[j]) else ZeroEntry))
    ensures ret == Ok && statusList != null ==>
      statusList[..] == StatusList(server.impl.value.goalHandles)
    ensures statusList != null ==> fresh(statusList)
  {
    if !IsValid(server) {
      return ActionServerInvalid, null;
    }
    if !statusMessageNonNull {
      return InvalidArgument, null;
    }
    var handles := server.impl.value.goalHandles;
    var n := |handles|;
    if n == 0 {
      // no allocation for an empty registry
      return Ok, null;
    }
    if arrayInitRet != Ok {
      ret := if arrayInitRet == BadAlloc then BadAlloc else Error;
      return ret, null;
    }
    var data := new StatusEntry[n](_ => ZeroEntry);
    statusList := data;
    var i := 0;
    while i < n
      invariant 0 <= i <= n
      invariant forall j :: 0 <= j < i ==> handles[j].valid
      invariant forall j :: 0 <= j < i ==> data[j] == EntryOf(handles[j])
      invariant forall j :: i <= j < n ==> data[j] == ZeroEntry
    {
      if !handles[i].valid {
        // reading the goal's info or status failed
        assert FirstUnreadable(handles) == i;
        return Error, data;
      }
      data[i] := EntryOf(handles[i]);
      i := i + 1;
    }
    assert FirstUnreadable(handles) == n;
    ret := Ok;
    assert data[..] == StatusList(handles);
  }

  /** `rcl_action_server_get_goal_handles`: the count is written for a valid
      server and a non-null output; the returned array is null while the
      registry is empty. */
  method GetGoalHandles(server: ActionServer?, numGoalsNonNull: bool)
    returns (handles: Option<seq<GoalHandle>>, numGoals: Option<nat>)
    ensures numGoals.Some? <==> IsValid(server) && numGoalsNonNull
    ensures numGoals.Some? ==> numGoals.value == |server.impl.value.goalHandles|
    ensures handles.Some? <==> numGoals.Some? && numGoals.value > 0
    ensures handles.Some? ==> handles.value == server.impl.value.goalHandles
  {
    if !IsValid(server) {
      return None, None;
    }
    if !numGoalsNonNull {
      return None, None;
    }
    var hs := server.impl.value.goalHandles;
    numGoals := Some(|hs|);
    handles := if |hs| == 0 then None else Some(hs);
  }

  /** `rcl_action_server_get_action_name`. */
  function GetActionName(server: ActionServer?): (name: Option<string>)
    reads server
    ensures name.Some? <==> IsValid(server)
    ensures name.Some? ==> name.value == server.impl.value.actionName
  {
    if !IsValid(server) then None else Some(server.impl.value.actionName)
  }

  /** `rcl_action_server_get_options`. */
  function GetOptions(server: ActionServer?): (options: Option<ServerOptions>)
    reads server
    ensures options.Some? <==> IsValid(server)
    ensures options.Some? ==> options.value == server.impl.value.options
  {
    if !IsValid(server) then None else Some(server.impl.value.options)
  }
}
