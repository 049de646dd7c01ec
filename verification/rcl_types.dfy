/**
 * Values shared by the action server, the action client and the security
 * directory lookup: the library's return codes, goal identity, node
 * references and the five transport entities every action endpoint owns.
 */
module RclTypes {

  datatype Option<T> = None | Some(value: T)

  /** The `rcl_ret_t` codes the core produces or receives from its collaborators.
      `Other` stands for any code of a collaborator that the core does not name. */
  datatype RetCode =
    | Ok
    | Error
    | BadAlloc
    | InvalidArgument
    | AlreadyInit
    | NodeInvalid
    | ServiceNameInvalid
    | TopicNameInvalid
    | ClientTakeFailed
    | SubscriptionTakeFailed
    | WaitSetInvalid
    | ActionNameInvalid
    | ActionServerInvalid
    | ActionClientInvalid
    | ActionClientTakeFailed
    | Other(code: int)

  /** The code of a chain of steps that stops at the first failure, as the
      `goto fail` sequences do: the first code that is not `Ok`, or `Ok` when
      every step succeeded. */
  function FirstFailure(codes: seq<RetCode>): (r: RetCode)
    ensures r == Ok <==> forall i :: 0 <= i < |codes| ==> codes[i] == Ok
    ensures forall i :: 0 <= i < |codes| && codes[i] != Ok && (forall j :: 0 <= j < i ==> codes[j] == Ok) ==>
      r == codes[i]
  {
    if codes == [] then Ok
    else if codes[0] != Ok then codes[0]
    else
      var rest := FirstFailure(codes[1..]);
      assert forall i :: 1 <= i < |codes| ==> codes[i] == codes[1..][i - 1];
      rest
  }

  /** `FirstFailure` of up to seven codes, unfolded step by step. */
  lemma FirstFailureUnfolds(codes: seq<RetCode>)
    requires |codes| <= 7
    ensures FirstFailure(codes) ==
      if codes == [] then Ok
      else if codes[0] != Ok then codes[0]
      else if |codes| == 1 then Ok
      else if codes[1] != Ok then codes[1]
      else if |codes| == 2 then Ok
      else if codes[2] != Ok then codes[2]
      else if |codes| == 3 then Ok
      else if codes[3] != Ok then codes[3]
      else if |codes| == 4 then Ok
      else if codes[4] != Ok then codes[4]
      else if |codes| == 5 then Ok
      else if codes[5] != Ok then codes[5]
      else if |codes| == 6 then Ok
      else codes[6]
  {
  }

  newtype byte = x: int | 0 <= x < 256

  /** A goal id: exactly 16 bytes. */
  type Uuid = s: seq<byte> | |s| == 16 witness seq(16, _ => 0)

  /** `builtin_interfaces/Time`: seconds and nanoseconds. */
  datatype Time = Time(sec: int, nanosec: nat)

  /** `rcl_action_goal_info_t`: a goal id and its acceptance stamp. */
  datatype GoalInfo = GoalInfo(uuid: Uuid, stamp: Time)

  /** The node pointer handed to init/fini, as `rcl_node_is_valid` sees it. */
  datatype NodeRef = NullNode | Node(valid: bool)

  predicate NodeIsValid(node: NodeRef)
  {
    node.Node? && node.valid
  }

  /** The five transport entities of an action endpoint: the goal, cancel and
      result request/response channels and the feedback and status topics. */
  datatype Channel = GoalChannel | CancelChannel | ResultChannel | FeedbackChannel | StatusChannel

  /** One value per transport entity. */
  datatype PerChannel<T> = PerChannel(goal: T, cancel: T, result: T, feedback: T, status: T)
  {
    function At(c: Channel): T
    {
      match c
      case GoalChannel => goal
      case CancelChannel => cancel
      case ResultChannel => result
      case FeedbackChannel => feedback
      case StatusChannel => status
    }
  }

  /** Which transport entities are currently initialized (valid). */
  type Entities = PerChannel<bool>

  const AllValid: Entities := PerChannel(true, true, true, true, true)
  const NoneValid: Entities := PerChannel(false, false, false, false, false)

  /** The return code of one collaborator call per transport entity. */
  type PerChannelRet = PerChannel<RetCode>

  /** The result of a sub-entity initialization: first the name expansion
      (`rcl_action_get_*_name`), then the entity's own init call. The second
      code only matters when the first is `Ok`. */
  datatype SubInit = SubInit(nameRet: RetCode, initRet: RetCode)
}
