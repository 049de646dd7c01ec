/**
 * The action client (rcl_action/src/rcl_action/action_client.c): a validated
 * pass-through to five transport entities. Every transport answer (name
 * expansion, entity init and fini, send, take, wait-set registration) is an
 * input: the code the collaborator would return.
 */
module ActionClientModel {
  import opened RclTypes

  /** The part of `rcl_action_client_options_t` the core inspects. */
  datatype ClientOptions = ClientOptions(allocatorValid: bool)

  /** `rcl_action_client_impl_t`: which of the goal, cancel and result clients
      and the feedback and status subscriptions are initialized, the options
      and the copied action name. */
  datatype ClientImpl = ClientImpl(entities: Entities, options: ClientOptions, actionName: Option<string>)

  class ActionClient {
    var impl: Option<ClientImpl>

    /** `rcl_action_get_zero_initialized_client`. */
    constructor ()
      ensures impl == None
    {
      impl := None;
    }
  }

  /** `rcl_action_client_is_valid`: only the pointer and its impl are checked. */
  predicate IsValid(client: ActionClient?)
    reads client
    ensures IsValid(client) <==> client != null && client.impl.Some?
  {
    if client == null then false
    else if client.impl.None? then false
    else true
  }

  // ---------------------------------------------------------------------------
  // Send and take

  /** What a send/take call returns, and the entity it handed the message to
      (none when a check failed before the transport was reached). */
  datatype CallOutcome = CallOutcome(ret: RetCode, forwardedTo: Option<Channel>)

  /** The guard shared by every send/take call: client validity first, then
      the null message, then the transport call on `channel`, whose code has
      already been translated into `translated`. */
  function Guarded(client: ActionClient?, messageNonNull: bool, channel: Channel, translated: RetCode): (r: CallOutcome)
    reads client
    ensures r.forwardedTo.Some? <==> IsValid(client) && messageNonNull
    ensures r.forwardedTo.Some? ==> r.forwardedTo.value == channel && r.ret == translated
    ensures !IsValid(client) ==> r.ret == ActionClientInvalid
    ensures IsValid(client) && !messageNonNull ==> r.ret == InvalidArgument
  {
    if !IsValid(client) then CallOutcome(ActionClientInvalid, None)
    else if !messageNonNull then CallOutcome(InvalidArgument, None)
    else CallOutcome(translated, Some(channel))
  }

  /** Translation of `rcl_send_request`'s code by the three send calls. */
  function SendCode(transport: RetCode): (r: RetCode)
    ensures r == Ok || r == Error
    ensures r == Ok <==> transport == Ok
  {
    if transport != Ok then Error else Ok
  }

  /** Translation of `rcl_take_response`'s code by `rcl_action_take_goal_response`:
      only "nothing to take" is kept apart; allocation failures become `Error`. */
  function GoalResponseCode(transport: RetCode): (r: RetCode)
    ensures r == Ok || r == ActionClientTakeFailed || r == Error
    ensures r == Ok <==> transport == Ok
    ensures r == ActionClientTakeFailed <==> transport == ClientTakeFailed
  {
    if transport != Ok then
      (if transport == ClientTakeFailed then ActionClientTakeFailed else Error)
    else Ok
  }

  /** Translation of a take code by the result/cancel response takes (with
      `takeFailed == ClientTakeFailed`) and the feedback/status takes (with
      `takeFailed == SubscriptionTakeFailed`): "nothing to take" and allocation
      failures are kept apart, everything else becomes `Error`. */
  function TakeCode(transport: RetCode, takeFailed: RetCode): (r: RetCode)
    requires takeFailed != Ok && takeFailed != BadAlloc
    ensures r == Ok || r == ActionClientTakeFailed || r == BadAlloc || r == Error
    ensures r == Ok <==> transport == Ok
    ensures r == ActionClientTakeFailed <==> transport == takeFailed
    ensures r == BadAlloc <==> transport == BadAlloc
  {
    if transport != Ok then
      (if transport == takeFailed then ActionClientTakeFailed
       else if transport == BadAlloc then BadAlloc
       else Error)
    else Ok
  }

  /** `rcl_action_send_goal_request`. */
  function SendGoalRequest(client: ActionClient?, requestNonNull: bool, transport: RetCode): (r: CallOutcome)
    reads client
    ensures r.forwardedTo.Some? <==> IsValid(client) && requestNonNull
    ensures r.forwardedTo.Some? ==> r.forwardedTo.value == GoalChannel
    ensures r.ret == Ok <==> IsValid(client) && requestNonNull && transport == Ok
    ensures r.ret == Error <==> IsValid(client) && requestNonNull && transport != Ok
  {
    Guarded(client, requestNonNull, GoalChannel, SendCode(transport))
  }

  /** `rcl_action_send_cancel_request`. */
  function SendCancelRequest(client: ActionClient?, requestNonNull: bool, transport: RetCode): (r: CallOutcome)
    reads client
    ensures r.forwardedTo.Some? <==> IsValid(client) && requestNonNull
    ensures r.forwardedTo.Some? ==> r.forwardedTo.value == CancelChannel
    ensures r.ret == Ok <==> IsValid(client) && requestNonNull && transport == Ok
    ensures r.ret == Error <==> IsValid(client) && requestNonNull && transport != Ok
  {
    Guarded(client, requestNonNull, CancelChannel, SendCode(transport))
  }

  /** `rcl_action_send_result_request`. */
  function SendResultRequest(client: ActionClient?, requestNonNull: bool, transport: RetCode): (r: CallOutcome)
    reads client
    ensures r.forwardedTo.Some? <==> IsValid(client) && requestNonNull
    ensures r.forwardedTo.Some? ==> r.forwardedTo.value == ResultChannel
    ensures r.ret == Ok <==> IsValid(client) && requestNonNull && transport == Ok
    ensures r.ret == Error <==> IsValid(client) && requestNonNull && transport != Ok
  {
    Guarded(client, requestNonNull, ResultChannel, SendCode(transport))
  }

  /** `rcl_action_take_goal_response`. */
  function TakeGoalResponse(client: ActionClient?, responseNonNull: bool, transport: RetCode): (r: CallOutcome)
    reads client
    ensures r.forwardedTo.Some? <==> IsValid(client) && responseNonNull
    ensures r.forwardedTo.Some? ==> r.forwardedTo.value == GoalChannel
    ensures r.ret == ActionClientTakeFailed <==>
      IsValid(client) && responseNonNull && transport == ClientTakeFailed
    ensures r.ret == Error <==>
      IsValid(client) && responseNonNull && transport != Ok && transport != ClientTakeFailed
    ensures r.ret != BadAlloc
  {
    Guarded(client, responseNonNull, GoalChannel, GoalResponseCode(transport))
  }

  /** `rcl_action_take_cancel_response`. */
  function TakeCancelResponse(client: ActionClient?, responseNonNull: bool, transport: RetCode): (r: CallOutcome)
    reads client
    ensures r.forwardedTo.Some? <==> IsValid(client) && responseNonNull
    ensures r.forwardedTo.Some? ==> r.forwardedTo.value == CancelChannel
    ensures r.ret == ActionClientTakeFailed <==>
      IsValid(client) && responseNonNull && transport == ClientTakeFailed
    ensures r.ret == BadAlloc <==> IsValid(client) && responseNonNull && transport == BadAlloc
  {
    Guarded(client, responseNonNull, CancelChannel, TakeCode(transport, ClientTakeFailed))
  }

  /** `rcl_action_take_result_response`. */
  function TakeResultResponse(client: ActionClient?, responseNonNull: bool, transport: RetCode): (r: CallOutcome)
    reads client
    ensures r.forwardedTo.Some? <==> IsValid(client) && responseNonNull
    ensures r.forwardedTo.Some? ==> r.forwardedTo.value == ResultChannel
    ensures r.ret == ActionClientTakeFailed <==>
      IsValid(client) && responseNonNull && transport == ClientTakeFailed
    ensures r.ret == BadAlloc <==> IsValid(client) && responseNonNull && transport == BadAlloc
  {
    Guarded(client, responseNonNull, ResultChannel, TakeCode(transport, ClientTakeFailed))
  }

  /** `rcl_action_take_feedback`. */
  function TakeFeedback(client: ActionClient?, feedbackNonNull: bool, transport: RetCode): (r: CallOutcome)
    reads client
    ensures r.forwardedTo.Some? <==> IsValid(client) && feedbackNonNull
    ensures r.forwardedTo.Some? ==> r.forwardedTo.value == FeedbackChannel
    ensures r.ret == ActionClientTakeFailed <==>
      IsValid(client) && feedbackNonNull && transport == SubscriptionTakeFailed
    ensures r.ret == BadAlloc <==> IsValid(client) && feedbackNonNull && transport == BadAlloc
  {
    Guarded(client, feedbackNonNull, FeedbackChannel, TakeCode(transport, SubscriptionTakeFailed))
  }

  /** `rcl_action_take_status`. */
  function TakeStatus(client: ActionClient?, statusNonNull: bool, transport: RetCode): (r: CallOutcome)
    reads client
    ensures r.forwardedTo.Some? <==> IsValid(client) && statusNonNull
    ensures r.forwardedTo.Some? ==> r.forwardedTo.value == StatusChannel
    ensures r.ret == ActionClientTakeFailed <==>
      IsValid(client) && statusNonNull && transport == SubscriptionTakeFailed
    ensures r.ret == BadAlloc <==> IsValid(client) && statusNonNull && transport == BadAlloc
  {
    Guarded(client, statusNonNull, StatusChannel, TakeCode(transport, SubscriptionTakeFailed))
  }

  /** The eight send/take calls, for statements about all of them at once. */
  datatype ClientCall =
    | SendGoal | SendCancel | SendResult
    | TakeGoal | TakeCancel | TakeResult
    | TakeFeedbackCall | TakeStatusCall

  function Call(op: ClientCall, client: ActionClient?, messageNonNull: bool, transport: RetCode): CallOutcome
    reads client
  {
    match op
    case SendGoal => SendGoalRequest(client, messageNonNull, transport)
    case SendCancel => SendCancelRequest(client, messageNonNull, transport)
    case SendResult => SendResultRequest(client, messageNonNull, transport)
    case TakeGoal => TakeGoalResponse(client, messageNonNull, transport)
    case TakeCancel => TakeCancelResponse(client, messageNonNull, transport)
    case TakeResult => TakeResultResponse(client, messageNonNull, transport)
    case TakeFeedbackCall => TakeFeedback(client, messageNonNull, transport)
    case TakeStatusCall => TakeStatus(client, messageNonNull, transport)
  }

  /** The entity each call hands its message to. */
  function ChannelOf(op: ClientCall): Channel
  {
    match op
    case SendGoal => GoalChannel
    case SendCancel => CancelChannel
    case SendResult => ResultChannel
    case TakeGoal => GoalChannel
    case TakeCancel => CancelChannel
    case TakeResult => ResultChannel
    case TakeFeedbackCall => FeedbackChannel
    case TakeStatusCall => StatusChannel
  }

  /** The translation each call applies to the transport's code. */
  function Translate(op: ClientCall, transport: RetCode): RetCode
  {
    match op
    case SendGoal => SendCode(transport)
    case SendCancel => SendCode(transport)
    case SendResult => SendCode(transport)
    case TakeGoal => GoalResponseCode(transport)
    case TakeCancel => TakeCode(transport, ClientTakeFailed)
    case TakeResult => TakeCode(transport, ClientTakeFailed)
    case TakeFeedbackCall => TakeCode(transport, SubscriptionTakeFailed)
    case TakeStatusCall => TakeCode(transport, SubscriptionTakeFailed)
  }

  /** Each of the eight calls is the shared guard around its own entity and
      translation table. */
  lemma {:induction false} CallIsGuarded(op: ClientCall, client: ActionClient?, messageNonNull: bool, transport: RetCode)
    ensures Call(op, client, messageNonNull, transport)
         == Guarded(client, messageNonNull, ChannelOf(op), Translate(op, transport))
  {
    match op
    case SendGoal =>
    case SendCancel =>
    case SendResult =>
    case TakeGoal =>
    case TakeCancel =>
    case TakeResult =>
    case TakeFeedbackCall =>
    case TakeStatusCall =>
  }

  /** Every call reports an invalid client before a null message, reaches the
      transport only when both checks pass, and then succeeds exactly when the
      transport does; a rejected call's outcome does not depend on the
      transport's answer. */
  lemma {:induction false} CheckOrderHolds(
    op: ClientCall, client: ActionClient?, messageNonNull: bool, t1: RetCode, t2: RetCode)
    ensures !IsValid(client) ==> Call(op, client, messageNonNull, t1) == CallOutcome(ActionClientInvalid, None)
    ensures IsValid(client) && !messageNonNull ==>
      Call(op, client, messageNonNull, t1) == CallOutcome(InvalidArgument, None)
    ensures Call(op, client, messageNonNull, t1).forwardedTo.None? ==>
      Call(op, client, messageNonNull, t1) == Call(op, client, messageNonNull, t2)
    ensures IsValid(client) && messageNonNull ==>
      && Call(op, client, messageNonNull, t1).forwardedTo == Some(ChannelOf(op))
      && (Call(op, client, messageNonNull, t1).ret == Ok <==> t1 == Ok)
  {
    CallIsGuarded(op, client, messageNonNull, t1);
    CallIsGuarded(op, client, messageNonNull, t2);
    assert Translate(op, t1) == Ok <==> t1 == Ok by {
      match op
      case SendGoal =>
      case SendCancel =>
      case SendResult =>
      case TakeGoal =>
      case TakeCancel =>
      case TakeResult =>
      case TakeFeedbackCall =>
      case TakeStatusCall =>
    }
  }

  /** The only place the tables differ: on an allocation failure the goal
      response take reports `Error` while the other takes keep `BadAlloc`, and
      the response takes do not recognise a subscription's "nothing to take". */
  lemma TranslationTablesDiffer(client: ActionClient)
    requires client.impl.Some?
    ensures TakeGoalResponse(client, true, BadAlloc).ret == Error
    ensures TakeResultResponse(client, true, BadAlloc).ret == BadAlloc
    ensures TakeFeedback(client, true, BadAlloc).ret == BadAlloc
    ensures TakeResultResponse(client, true, SubscriptionTakeFailed).ret == Error
    ensures TakeFeedback(client, true, ClientTakeFailed).ret == Error
  {
  }

  // ---------------------------------------------------------------------------
  // Init and fini

  /** The argument checks of `rcl_action_client_init`, in the order the code
      makes them; unlike the server, a null node is an invalid argument. */
  function InitCheck(
    clientNonNull: bool, node: NodeRef, typeSupportNonNull: bool,
    actionName: Option<string>, options: Option<ClientOptions>, alreadyInit: bool): (r: RetCode)
    ensures r == Ok || r == InvalidArgument || r == NodeInvalid || r == AlreadyInit
    ensures !clientNonNull || node.NullNode? ==> r == InvalidArgument
    ensures r == NodeInvalid <==> clientNonNull && node.Node? && !node.valid
    ensures r == AlreadyInit <==>
      clientNonNull && NodeIsValid(node) && typeSupportNonNull && actionName.Some?
      && options.Some? && options.value.allocatorValid && alreadyInit
    ensures r == Ok <==>
      clientNonNull && NodeIsValid(node) && typeSupportNonNull && actionName.Some?
      && options.Some? && options.value.allocatorValid && !alreadyInit
  {
    if !clientNonNull || node.NullNode? then InvalidArgument
    else if !NodeIsValid(node) then NodeInvalid
    else if !typeSupportNonNull || actionName.None? || options.None? then InvalidArgument
    else if !options.value.allocatorValid then InvalidArgument
    else if alreadyInit then AlreadyInit
    else Ok
  }

  /** The kind of collaborator behind each entity: the request/response
      entities are service clients, feedback and status are subscriptions. */
  datatype EntityKind = ServiceClient | Subscription

  function KindOf(c: Channel): EntityKind
  {
    match c
    case GoalChannel => ServiceClient
    case CancelChannel => ServiceClient
    case ResultChannel => ServiceClient
    case FeedbackChannel => Subscription
    case StatusChannel => Subscription
  }

  /** The "invalid name" code of each kind's init call. */
  function NameInvalidCode(kind: EntityKind): RetCode
  {
    match kind
    case ServiceClient => ServiceNameInvalid
    case Subscription => TopicNameInvalid
  }

  /** The code of one of the five sub-entity init helpers: a name expansion
      failure keeps `BadAlloc` and is otherwise `Error`; an init failure maps
      the kind's invalid-name code to `ActionNameInvalid`, keeps `BadAlloc`
      and is otherwise `Error`. */
  function SubEntityInitCode(kind: EntityKind, step: SubInit): (r: RetCode)
    ensures r == Ok || r == ActionNameInvalid || r == BadAlloc || r == Error
    ensures r == Ok <==> step.nameRet == Ok && step.initRet == Ok
    ensures r == ActionNameInvalid <==> step.nameRet == Ok && step.initRet == NameInvalidCode(kind)
    ensures r == BadAlloc <==> step.nameRet == BadAlloc || (step.nameRet == Ok && step.initRet == BadAlloc)
  {
    if step.nameRet != Ok then (if step.nameRet == BadAlloc then BadAlloc else Error)
    else if step.initRet != Ok then
      (if step.initRet == NameInvalidCode(kind) then ActionNameInvalid
       else if step.initRet == BadAlloc then BadAlloc
       else Error)
    else Ok
  }

  /** What the collaborators answer during `rcl_action_client_init`. */
  datatype InitOracle = InitOracle(
    allocOk: bool,                 // allocation of the impl record
    nameCopyOk: bool,              // copy of the action name
    entities: PerChannel<SubInit>, // the five sub-entity inits
    rollback: PerChannelRet)       // entity fini results if the rollback runs

  function StepCode(o: InitOracle, c: Channel): RetCode
  {
    SubEntityInitCode(KindOf(c), o.entities.At(c))
  }

  /** The entities initialized when the init sequence stops: each one needs
      the name copy and every earlier entity to have succeeded. */
  function InitializedEntities(o: InitOracle): (e: Entities)
    ensures e.goal <==> o.nameCopyOk && StepCode(o, GoalChannel) == Ok
    ensures e.cancel <==> e.goal && StepCode(o, CancelChannel) == Ok
    ensures e.result <==> e.cancel && StepCode(o, ResultChannel) == Ok
    ensures e.feedback <==> e.result && StepCode(o, FeedbackChannel) == Ok
    ensures e.status <==> e.feedback && StepCode(o, StatusChannel) == Ok
    ensures e.status ==> e.goal && e.cancel && e.result && e.feedback
  {
    var g := o.nameCopyOk && StepCode(o, GoalChannel) == Ok;
    var c := g && StepCode(o, CancelChannel) == Ok;
    var r := c && StepCode(o, ResultChannel) == Ok;
    var f := r && StepCode(o, FeedbackChannel) == Ok;
    var s := f && StepCode(o, StatusChannel) == Ok;
    PerChannel(g, c, r, f, s)
  }

  /** The code of the init sequence after allocation: the first failing step. */
  function InitStepsCode(o: InitOracle): (r: RetCode)
    ensures r == Ok <==> InitializedEntities(o) == AllValid
  {
    if !o.nameCopyOk then BadAlloc
    else if StepCode(o, GoalChannel) != Ok then StepCode(o, GoalChannel)
    else if StepCode(o, CancelChannel) != Ok then StepCode(o, CancelChannel)
    else if StepCode(o, ResultChannel) != Ok then StepCode(o, ResultChannel)
    else if StepCode(o, FeedbackChannel) != Ok then StepCode(o, FeedbackChannel)
    else if StepCode(o, StatusChannel) != Ok then StepCode(o, StatusChannel)
    else Ok
  }

  /** The steps of the init sequence in the order it runs them: the name
      copy, the three service clients, the two subscriptions. */
  function InitStepCodes(o: InitOracle): (codes: seq<RetCode>)
    ensures |codes| == 6
  {
    [if o.nameCopyOk then Ok else BadAlloc,
     StepCode(o, GoalChannel), StepCode(o, CancelChannel), StepCode(o, ResultChannel),
     StepCode(o, FeedbackChannel), StepCode(o, StatusChannel)]
  }

  /** The init sequence's code is that of the first step that fails, in the
      order the C runs them, and OK when none does. */
  lemma {:induction false} InitStepsCodeIsFirstFailure(o: InitOracle)
    ensures InitStepsCode(o) == FirstFailure(InitStepCodes(o))
  {
    var codes := InitStepCodes(o);
    FirstFailureUnfolds(codes);
  }

  /** The code of `rcl_action_client_fini` for a valid client and node: only
      entities that are still initialized are finalized, and any failure among
      them makes the call `Error`. */
  function FiniCode(entities: Entities, finis: PerChannelRet): (r: RetCode)
    ensures r == Ok || r == Error
    ensures r == Error <==> exists c: Channel :: entities.At(c) && finis.At(c) != Ok
  {
    if (entities.At(GoalChannel) && finis.At(GoalChannel) != Ok)
       || (entities.At(CancelChannel) && finis.At(CancelChannel) != Ok)
       || (entities.At(ResultChannel) && finis.At(ResultChannel) != Ok)
       || (entities.At(FeedbackChannel) && finis.At(FeedbackChannel) != Ok)
       || (entities.At(StatusChannel) && finis.At(StatusChannel) != Ok)
    then Error
    else Ok
  }

  /** The impl `Fini` leaves behind: released after a successful fini,
      otherwise kept with every entity finalized. */
  function ImplAfterFini(impl: ClientImpl, ret: RetCode): Option<ClientImpl>
  {
    if ret == Ok then None else Some(impl.(entities := NoneValid))
  }

  /** The impl the as-written fini leaves behind: released only after a FAILED fini. */
  function ImplAfterFiniAsWritten(impl: ClientImpl, ret: RetCode): Option<ClientImpl>
  {
    if ret != Ok then None else Some(impl.(entities := NoneValid))
  }

  /** `rcl_action_client_fini` with the release condition corrected: an
      invalid client is reported before an invalid node, only initialized
      entities are finalized, and a successful fini leaves the client invalid. */
  method Fini(client: ActionClient?, node: NodeRef, finis: PerChannelRet) returns (ret: RetCode)
    modifies client
    ensures !old(IsValid(client)) ==>
      ret == ActionClientInvalid && (client != null ==> client.impl == old(client.impl))
    ensures old(IsValid(client)) && !NodeIsValid(node) ==>
      ret == NodeInvalid && client.impl == old(client.impl)
    ensures old(IsValid(client)) && NodeIsValid(node) ==>
      && ret == FiniCode(old(client.impl.value.entities), finis)
      && client.impl == ImplAfterFini(old(client.impl.value), ret)
    ensures old(IsValid(client)) && NodeIsValid(node) && ret == Ok ==> !IsValid(client)
  {
    if !IsValid(client) {
      return ActionClientInvalid;
    }
    if !NodeIsValid(node) {
      return NodeInvalid;
    }
    ret := FiniEntities(client.impl.value.entities, finis);
    if ret == Ok {
      client.impl := None;
    } else {
      client.impl := Some(client.impl.value.(entities := NoneValid));
    }
  }

  /** `rcl_action_client_fini` as written: the impl is released and nulled only
      when some finalization FAILED, so a successful fini leaves the client valid. */
  method FiniAsWritten(client: ActionClient?, node: NodeRef, finis: PerChannelRet) returns (ret: RetCode)
    modifies client
    ensures !old(IsValid(client)) ==>
      ret == ActionClientInvalid && (client != null ==> client.impl == old(client.impl))
    ensures old(IsValid(client)) && !NodeIsValid(node) ==>
      ret == NodeInvalid && client.impl == old(client.impl)
    ensures old(IsValid(client)) && NodeIsValid(node) ==>
      && ret == FiniCode(old(client.impl.value.entities), finis)
      && client.impl == ImplAfterFiniAsWritten(old(client.impl.value), ret)
  {
    if !IsValid(client) {
      return ActionClientInvalid;
    }
    if !NodeIsValid(node) {
      return NodeInvalid;
    }
    ret := FiniEntities(client.impl.value.entities, finis);
    if ret != Ok {
      client.impl := None;
    } else {
      client.impl := Some(client.impl.value.(entities := NoneValid));
    }
  }

  /** The five guarded finalizations of `rcl_action_client_fini`, accumulating
      `Error` across them. */
  method FiniEntities(entities: Entities, finis: PerChannelRet) returns (ret: RetCode)
    ensures ret == FiniCode(entities, finis)
  {
    ret := Ok;
    if entities.goal {
      if finis.goal != Ok { ret := Error; }
    }
    if entities.cancel {
      if finis.cancel != Ok { ret := Error; }
    }
    if entities.result {
      if finis.result != Ok { ret := Error; }
    }
    if entities.feedback {
      if finis.feedback != Ok { ret := Error; }
    }
    if entities.status {
      if finis.status != Ok { ret := Error; }
    }
  }

  /** The fini result of an entity that is not initialized is never consulted. */
  lemma FiniIgnoresUninitialized(entities: Entities, f1: PerChannelRet, f2: PerChannelRet)
    requires forall c: Channel :: entities.At(c) ==> f1.At(c) == f2.At(c)
    ensures FiniCode(entities, f1) == FiniCode(entities, f2)
  {
    if FiniCode(entities, f1) == Error {
      var c :| entities.At(c) && f1.At(c) != Ok;
      assert f2.At(c) != Ok;
    }
  }

  /** Evidence for the release condition: a client whose five finalizations
      all succeed is, as written, still valid afterwards (its impl is kept),
      while the corrected fini releases it. */
  lemma FiniAsWrittenKeepsClientValid(impl: ClientImpl, finis: PerChannelRet)
    requires forall c: Channel :: finis.At(c) == Ok
    ensures FiniCode(impl.entities, finis) == Ok
    ensures ImplAfterFiniAsWritten(impl, FiniCode(impl.entities, finis)).Some?
    ensures ImplAfterFini(impl, FiniCode(impl.entities, finis)) == None
  {
  }

  /** The name the impl holds after the copy: the copy, or null when it failed. */
  function StoredName(o: InitOracle, actionName: string): Option<string>
  {
    if o.nameCopyOk then Some(actionName) else None
  }

  /** The steps of `rcl_action_client_init` after the impl is allocated: the
      name copy, then the five sub-entity inits, stopping at the first failure.
      The impl records which entities came up. */
  method InitSequence(client: ActionClient, options: ClientOptions, actionName: string, o: InitOracle)
    returns (ret: RetCode)
    modifies client
    ensures ret == InitStepsCode(o)
    ensures client.impl == Some(ClientImpl(InitializedEntities(o), options, StoredName(o, actionName)))
  {
    var impl := ClientImpl(NoneValid, options, if o.nameCopyOk then Some(actionName) else None);
    client.impl := Some(impl);
    ret := if o.nameCopyOk then Ok else BadAlloc;
    if ret == Ok {
      ret := SubEntityInitCode(ServiceClient, o.entities.goal);
      if ret == Ok {
        impl := impl.(entities := impl.entities.(goal := true));
        client.impl := Some(impl);
      }
    }
    if ret == Ok {
      ret := SubEntityInitCode(ServiceClient, o.entities.cancel);
      if ret == Ok {
        impl := impl.(entities := impl.entities.(cancel := true));
        client.impl := Some(impl);
      }
    }
    if ret == Ok {
      ret := SubEntityInitCode(ServiceClient, o.entities.result);
      if ret == Ok {
        impl := impl.(entities := impl.entities.(result := true));
        client.impl := Some(impl);
      }
    }
    if ret == Ok {
      ret := SubEntityInitCode(Subscription, o.entities.feedback);
      if ret == Ok {
        impl := impl.(entities := impl.entities.(feedback := true));
        client.impl := Some(impl);
      }
    }
    if ret == Ok {
      ret := SubEntityInitCode(Subscription, o.entities.status);
      if ret == Ok {
        impl := impl.(entities := impl.entities.(status := true));
        client.impl := Some(impl);
      }
    }
  }

  /** `rcl_action_client_init` with the rollback through the corrected `Fini`.
      A failed check leaves the client untouched; a failed allocation leaves no
      impl; a failure later in the sequence rolls back through `Fini`, whose
      failure turns the code into `Error`, and a successful rollback leaves no
      impl; a success leaves a valid client with all five entities initialized. */
  method Init(
    client: ActionClient?, node: NodeRef, typeSupportNonNull: bool,
    actionName: Option<string>, options: Option<ClientOptions>, o: InitOracle)
    returns (ret: RetCode)
    modifies client
    ensures var check := InitCheck(client != null, node, typeSupportNonNull, actionName, options,
                                   client != null && old(client.impl).Some?);
      && (check != Ok ==> ret == check && (client != null ==> client.impl == old(client.impl)))
      && (check == Ok && !o.allocOk ==> ret == BadAlloc && client.impl == None)
      && (check == Ok && o.allocOk && InitStepsCode(o) == Ok ==>
            ret == Ok && client.impl == Some(ClientImpl(AllValid, options.value, Some(actionName.value))))
      && (check == Ok && o.allocOk && InitStepsCode(o) != Ok ==>
            var rollback := FiniCode(InitializedEntities(o), o.rollback);
            && ret == (if rollback == Ok then InitStepsCode(o) else Error)
            && client.impl == ImplAfterFini(ClientImpl(InitializedEntities(o), options.value,
                                                       StoredName(o, actionName.value)), rollback))
    ensures ret == Ok <==> IsValid(client) && client.impl.value.entities == AllValid && old(client.impl).None?
  {
    ret := InitCheck(client != null, node, typeSupportNonNull, actionName, options,
                     client != null && client.impl.Some?);
    if ret != Ok {
      return;
    }
    if !o.allocOk {
      return BadAlloc;
    }
    ret := InitSequence(client, options.value, actionName.value, o);
    if ret != Ok {
      var finiRet := Fini(client, node, o.rollback);
      if finiRet != Ok {
        ret := Error;
      }
    }
  }

  /** `rcl_action_client_init` as written: the rollback runs the as-written
      fini, which keeps the impl when every finalization succeeds, so a failed
      init whose rollback succeeds leaves the client valid, with a null name
      when the name copy was what failed. */
  method InitAsWritten(
    client: ActionClient?, node: NodeRef, typeSupportNonNull: bool,
    actionName: Option<string>, options: Option<ClientOptions>, o: InitOracle)
    returns (ret: RetCode)
    modifies client
    ensures var check := InitCheck(client != null, node, typeSupportNonNull, actionName, options,
                                   client != null && old(client.impl).Some?);
      && (check != Ok ==> ret == check && (client != null ==> client.impl == old(client.impl)))
      && (check == Ok && !o.allocOk ==> ret == BadAlloc && client.impl == None)
      && (check == Ok && o.allocOk && InitStepsCode(o) == Ok ==>
            ret == Ok && client.impl == Some(ClientImpl(AllValid, options.value, Some(actionName.value))))
      && (check == Ok && o.allocOk && InitStepsCode(o) != Ok ==>
            var rollback := FiniCode(InitializedEntities(o), o.rollback);
            && ret == (if rollback == Ok then InitStepsCode(o) else Error)
            && client.impl == ImplAfterFiniAsWritten(ClientImpl(InitializedEntities(o), options.value,
                                                                StoredName(o, actionName.value)), rollback))
  {
    ret := InitCheck(client != null, node, typeSupportNonNull, actionName, options,
                     client != null && client.impl.Some?);
    if ret != Ok {
      return;
    }
    if !o.allocOk {
      return BadAlloc;
    }
    ret := InitSequence(client, options.value, actionName.value, o);
    if ret != Ok {
      var finiRet := FiniAsWritten(client, node, o.rollback);
      if finiRet != Ok {
        ret := Error;
      }
    }
  }

  /** A failed name copy initialises no entity, so the rollback finalises
      nothing and succeeds: the as-written rollback keeps an impl whose name is
      null, and `GetActionName` on that client answers null, while the
      corrected rollback releases the impl. */
  lemma FailedNameCopyKeepsNullName(options: ClientOptions, actionName: string, entities: PerChannel<SubInit>,
                                    finis: PerChannelRet)
    ensures var o := InitOracle(true, false, entities, finis);
            var rollback := FiniCode(InitializedEntities(o), o.rollback);
            var impl := ClientImpl(InitializedEntities(o), options, StoredName(o, actionName));
      && InitStepsCode(o) == BadAlloc
      && InitializedEntities(o) == NoneValid
      && rollback == Ok
      && ImplAfterFiniAsWritten(impl, rollback) == Some(ClientImpl(NoneValid, options, None))
      && ImplAfterFini(impl, rollback) == None
  {
  }

  /** Evidence for the release condition in init: when the status
      subscription's topic name is rejected, the four earlier entities and the
      status subscription itself have all been initialised, so the rollback
      works on fully written state; with every finalisation succeeding, init
      reports ACTION_NAME_INVALID, and the as-written rollback keeps the impl
      with its name and options but every entity finalised, so the client
      stays valid (a second init would report ALREADY_INIT), while the
      corrected rollback releases it. */
  lemma FailedInitAsWrittenLeavesClientValid(options: ClientOptions, actionName: string)
    ensures var o := InitOracle(true, true,
                                PerChannel(SubInit(Ok, Ok), SubInit(Ok, Ok), SubInit(Ok, Ok),
                                           SubInit(Ok, Ok), SubInit(Ok, TopicNameInvalid)),
                                PerChannel(Ok, Ok, Ok, Ok, Ok));
            var rollback := FiniCode(InitializedEntities(o), o.rollback);
            var impl := ClientImpl(InitializedEntities(o), options, StoredName(o, actionName));
      && InitializedEntities(o) == PerChannel(true, true, true, true, false)
      && InitStepsCode(o) == ActionNameInvalid
      && rollback == Ok
      && ImplAfterFiniAsWritten(impl, rollback) == Some(impl.(entities := NoneValid))
      && ImplAfterFini(impl, rollback) == None
  {
    var o := InitOracle(true, true,
                        PerChannel(SubInit(Ok, Ok), SubInit(Ok, Ok), SubInit(Ok, Ok),
                                   SubInit(Ok, Ok), SubInit(Ok, TopicNameInvalid)),
                        PerChannel(Ok, Ok, Ok, Ok, Ok));
    assert StepCode(o, StatusChannel) == ActionNameInvalid;
    assert InitializedEntities(o) == PerChannel(true, true, true, true, false);
  }

  // ---------------------------------------------------------------------------
  // Wait-set helpers

  /** The part of `rcl_wait_set_t` the client touches: the entities registered
      so far, and after a wait the subscription and client slots (true where
      the slot is non-null, that is, ready). */
  class WaitSet {
    var registered: seq<Channel>
    var subscriptionSlots: seq<bool>
    var clientSlots: seq<bool>

    constructor (numSubscriptions: nat, numClients: nat)
      ensures registered == []
      ensures subscriptionSlots == seq(numSubscriptions, _ => false)
      ensures clientSlots == seq(numClients, _ => false)
    {
      registered := [];
      subscriptionSlots := seq(numSubscriptions, _ => false);
      clientSlots := seq(numClients, _ => false);
    }
  }

  /** The order in which the client's entities are meant to be added. */
  const AddOrder: seq<Channel> := [GoalChannel, CancelChannel, ResultChannel, FeedbackChannel, StatusChannel]

  /** The order the code as written adds them in: it returns before the status subscription. */
  const AddOrderAsWritten: seq<Channel> := [GoalChannel, CancelChannel, ResultChannel, FeedbackChannel]

  /** The entities registered by adding `order` one by one until an add fails. */
  function Registered(order: seq<Channel>, adds: PerChannelRet): (r: seq<Channel>)
    ensures |r| <= |order| && r == order[..|r|]
    ensures forall i :: 0 <= i < |r| ==> adds.At(r[i]) == Ok
    ensures |r| < |order| ==> adds.At(order[|r|]) != Ok
  {
    if order == [] || adds.At(order[0]) != Ok then []
    else [order[0]] + Registered(order[1..], adds)
  }

  /** The code of adding `order` one by one: the first failing add's code,
      passed through unchanged. */
  function AddCode(order: seq<Channel>, adds: PerChannelRet): (r: RetCode)
    ensures r == Ok <==> Registered(order, adds) == order
    ensures r != Ok ==> r == adds.At(order[|Registered(order, adds)|])
  {
    if order == [] then Ok
    else if adds.At(order[0]) != Ok then adds.At(order[0])
    else AddCode(order[1..], adds)
  }

  /** The entities of one kind in `s`, in order. */
  function OfKind(kind: EntityKind, s: seq<Channel>): (r: seq<Channel>)
    ensures |r| <= |s|
    ensures forall i :: 0 <= i < |r| ==> KindOf(r[i]) == kind
  {
    if s == [] then []
    else if KindOf(s[0]) == kind then [s[0]] + OfKind(kind, s[1..])
    else OfKind(kind, s[1..])
  }

  /** `OfKind` keeps exactly the entities of the given kind. */
  lemma {:induction false} OfKindMembers(kind: EntityKind, s: seq<Channel>)
    ensures forall c :: c in OfKind(kind, s) <==> c in s && KindOf(c) == kind
  {
    if s != [] {
      OfKindMembers(kind, s[1..]);
      assert forall c :: c in s <==> c == s[0] || c in s[1..];
    }
  }

  /** `OfKind` keeps the order of the list it filters: filtering a
      concatenation concatenates the filtered parts. */
  lemma {:induction false} OfKindAppend(kind: EntityKind, s: seq<Channel>, t: seq<Channel>)
    ensures OfKind(kind, s + t) == OfKind(kind, s) + OfKind(kind, t)
  {
    if s == [] {
      assert s + t == t;
    } else {
      assert (s + t)[0] == s[0] && (s + t)[1..] == s[1..] + t;
      OfKindAppend(kind, s[1..], t);
    }
  }

  /** `rcl_action_wait_set_add_action_client` with the status subscription
      added as well: the wait set is checked first, then the client; each add
      failure is returned unchanged and stops the sequence. */
  method AddActionClient(waitSet: WaitSet?, client: ActionClient?, adds: PerChannelRet) returns (ret: RetCode)
    modifies waitSet
    ensures waitSet == null ==> ret == WaitSetInvalid
    ensures waitSet != null && !IsValid(client) ==>
      ret == ActionClientInvalid && waitSet.registered == old(waitSet.registered)
    ensures waitSet != null && IsValid(client) ==>
      && ret == AddCode(AddOrder, adds)
      && waitSet.registered == old(waitSet.registered) + Registered(AddOrder, adds)
    ensures waitSet != null ==>
      waitSet.subscriptionSlots == old(waitSet.subscriptionSlots) && waitSet.clientSlots == old(waitSet.clientSlots)
  {
    if waitSet == null {
      return WaitSetInvalid;
    }
    if !IsValid(client) {
      return ActionClientInvalid;
    }
    AddOrderUnfolds(adds);
    ret := adds.goal;
    if ret != Ok {
      assert Registered(AddOrder, adds) == [];
      return;
    }
    waitSet.registered := waitSet.registered + [GoalChannel];
    ret := adds.cancel;
    if ret != Ok {
      assert Registered(AddOrder, adds) == [GoalChannel];
      return;
    }
    waitSet.registered := waitSet.registered + [CancelChannel];
    ret := adds.result;
    if ret != Ok {
      assert Registered(AddOrder, adds) == [GoalChannel, CancelChannel];
      return;
    }
    waitSet.registered := waitSet.registered + [ResultChannel];
    ret := adds.feedback;
    if ret != Ok {
      assert Registered(AddOrder, adds) == [GoalChannel, CancelChannel, ResultChannel];
      return;
    }
    waitSet.registered := waitSet.registered + [FeedbackChannel];
    ret := adds.status;
    if ret != Ok {
      assert Registered(AddOrder, adds) == [GoalChannel, CancelChannel, ResultChannel, FeedbackChannel];
      return;
    }
    waitSet.registered := waitSet.registered + [StatusChannel];
    ret := Ok;
  }

  /** `rcl_action_wait_set_add_action_client` as written: the `return` after the
      feedback subscription means the status subscription is never added. */
  method AddActionClientAsWritten(waitSet: WaitSet?, client: ActionClient?, adds: PerChannelRet)
    returns (ret: RetCode)
    modifies waitSet
    ensures waitSet == null ==> ret == WaitSetInvalid
    ensures waitSet != null && !IsValid(client) ==>
      ret == ActionClientInvalid && waitSet.registered == old(waitSet.registered)
    ensures waitSet != null && IsValid(client) ==>
      && ret == AddCode(AddOrderAsWritten, adds)
      && waitSet.registered == old(waitSet.registered) + Registered(AddOrderAsWritten, adds)
    ensures waitSet != null ==>
      waitSet.subscriptionSlots == old(waitSet.subscriptionSlots) && waitSet.clientSlots == old(waitSet.clientSlots)
  {
    if waitSet == null {
      return WaitSetInvalid;
    }
    if !IsValid(client) {
      return ActionClientInvalid;
    }
    AddOrderUnfolds(adds);
    ret := adds.goal;
    if ret != Ok {
      assert Registered(AddOrderAsWritten, adds) == [];
      return;
    }
    waitSet.registered := waitSet.registered + [GoalChannel];
    ret := adds.cancel;
    if ret != Ok {
      assert Registered(AddOrderAsWritten, adds) == [GoalChannel];
      return;
    }
    waitSet.registered := waitSet.registered + [CancelChannel];
    ret := adds.result;
    if ret != Ok {
      assert Registered(AddOrderAsWritten, adds) == [GoalChannel, CancelChannel];
      return;
    }
    waitSet.registered := waitSet.registered + [ResultChannel];
    ret := adds.feedback;
    if ret != Ok {
      assert Registered(AddOrderAsWritten, adds) == [GoalChannel, CancelChannel, ResultChannel];
      return;
    }
    waitSet.registered := waitSet.registered + [FeedbackChannel];
    return Ok;
  }

  /** The add sequences spelled out entity by entity, as the helpers perform them. */
  lemma {:induction false} AddOrderUnfolds(adds: PerChannelRet)
    ensures Registered(AddOrder, adds) ==
      if adds.goal != Ok then []
      else if adds.cancel != Ok then [GoalChannel]
      else if adds.result != Ok then [GoalChannel, CancelChannel]
      else if adds.feedback != Ok then [GoalChannel, CancelChannel, ResultChannel]
      else if adds.status != Ok then [GoalChannel, CancelChannel, ResultChannel, FeedbackChannel]
      else AddOrder
    ensures AddCode(AddOrder, adds) ==
      if adds.goal != Ok then adds.goal
      else if adds.cancel != Ok then adds.cancel
      else if adds.result != Ok then adds.result
      else if adds.feedback != Ok then adds.feedback
      else adds.status
    ensures Registered(AddOrderAsWritten, adds) ==
      if adds.goal != Ok then []
      else if adds.cancel != Ok then [GoalChannel]
      else if adds.result != Ok then [GoalChannel, CancelChannel]
      else if adds.feedback != Ok then [GoalChannel, CancelChannel, ResultChannel]
      else AddOrderAsWritten
    ensures AddCode(AddOrderAsWritten, adds) ==
      if adds.goal != Ok then adds.goal
      else if adds.cancel != Ok then adds.cancel
      else if adds.result != Ok then adds.result
      else adds.feedback
  {
    var s4 := [StatusChannel];
    var s3 := [FeedbackChannel] + s4;
    var s2 := [ResultChannel] + s3;
    var s1 := [CancelChannel] + s2;
    assert AddOrder == [GoalChannel] + s1;
    AddCons(StatusChannel, [], adds);
    AddCons(FeedbackChannel, s4, adds);
    AddCons(ResultChannel, s3, adds);
    AddCons(CancelChannel, s2, adds);
    AddCons(GoalChannel, s1, adds);
    var w3 := [FeedbackChannel];
    var w2 := [ResultChannel] + w3;
    var w1 := [CancelChannel] + w2;
    assert AddOrderAsWritten == [GoalChannel] + w1;
    AddCons(FeedbackChannel, [], adds);
    AddCons(ResultChannel, w3, adds);
    AddCons(CancelChannel, w2, adds);
    AddCons(GoalChannel, w1, adds);
  }

  /** One add in front of the rest of the sequence. */
  lemma AddCons(c: Channel, rest: seq<Channel>, adds: PerChannelRet)
    ensures Registered([c] + rest, adds) == if adds.At(c) != Ok then [] else [c] + Registered(rest, adds)
    ensures AddCode([c] + rest, adds) == if adds.At(c) != Ok then adds.At(c) else AddCode(rest, adds)
  {
    assert ([c] + rest)[0] == c && ([c] + rest)[1..] == rest;
  }

  /** The kinds in the intended add order: three service clients, then two subscriptions. */
  lemma {:induction false} AddOrderKinds()
    ensures OfKind(Subscription, AddOrder) == [FeedbackChannel, StatusChannel]
    ensures OfKind(ServiceClient, AddOrder) == [GoalChannel, CancelChannel, ResultChannel]
  {
    var s4 := [StatusChannel];
    var s3 := [FeedbackChannel] + s4;
    var s2 := [ResultChannel] + s3;
    var s1 := [CancelChannel] + s2;
    assert AddOrder == [GoalChannel] + s1;
    assert s4[1..] == [] && s3[1..] == s4 && s2[1..] == s3 && s1[1..] == s2;
    assert OfKind(Subscription, s4) == s4 && OfKind(ServiceClient, s4) == [];
    assert OfKind(Subscription, s3) == s3 && OfKind(ServiceClient, s3) == [];
    assert OfKind(Subscription, s2) == s3 && OfKind(ServiceClient, s2) == [ResultChannel];
    assert OfKind(Subscription, s1) == s3 && OfKind(ServiceClient, s1) == [CancelChannel, ResultChannel];
  }

  /** The kinds in the as-written add order: only one subscription. */
  lemma {:induction false} AddOrderAsWrittenKinds()
    ensures OfKind(Subscription, AddOrderAsWritten) == [FeedbackChannel]
  {
    var tail := [FeedbackChannel];
    assert tail[1..] == [];
    assert OfKind(Subscription, tail) == tail;
    assert AddOrderAsWritten[1..] == [CancelChannel, ResultChannel] + tail;
    assert AddOrderAsWritten[1..][1..] == [ResultChannel] + tail;
    assert AddOrderAsWritten[1..][1..][1..] == tail;
  }

  /** With every add succeeding, the corrected helper registers two
      subscriptions and three clients, matching the counts the client reports;
      the as-written helper registers only one subscription and never the
      status subscription. */
  lemma {:induction false} RegisteredCounts(adds: PerChannelRet)
    requires forall c: Channel :: adds.At(c) == Ok
    ensures |OfKind(Subscription, Registered(AddOrder, adds))| == 2
    ensures |OfKind(ServiceClient, Registered(AddOrder, adds))| == 3
    ensures |OfKind(Subscription, Registered(AddOrderAsWritten, adds))| == 1
    ensures StatusChannel !in Registered(AddOrderAsWritten, adds)
  {
    AllAddsRegister(AddOrder, adds);
    AllAddsRegister(AddOrderAsWritten, adds);
    AddOrderKinds();
    AddOrderAsWrittenKinds();
  }

  /** When no add fails, every entity of the order is registered. */
  lemma {:induction false} AllAddsRegister(order: seq<Channel>, adds: PerChannelRet)
    requires forall c: Channel :: adds.At(c) == Ok
    ensures Registered(order, adds) == order
  {
    if order != [] {
      AllAddsRegister(order[1..], adds);
    }
  }

  /** `rcl_action_client_wait_set_get_num_entities`: on success the counts are
      the client's two subscriptions and three service clients, exactly what
      `AddActionClient` registers of each kind. */
  method WaitSetGetNumEntities(client: ActionClient?, outputsNonNull: bool)
    returns (ret: RetCode, numSubscriptions: nat, numGuardConditions: nat, numTimers: nat,
             numClients: nat, numServices: nat)
    ensures ret == (if !IsValid(client) then ActionClientInvalid
                    else if !outputsNonNull then InvalidArgument
                    else Ok)
    ensures ret == Ok ==>
      && numSubscriptions == |OfKind(Subscription, AddOrder)| == 2
      && numClients == |OfKind(ServiceClient, AddOrder)| == 3
      && numGuardConditions == 0 && numTimers == 0 && numServices == 0
  {
    numSubscriptions, numGuardConditions, numTimers, numClients, numServices := 0, 0, 0, 0, 0;
    if !IsValid(client) {
      return ActionClientInvalid, 0, 0, 0, 0, 0;
    }
    if !outputsNonNull {
      return InvalidArgument, 0, 0, 0, 0, 0;
    }
    numSubscriptions := 2;
    numGuardConditions := 0;
    numTimers := 0;
    numClients := 3;
    numServices := 0;
    ret := Ok;
    AddOrderKinds();
  }

  /** `rcl_action_client_wait_set_get_entities_ready`: the wait set must have
      exactly two subscription slots and three client slots; the flags are
      then the slots in registration order (feedback, status; goal, cancel,
      result). */
  method WaitSetGetEntitiesReady(waitSet: WaitSet, client: ActionClient?, outputsNonNull: bool)
    returns (ret: RetCode, isFeedbackReady: bool, isStatusReady: bool,
             isGoalResponseReady: bool, isCancelResponseReady: bool, isResultResponseReady: bool)
    ensures ret == (if !IsValid(client) then ActionClientInvalid
                    else if !outputsNonNull then InvalidArgument
                    else if |waitSet.subscriptionSlots| != 2 || |waitSet.clientSlots| != 3 then WaitSetInvalid
                    else Ok)
    ensures ret == Ok ==>
      && isFeedbackReady == waitSet.subscriptionSlots[0]
      && isStatusReady == waitSet.subscriptionSlots[1]
      && isGoalResponseReady == waitSet.clientSlots[0]
      && isCancelResponseReady == waitSet.clientSlots[1]
      && isResultResponseReady == waitSet.clientSlots[2]
  {
    isFeedbackReady, isStatusReady, isGoalResponseReady, isCancelResponseReady, isResultResponseReady :=
      false, false, false, false, false;
    if !IsValid(client) {
      return ActionClientInvalid, false, false, false, false, false;
    }
    if !outputsNonNull {
      return InvalidArgument, false, false, false, false, false;
    }
    if |waitSet.subscriptionSlots| != 2 || |waitSet.clientSlots| != 3 {
      return WaitSetInvalid, false, false, false, false, false;
    }
    isFeedbackReady := waitSet.subscriptionSlots[0];
    isStatusReady := waitSet.subscriptionSlots[1];
    isGoalResponseReady := waitSet.clientSlots[0];
    isCancelResponseReady := waitSet.clientSlots[1];
    isResultResponseReady := waitSet.clientSlots[2];
    ret := Ok;
  }

  /** `rcl_action_client_get_action_name`. */
  function GetActionName(client: ActionClient?): (name: Option<string>)
    reads client
    ensures !IsValid(client) ==> name == None
    ensures IsValid(client) ==> name == client.impl.value.actionName
    ensures name.Some? ==> IsValid(client) && name == client.impl.value.actionName
  {
    if !IsValid(client) then None else client.impl.value.actionName
  }

  /** `rcl_action_client_get_options`. */
  function GetOptions(client: ActionClient?): (options: Option<ClientOptions>)
    reads client
    ensures options.Some? <==> IsValid(client)
    ensures options.Some? ==> options.value == client.impl.value.options
  {
    if !IsValid(client) then None else Some(client.impl.value.options)
  }
}
