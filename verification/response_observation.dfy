/** `ResponseObservation`: the game's answer to an observation request,
    decoded from the wire message `Sc2Api.Response`. */
module Response {
  import opened Wrappers
  import opened Errors
  import opened Collections

  /** The nested values of the response; their classes are not part of this
      model. */
  type GameStatus(==, !new)
  type Action(==, !new)
  type ActionError(==, !new)
  type Observation(==, !new)
  type PlayerResult(==, !new)
  type ChatReceived(==, !new)
  /** Their wire forms. */
  type WireStatus(==, !new)
  type WireAction(==, !new)
  type WireActionError(==, !new)
  type WireObservation(==, !new)
  type WirePlayerResult(==, !new)
  type WireChatReceived(==, !new)

  /** The kind tag of a response; only the observation kind is part of this
      model. */
  datatype ResponseType = ObservationKind | OtherKind

  /** The nested decoders: `GameStatus::from`, `Action::from`,
      `ActionError::from`, `Observation::from`, `PlayerResult::from`,
      `ChatReceived::from`. */
  datatype Converters = Converters(
    statusFrom: WireStatus -> GameStatus,
    actionFrom: WireAction -> Action,
    actionErrorFrom: WireActionError -> ActionError,
    observationFrom: WireObservation -> Observation,
    playerResultFrom: WirePlayerResult -> PlayerResult,
    chatFrom: WireChatReceived -> ChatReceived)

  /** `Sc2Api.ResponseObservation`: four repeated fields and an optional
      observation. */
  datatype WireResponseObservation = WireResponseObservation(
    actions: seq<WireAction>,
    actionErrors: seq<WireActionError>,
    observation: Option<WireObservation>,
    playerResult: seq<WirePlayerResult>,
    chat: seq<WireChatReceived>)

  /** `Sc2Api.Response`, reduced to the parts this decoder reads: the
      observation payload, which may be absent, and the status, which the
      wire library reports even when unset. */
  datatype WireResponse = WireResponse(observation: Option<WireResponseObservation>, status: WireStatus)

  /** The immutable response: the kind tag and status of every response,
      then four ordered lists and the observation. */
  datatype ResponseObservation = ResponseObservation(
    responseType: ResponseType,
    status: GameStatus,
    actions: seq<Action>,
    actionErrors: seq<ActionError>,
    observation: Observation,
    playerResults: seq<PlayerResult>,
    chat: seq<ChatReceived>)

  /** `hasObservationResponse`: a message is present and carries an
      observation payload. */
  predicate HasObservationResponse(r: Option<WireResponse>) {
    r.Some? && r.value.observation.Some?
  }

  /** `ResponseObservation.from(response)`: a missing message or payload is
      rejected; then a payload without its inner observation fails naming
      "observation". Each list keeps the length and the order of its wire
      list, element by element. */
  function From(r: Option<WireResponse>, c: Converters): (res: Result<ResponseObservation, Error>)
    ensures r.None? || r.value.observation.None? ==>
      res == Failure(IllegalArgument("provided argument doesn't have observation response"))
    ensures r.Some? && r.value.observation.Some? && r.value.observation.value.observation.None? ==>
      res == Failure(Required("observation"))
    ensures res.Success? <==> r.Some? && r.value.observation.Some? && r.value.observation.value.observation.Some?
    ensures res.Success? ==>
      var w := r.value.observation.value;
      && res.value.responseType == ObservationKind
      && res.value.status == c.statusFrom(r.value.status)
      && res.value.observation == c.observationFrom(w.observation.value)
      && |res.value.actions| == |w.actions|
      && (forall i :: 0 <= i < |w.actions| ==> res.value.actions[i] == c.actionFrom(w.actions[i]))
      && |res.value.actionErrors| == |w.actionErrors|
      && (forall i :: 0 <= i < |w.actionErrors| ==> res.value.actionErrors[i] == c.actionErrorFrom(w.actionErrors[i]))
      && |res.value.playerResults| == |w.playerResult|
      && (forall i :: 0 <= i < |w.playerResult| ==> res.value.playerResults[i] == c.playerResultFrom(w.playerResult[i]))
      && |res.value.chat| == |w.chat|
      && (forall i :: 0 <= i < |w.chat| ==> res.value.chat[i] == c.chatFrom(w.chat[i]))
  {
    if !HasObservationResponse(r) then
      Failure(IllegalArgument("provided argument doesn't have observation response"))
    else
      var w := r.value.observation.value;
      if w.observation.None? then Failure(Required("observation"))
      else
        Success(ResponseObservation(
          ObservationKind,
          c.statusFrom(r.value.status),
          MapSeq(w.actions, c.actionFrom),
          MapSeq(w.actionErrors, c.actionErrorFrom),
          c.observationFrom(w.observation.value),
          MapSeq(w.playerResult, c.playerResultFrom),
          MapSeq(w.chat, c.chatFrom)))
  }

  /** The nested encoders, used only to state which responses can be
      decoded. */
  datatype Encoders = Encoders(
    statusToSc2Api: GameStatus -> WireStatus,
    actionToSc2Api: Action -> WireAction,
    actionErrorToSc2Api: ActionError -> WireActionError,
    observationToSc2Api: Observation -> WireObservation,
    playerResultToSc2Api: PlayerResult -> WirePlayerResult,
    chatToSc2Api: ChatReceived -> WireChatReceived)

  /** Each nested decoder inverts the matching encoder. */
  ghost predicate Inverts(c: Converters, e: Encoders) {
    && (forall x :: c.statusFrom(e.statusToSc2Api(x)) == x)
    && (forall x :: c.actionFrom(e.actionToSc2Api(x)) == x)
    && (forall x :: c.actionErrorFrom(e.actionErrorToSc2Api(x)) == x)
    && (forall x :: c.observationFrom(e.observationToSc2Api(x)) == x)
    && (forall x :: c.playerResultFrom(e.playerResultToSc2Api(x)) == x)
    && (forall x :: c.chatFrom(e.chatToSc2Api(x)) == x)
  }

  /** The wire response that carries the encoding of `v`, each list in its
      order. */
  function Carrying(v: ResponseObservation, e: Encoders): (w: WireResponse) {
    WireResponse(
      Some(WireResponseObservation(
        MapSeq(v.actions, e.actionToSc2Api),
        MapSeq(v.actionErrors, e.actionErrorToSc2Api),
        Some(e.observationToSc2Api(v.observation)),
        MapSeq(v.playerResults, e.playerResultToSc2Api),
        MapSeq(v.chat, e.chatToSc2Api))),
      e.statusToSc2Api(v.status))
  }

  /** Decoding the message that carries an observation response gives that
      response back, lists in the same order: the decoder loses nothing and
      reorders nothing. */
  lemma FromCarrying(v: ResponseObservation, c: Converters, e: Encoders)
    requires Inverts(c, e)
    requires v.responseType == ObservationKind
    ensures From(Some(Carrying(v, e)), c) == Success(v)
  {
    var d := From(Some(Carrying(v, e)), c).value;
    assert d.actions == v.actions;
    assert d.actionErrors == v.actionErrors;
    assert d.playerResults == v.playerResults;
    assert d.chat == v.chat;
  }

  /** `equals`: the kind tag and status of the base response, then the five
      fields, the lists compared in order. */
  function Equals(a: ResponseObservation, b: ResponseObservation): (r: bool)
    ensures r <==> a == b
  {
    && a.responseType == b.responseType
    && a.status == b.status
    && a.actions == b.actions
    && a.actionErrors == b.actionErrors
    && a.observation == b.observation
    && a.playerResults == b.playerResults
    && a.chat == b.chat
  }
}
