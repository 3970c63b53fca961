/**
  The per-lead action handlers of the lead list (LeadList.js): rescore, generate message and
  add interaction, the modal and draft-input events that feed them, and the pure badge
  mappers. The component's state is a set of maps keyed by lead id (draft weights, draft
  interactions, loading flags) plus the ids of the open modals and the notification.

  Each handler runs to completion in one step: the network's answer is a parameter
  (`Response`), so a handler is a guarded sequence of state updates with a success path and
  a failure path. The dashboard's lead collection (owned by App.js and updated through the
  `onUpdateLead*` callbacks, which App.js always supplies) is the field `leads`.
*/
module LeadList {
  import opened Common
  import opened LeadRecord
  import opened StageLabels
  import App

  /** The weights typed into the rescore modal; `{}` has all three Undefined. */
  datatype Weights = Weights(budget: JsNum, industry: JsNum, needs: JsNum)

  const NoWeights := Weights(Undefined, Undefined, Undefined)

  datatype WeightKind = BudgetWeight | IndustryWeight | NeedsWeight

  /** The interaction typed into the interaction modal; `{}` has both fields empty. */
  datatype Draft = Draft(message: string, direction: string)

  const EmptyDraft := Draft("", "")

  /** A request the list sent to the backend (the interaction's timestamp is not modelled). */
  datatype Request =
    | ScoreRequest(leadId: int, weights: Weights)
    | MessageRequest(leadId: int)
    | InteractionRequest(leadId: int, message: string, direction: string)

  /** The answer to a request: the parsed body of a 2xx response, or a failure (network
      error, non-2xx status, or a body that does not parse). */
  datatype Response<T> = Ok(body: T) | Failed

  /** The whole state of the component, and of the lead collection it updates. */
  datatype ViewState = ViewState(
    leads: seq<Lead>,
    rescoreWeights: map<int, Weights>,
    showRescoreModal: Option<int>,
    rescoreLoading: map<int, bool>,
    messageLoading: map<int, bool>,
    showInteractionModal: Option<int>,
    interactionLoading: map<int, bool>,
    interactionData: map<int, Draft>,
    showSuccessNotification: bool,
    successMessage: string,
    requests: seq<Request>)

  /** The state right after mounting: every map `{}`, no modal, no notification. */
  function Initial(leads: seq<Lead>): ViewState
  {
    ViewState(leads, map[], None, map[], map[], None, map[], map[], false, "", [])
  }

  /** `m[key]` where a missing key reads as `undefined`. */
  function Lookup<V>(m: map<int, V>, key: int): Option<V>
  {
    if key in m then Some(m[key]) else None
  }

  /** A loading flag: a missing key reads as `undefined`, which is falsy. */
  predicate Flag(m: map<int, bool>, key: int)
  {
    key in m && m[key]
  }

  /** No flow is in flight: every loading flag that was ever set is back to false. */
  predicate Idle(s: ViewState)
  {
    AllClear(s.rescoreLoading) && AllClear(s.messageLoading) && AllClear(s.interactionLoading)
  }

  /** No flag of the map is set. */
  predicate AllClear(m: map<int, bool>)
  {
    forall k :: k in m ==> !m[k]
  }

  /** Resetting one flag keeps a cleared map cleared. */
  lemma ClearKeepsAllClear(m: map<int, bool>, key: int)
    requires AllClear(m)
    ensures AllClear(m[key := false])
  {
  }

  // ----- gates -----

  /** The rescore gate: some weights were typed and at least one of them is truthy
      (0, NaN and a never-typed weight are all falsy). */
  predicate RescoreReady(w: Option<Weights>)
  {
    w.Some? && (Truthy(w.value.budget) || Truthy(w.value.industry) || Truthy(w.value.needs))
  }

  /** The interaction gate: both the message and the direction are non-empty. */
  predicate InteractionReady(d: Option<Draft>)
  {
    d.Some? && d.value.message != "" && d.value.direction != ""
  }

  /** The Apply button's `disabled` expression, as the markup writes it. */
  predicate ApplyDisabled(s: ViewState, leadId: int)
  {
    !(leadId in s.rescoreWeights)
    || (!Truthy(s.rescoreWeights[leadId].budget) && !Truthy(s.rescoreWeights[leadId].industry)
        && !Truthy(s.rescoreWeights[leadId].needs))
    || Flag(s.rescoreLoading, leadId)
  }

  /** The Submit button's `disabled` expression, as the markup writes it. */
  predicate SubmitDisabled(s: ViewState, leadId: int)
  {
    !(leadId in s.interactionData) || s.interactionData[leadId].message == ""
    || s.interactionData[leadId].direction == "" || Flag(s.interactionLoading, leadId)
  }

  /** The Apply button is disabled exactly when the handler's own gate would stop it, or
      while a rescore of that lead is in flight. */
  lemma ApplyDisabledMatchesGate(s: ViewState, leadId: int)
    ensures ApplyDisabled(s, leadId)
      <==> !RescoreReady(Lookup(s.rescoreWeights, leadId)) || Flag(s.rescoreLoading, leadId)
  {
  }

  /** The Submit button is disabled exactly when the handler's own gate would stop it, or
      while an interaction for that lead is in flight. */
  lemma SubmitDisabledMatchesGate(s: ViewState, leadId: int)
    ensures SubmitDisabled(s, leadId)
      <==> !InteractionReady(Lookup(s.interactionData, leadId)) || Flag(s.interactionLoading, leadId)
  {
  }

  // ----- the client-side stage rule and the notification -----

  const Outbound := "outbound"
  const Inbound := "inbound"

  /** `interaction.direction === 'outbound' ? 'reached_out' : 'response_received'` */
  function NewStageFor(direction: string): (stage: string)
    ensures IsKnownStage(stage)
    ensures stage == ReachedOut <==> direction == Outbound
    ensures stage == ResponseReceived <==> direction != Outbound
  {
    if direction == Outbound then ReachedOut else ResponseReceived
  }

  const NoticePrefix := "Interaction added! Lead stage updated to "

  /** The success notification's text for a stage. */
  function InteractionNotice(stage: string): string
  {
    NoticePrefix + FormatStageLabel(stage)
  }

  // ----- the three handlers as state transitions -----

  /** The part of `handleRescore` before the request: the modal closes, the lead's flag is
      set and the weights are sent. */
  function SendRescore(s: ViewState, leadId: int, weights: Weights): ViewState
  {
    s.(showRescoreModal := None,
       rescoreLoading := s.rescoreLoading[leadId := true],
       requests := s.requests + [ScoreRequest(leadId, weights)])
  }

  /** A successful rescore reply: the score is patched when the reply carries one, and the
      lead's weights are reset to `{}`. */
  function RescoreSucceeded(s: ViewState, leadId: int, score: JsNum): ViewState
  {
    s.(leads := if score != Undefined then App.UpdateLeadScore(s.leads, leadId, score) else s.leads,
       rescoreWeights := s.rescoreWeights[leadId := NoWeights])
  }

  /** `handleRescore(leadId)` answered by `outcome` (the reply's `score`, `Undefined` when
      the reply has none). The flag is finally reset from the map as it was when the
      handler started. */
  function RescoreStep(s: ViewState, leadId: int, outcome: Response<JsNum>): ViewState
  {
    var weights := Lookup(s.rescoreWeights, leadId);
    if !RescoreReady(weights) then s
    else
      var sent := SendRescore(s, leadId, weights.value);
      var answered := if outcome.Ok? then RescoreSucceeded(sent, leadId, outcome.body) else sent;
      answered.(rescoreLoading := s.rescoreLoading[leadId := false])
  }

  /** The part of `handleGenerateMessage` before the request. */
  function SendMessageRequest(s: ViewState, leadId: int): ViewState
  {
    s.(messageLoading := s.messageLoading[leadId := true],
       requests := s.requests + [MessageRequest(leadId)])
  }

  /** A successful message reply: the message is stored only when it is not empty. */
  function MessageReceived(s: ViewState, leadId: int, message: string): ViewState
  {
    if message != "" then s.(leads := App.UpdateLeadMessage(s.leads, leadId, message)) else s
  }

  /** `handleGenerateMessage(leadId)` answered by `outcome` (the reply's `message`, empty
      when the reply has none). */
  function GenerateMessageStep(s: ViewState, leadId: int, outcome: Response<string>): ViewState
  {
    var sent := SendMessageRequest(s, leadId);
    var answered := if outcome.Ok? then MessageReceived(sent, leadId, outcome.body) else sent;
    answered.(messageLoading := s.messageLoading[leadId := false])
  }

  /** The part of `handleAddInteraction` before the request. */
  function SendInteraction(s: ViewState, leadId: int, d: Draft): ViewState
  {
    s.(showInteractionModal := None,
       interactionLoading := s.interactionLoading[leadId := true],
       requests := s.requests + [InteractionRequest(leadId, d.message, d.direction)])
  }

  /** A successful interaction reply: the draft is cleared, the lead's stage follows the
      direction, and the notification is shown. */
  function InteractionSucceeded(s: ViewState, leadId: int, d: Draft): ViewState
  {
    var stage := NewStageFor(d.direction);
    s.(interactionData := s.interactionData[leadId := EmptyDraft],
       leads := App.UpdateLeadStage(s.leads, leadId, stage),
       successMessage := InteractionNotice(stage),
       showSuccessNotification := true)
  }

  /** `handleAddInteraction(leadId)` answered by `outcome` (the reply's body is not used). */
  function AddInteractionStep(s: ViewState, leadId: int, outcome: Response<()>): ViewState
  {
    var draft := Lookup(s.interactionData, leadId);
    if !InteractionReady(draft) then s
    else
      var sent := SendInteraction(s, leadId, draft.value);
      var answered := if outcome.Ok? then InteractionSucceeded(sent, leadId, draft.value) else sent;
      answered.(interactionLoading := s.interactionLoading[leadId := false])
  }

  // ----- properties of the handlers -----

  /** Without a truthy weight the rescore handler returns at once: no request, the modal
      stays as it is, nothing changes. */
  lemma RescoreBlockedChangesNothing(s: ViewState, leadId: int, outcome: Response<JsNum>)
    requires !RescoreReady(Lookup(s.rescoreWeights, leadId))
    ensures RescoreStep(s, leadId, outcome) == s
  {
  }

  /** Once the gate passes: the modal is closed and one score request is sent whatever the
      answer, and the lead's rescore flag ends false. On success with a score, that lead's
      score becomes exactly the returned value and nothing else of any lead changes; a
      success without a score leaves the leads as they were; on any success the lead's
      weights are cleared. On failure the leads and the weights are kept. The other flags,
      the drafts and the notification are never touched. */
  lemma RescoreOutcome(s: ViewState, leadId: int, outcome: Response<JsNum>)
    requires RescoreReady(Lookup(s.rescoreWeights, leadId))
    ensures var t := RescoreStep(s, leadId, outcome);
      && t.showRescoreModal == None
      && t.requests == s.requests + [ScoreRequest(leadId, s.rescoreWeights[leadId])]
      && t.rescoreLoading == s.rescoreLoading[leadId := false]
      && (outcome.Ok? ==> t.rescoreWeights == s.rescoreWeights[leadId := NoWeights])
      && (outcome.Ok? && outcome.body != Undefined ==>
            |t.leads| == |s.leads|
            && forall i :: 0 <= i < |s.leads| ==>
                 t.leads[i] == if s.leads[i].id == leadId then s.leads[i].(score := outcome.body) else s.leads[i])
      && (outcome.Ok? && outcome.body == Undefined ==> t.leads == s.leads)
      && (outcome.Failed? ==> t.leads == s.leads && t.rescoreWeights == s.rescoreWeights)
      && t.messageLoading == s.messageLoading && t.interactionLoading == s.interactionLoading
      && t.interactionData == s.interactionData && t.showInteractionModal == s.showInteractionModal
      && t.showSuccessNotification == s.showSuccessNotification && t.successMessage == s.successMessage
  {
  }

  /** A successful rescore clears the weights, so pressing Apply again does nothing until
      new weights are typed; after a failure the same weights can be applied again. */
  lemma RescoreRetry(s: ViewState, leadId: int, first: Response<JsNum>, second: Response<JsNum>)
    requires RescoreReady(Lookup(s.rescoreWeights, leadId))
    ensures first.Ok? ==>
      RescoreStep(RescoreStep(s, leadId, first), leadId, second) == RescoreStep(s, leadId, first)
    ensures first.Failed? ==>
      RescoreReady(Lookup(RescoreStep(s, leadId, first).rescoreWeights, leadId))
  {
  }

  /** The message is patched only when the reply is a success carrying a non-empty
      message; otherwise the leads are unchanged. The flag ends false either way, and no
      other flag, draft, modal or the notification changes. */
  lemma GenerateMessageOutcome(s: ViewState, leadId: int, outcome: Response<string>)
    ensures var t := GenerateMessageStep(s, leadId, outcome);
      && t.requests == s.requests + [MessageRequest(leadId)]
      && t.messageLoading == s.messageLoading[leadId := false]
      && (outcome.Ok? && outcome.body != "" ==> t.leads == App.UpdateLeadMessage(s.leads, leadId, outcome.body))
      && (outcome.Failed? || outcome.body == "" ==> t.leads == s.leads)
      && t.rescoreWeights == s.rescoreWeights && t.interactionData == s.interactionData
      && t.showRescoreModal == s.showRescoreModal && t.showInteractionModal == s.showInteractionModal
      && t.rescoreLoading == s.rescoreLoading && t.interactionLoading == s.interactionLoading
      && t.showSuccessNotification == s.showSuccessNotification && t.successMessage == s.successMessage
  {
  }

  /** Without both a message and a direction nothing is sent and the modal stays open. */
  lemma AddInteractionBlockedChangesNothing(s: ViewState, leadId: int, outcome: Response<()>)
    requires !InteractionReady(Lookup(s.interactionData, leadId))
    ensures AddInteractionStep(s, leadId, outcome) == s
  {
  }

  /** Once the gate passes the modal closes and one request is sent. On success the lead's
      stage becomes `reached_out` for an outbound interaction and `response_received` for
      any other, whatever it was before; the draft is cleared and the notification names
      the new stage's label. On failure no lead, draft or notification changes. The
      weights, the rescore modal and the other two flags are never touched. */
  lemma AddInteractionOutcome(s: ViewState, leadId: int, outcome: Response<()>)
    requires InteractionReady(Lookup(s.interactionData, leadId))
    ensures var t := AddInteractionStep(s, leadId, outcome);
      var d := s.interactionData[leadId];
      && t.showInteractionModal == None
      && t.requests == s.requests + [InteractionRequest(leadId, d.message, d.direction)]
      && t.interactionLoading == s.interactionLoading[leadId := false]
      && (outcome.Ok? ==>
            && (forall i :: 0 <= i < |s.leads| && s.leads[i].id == leadId ==>
                  t.leads[i].stage == (if d.direction == Outbound then ReachedOut else ResponseReceived))
            && t.leads == App.UpdateLeadStage(s.leads, leadId, NewStageFor(d.direction))
            && t.interactionData == s.interactionData[leadId := EmptyDraft]
            && t.showSuccessNotification
            && t.successMessage == NoticePrefix +
                 (if d.direction == Outbound then ReachedOutLabel else ResponseReceivedLabel))
      && (outcome.Failed? ==>
            t.leads == s.leads && t.interactionData == s.interactionData
            && t.showSuccessNotification == s.showSuccessNotification
            && t.successMessage == s.successMessage)
      && t.rescoreWeights == s.rescoreWeights && t.showRescoreModal == s.showRescoreModal
      && t.rescoreLoading == s.rescoreLoading && t.messageLoading == s.messageLoading
  {
  }

  /** Each handler returns the component to the idle state: no flag stays set. */
  lemma RescoreKeepsIdle(s: ViewState, leadId: int, outcome: Response<JsNum>)
    requires Idle(s)
    ensures Idle(RescoreStep(s, leadId, outcome))
  {
    if RescoreReady(Lookup(s.rescoreWeights, leadId)) {
      assert RescoreStep(s, leadId, outcome).rescoreLoading == s.rescoreLoading[leadId := false];
      ClearKeepsAllClear(s.rescoreLoading, leadId);
    }
  }

  lemma GenerateMessageKeepsIdle(s: ViewState, leadId: int, outcome: Response<string>)
    requires Idle(s)
    ensures Idle(GenerateMessageStep(s, leadId, outcome))
  {
    assert GenerateMessageStep(s, leadId, outcome).messageLoading == s.messageLoading[leadId := false];
    ClearKeepsAllClear(s.messageLoading, leadId);
  }

  lemma AddInteractionKeepsIdle(s: ViewState, leadId: int, outcome: Response<()>)
    requires Idle(s)
    ensures Idle(AddInteractionStep(s, leadId, outcome))
  {
    if InteractionReady(Lookup(s.interactionData, leadId)) {
      assert AddInteractionStep(s, leadId, outcome).interactionLoading == s.interactionLoading[leadId := false];
      ClearKeepsAllClear(s.interactionLoading, leadId);
    }
  }

  // ----- the component -----

  /** The component. Each handler is proved equal to its transition above, so the
      properties proved of the transitions (among them that no loading flag stays set)
      hold of the component. */
  class LeadListView {
    var leads: seq<Lead>
    var rescoreWeights: map<int, Weights>
    var showRescoreModal: Option<int>
    var rescoreLoading: map<int, bool>
    var messageLoading: map<int, bool>
    var showInteractionModal: Option<int>
    var interactionLoading: map<int, bool>
    var interactionData: map<int, Draft>
    var showSuccessNotification: bool
    var successMessage: string
    var requests: seq<Request>

    function State(): ViewState
      reads this
    {
      ViewState(leads, rescoreWeights, showRescoreModal, rescoreLoading, messageLoading,
                showInteractionModal, interactionLoading, interactionData,
                showSuccessNotification, successMessage, requests)
    }

    constructor (initialLeads: seq<Lead>)
      ensures Idle(State())
      ensures State() == Initial(initialLeads)
    {
      leads := initialLeads;
      rescoreWeights := map[];
      showRescoreModal := None;
      rescoreLoading := map[];
      messageLoading := map[];
      showInteractionModal := None;
      interactionLoading := map[];
      interactionData := map[];
      showSuccessNotification := false;
      successMessage := "";
      requests := [];
    }

    /** `handleRescore(leadId)`. The flag is reset from the snapshot taken when the
        handler started, as the closure in the source does. */
    method HandleRescore(leadId: int, outcome: Response<JsNum>)
      modifies this
      ensures State() == RescoreStep(old(State()), leadId, outcome)
    {
      var weights := Lookup(rescoreWeights, leadId);
      if !RescoreReady(weights) {
        return;
      }
      var loadingSnapshot := rescoreLoading;
      BeginRescore(leadId, weights.value);
      match outcome {
        case Ok(score) => FinishRescore(leadId, score);
        case Failed =>
      }
      rescoreLoading := loadingSnapshot[leadId := false];
    }

    method BeginRescore(leadId: int, weights: Weights)
      modifies this
      ensures State() == SendRescore(old(State()), leadId, weights)
    {
      showRescoreModal := None;
      rescoreLoading := rescoreLoading[leadId := true];
      requests := requests + [ScoreRequest(leadId, weights)];
    }

    method FinishRescore(leadId: int, score: JsNum)
      modifies this
      ensures State() == RescoreSucceeded(old(State()), leadId, score)
    {
      if score != Undefined {
        leads := App.UpdateLeadScore(leads, leadId, score);
      }
      rescoreWeights := rescoreWeights[leadId := NoWeights];
    }

    /** `handleGenerateMessage(leadId)`. */
    method HandleGenerateMessage(leadId: int, outcome: Response<string>)
      modifies this
      ensures State() == GenerateMessageStep(old(State()), leadId, outcome)
    {
      var loadingSnapshot := messageLoading;
      messageLoading := loadingSnapshot[leadId := true];
      requests := requests + [MessageRequest(leadId)];
      match outcome {
        case Ok(message) =>
          if message != "" {
            leads := App.UpdateLeadMessage(leads, leadId, message);
          }
        case Failed =>
      }
      messageLoading := loadingSnapshot[leadId := false];
    }

    /** `handleAddInteraction(leadId)`. */
    method HandleAddInteraction(leadId: int, outcome: Response<()>)
      modifies this
      ensures State() == AddInteractionStep(old(State()), leadId, outcome)
    {
      var draft := Lookup(interactionData, leadId);
      if !InteractionReady(draft) {
        return;
      }
      var loadingSnapshot := interactionLoading;
      BeginInteraction(leadId, draft.value);
      match outcome {
        case Ok(_) => FinishInteraction(leadId, draft.value);
        case Failed =>
      }
      interactionLoading := loadingSnapshot[leadId := false];
    }

    method BeginInteraction(leadId: int, d: Draft)
      modifies this
      ensures State() == SendInteraction(old(State()), leadId, d)
    {
      showInteractionModal := None;
      interactionLoading := interactionLoading[leadId := true];
      requests := requests + [InteractionRequest(leadId, d.message, d.direction)];
    }

    method FinishInteraction(leadId: int, d: Draft)
      modifies this
      ensures State() == InteractionSucceeded(old(State()), leadId, d)
    {
      interactionData := interactionData[leadId := EmptyDraft];
      var stage := NewStageFor(d.direction);
      leads := App.UpdateLeadStage(leads, leadId, stage);
      successMessage := InteractionNotice(stage);
      showSuccessNotification := true;
    }

    /** The Rescore button: open the weights modal for this lead. */
    method OpenRescoreModal(leadId: int)
      modifies this
      ensures State() == old(State()).(showRescoreModal := Some(leadId))
    {
      showRescoreModal := Some(leadId);
    }

    /** The weights modal's Cancel button. */
    method CloseRescoreModal()
      modifies this
      ensures State() == old(State()).(showRescoreModal := None)
    {
      showRescoreModal := None;
    }

    /** Typing a weight: `{...rescoreWeights, [id]: {...rescoreWeights[id], <kind>: value}}`,
        where the lead's earlier weights (or `{}`) are kept and one of them is replaced. */
    method SetWeight(leadId: int, kind: WeightKind, value: JsNum)
      modifies this
      ensures var w := match Lookup(old(rescoreWeights), leadId) case Some(w) => w case None => NoWeights;
        State() == old(State()).(rescoreWeights := old(rescoreWeights)[leadId :=
          match kind
          case BudgetWeight => w.(budget := value)
          case IndustryWeight => w.(industry := value)
          case NeedsWeight => w.(needs := value)])
    {
      var w := match Lookup(rescoreWeights, leadId) case Some(w) => w case None => NoWeights;
      var updated := match kind
        case BudgetWeight => w.(budget := value)
        case IndustryWeight => w.(industry := value)
        case NeedsWeight => w.(needs := value);
      rescoreWeights := rescoreWeights[leadId := updated];
    }

    /** The Add Interaction button: open the interaction modal for this lead. */
    method OpenInteractionModal(leadId: int)
      modifies this
      ensures State() == old(State()).(showInteractionModal := Some(leadId))
    {
      showInteractionModal := Some(leadId);
    }

    /** The interaction modal's Cancel button. */
    method CloseInteractionModal()
      modifies this
      ensures State() == old(State()).(showInteractionModal := None)
    {
      showInteractionModal := None;
    }

    /** Typing the interaction message (the direction typed so far is kept). */
    method SetDraftMessage(leadId: int, message: string)
      modifies this
      ensures var d := match Lookup(old(interactionData), leadId) case Some(d) => d case None => EmptyDraft;
        State() == old(State()).(interactionData := old(interactionData)[leadId := d.(message := message)])
    {
      var d := match Lookup(interactionData, leadId) case Some(d) => d case None => EmptyDraft;
      interactionData := interactionData[leadId := d.(message := message)];
    }

    /** Choosing the interaction direction (the message typed so far is kept). */
    method SetDraftDirection(leadId: int, direction: string)
      modifies this
      ensures var d := match Lookup(old(interactionData), leadId) case Some(d) => d case None => EmptyDraft;
        State() == old(State()).(interactionData := old(interactionData)[leadId := d.(direction := direction)])
    {
      var d := match Lookup(interactionData, leadId) case Some(d) => d case None => EmptyDraft;
      interactionData := interactionData[leadId := d.(direction := direction)];
    }

    /** The timer callback that hides the notification (the delay itself is not modelled). */
    method DismissNotification()
      modifies this
      ensures State() == old(State()).(showSuccessNotification := false)
    {
      showSuccessNotification := false;
    }
  }

  /** An interaction with only one of its two fields filled is never sent: typing a
      message alone leaves Submit disabled and the handler inert. */
  lemma MessageAloneIsNotSent(s: ViewState, leadId: int, message: string, outcome: Response<()>)
    requires leadId !in s.interactionData
    ensures var t := s.(interactionData := s.interactionData[leadId := EmptyDraft.(message := message)]);
      SubmitDisabled(t, leadId) && AddInteractionStep(t, leadId, outcome) == t
  {
  }

  // ----- pure badge mappers -----

  const ScoreHighColor := "text-green-600 bg-green-100"
  const ScoreMidColor := "text-yellow-600 bg-yellow-100"
  const ScoreLowColor := "text-red-600 bg-red-100"

  /** `getScoreColor(score)`: green from 8 up, yellow from 6 up, red otherwise. A missing,
      null or NaN score compares false against both thresholds and is red. */
  function GetScoreColor(score: JsNum): (color: string)
    ensures color == ScoreHighColor <==> score.Num? && score.value >= 8.0
    ensures color == ScoreMidColor <==> score.Num? && 6.0 <= score.value < 8.0
    ensures color == ScoreLowColor <==> !(score.Num? && score.value >= 6.0)
  {
    assert ScoreHighColor[5] != ScoreMidColor[5] && ScoreHighColor[5] != ScoreLowColor[5]
      && ScoreMidColor[5] != ScoreLowColor[5];
    if score.Num? && score.value >= 8.0 then ScoreHighColor
    else if score.Num? && score.value >= 6.0 then ScoreMidColor
    else ScoreLowColor
  }

  /** A higher score never gets a worse colour. */
  lemma ScoreColorMonotone(a: real, b: real)
    requires a <= b
    ensures GetScoreColor(Num(a)) == ScoreHighColor ==> GetScoreColor(Num(b)) == ScoreHighColor
    ensures GetScoreColor(Num(b)) == ScoreLowColor ==> GetScoreColor(Num(a)) == ScoreLowColor
  {
  }

  const NoStageText := "Prospect"

  /** The stage badge's text: `formatStageLabel(lead.stage) || 'Prospect'`. */
  function StageBadgeText(stage: string): (text: string)
    ensures stage == "" ==> text == NoStageText
    ensures stage != "" ==> text == FormatStageLabel(stage)
  {
    FormatStageLabelEmptyIff(stage);
    var shown := FormatStageLabel(stage);
    if shown != "" then shown else NoStageText
  }
}
