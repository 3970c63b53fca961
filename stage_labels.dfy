/**
  The pipeline stages and the two pure mappers the views use to display them:
  `formatStageLabel` (identical copies in App.js, LeadList.js and MessageGenerator.js) and
  `getStageColor` (LeadList.js).
*/
module StageLabels {

  const PotentialLead := "potential_lead"
  const ReachedOut := "reached_out"
  const ResponseReceived := "response_received"

  /** The three values the `leads.stage` column admits. */
  predicate IsKnownStage(stage: string)
  {
    stage == PotentialLead || stage == ReachedOut || stage == ResponseReceived
  }

  const PotentialLeadLabel := "Potential Lead"
  const ReachedOutLabel := "Reached Out"
  const ResponseReceivedLabel := "Response Received"

  /** The human-readable label of a stage; any other text is shown as it is. */
  function FormatStageLabel(stage: string): (shown: string)
    ensures stage == PotentialLead ==> shown == PotentialLeadLabel
    ensures stage == ReachedOut ==> shown == ReachedOutLabel
    ensures stage == ResponseReceived ==> shown == ResponseReceivedLabel
    ensures !IsKnownStage(stage) ==> shown == stage
  {
    if stage == PotentialLead then PotentialLeadLabel
    else if stage == ReachedOut then ReachedOutLabel
    else if stage == ResponseReceived then ResponseReceivedLabel
    else stage
  }

  /** A label is never itself a stage name, so formatting twice changes nothing. */
  lemma FormatStageLabelIdempotent(stage: string)
    ensures FormatStageLabel(FormatStageLabel(stage)) == FormatStageLabel(stage)
  {
    if IsKnownStage(stage) {
      assert !IsKnownStage(FormatStageLabel(stage)) by {
        var l := FormatStageLabel(stage);
        assert l[0] != PotentialLead[0] && l[0] != ReachedOut[0] && l[0] != ResponseReceived[0];
      }
    }
  }

  /** The label of a stage is empty exactly when the stage is, so `label || 'Prospect'`
      falls back only for a missing stage. */
  lemma FormatStageLabelEmptyIff(stage: string)
    ensures FormatStageLabel(stage) == "" <==> stage == ""
  {
  }

  /** The mapper is not injective: a stored value that already reads like a label is
      displayed exactly like the stage it resembles. */
  lemma FormatStageLabelCollides()
    ensures FormatStageLabel(PotentialLeadLabel) == FormatStageLabel(PotentialLead)
    ensures PotentialLeadLabel != PotentialLead
  {
    assert PotentialLeadLabel[0] != PotentialLead[0];
  }

  const PotentialLeadColor := "bg-yellow-100 text-yellow-800"
  const ReachedOutColor := "bg-blue-100 text-blue-800"
  const ResponseReceivedColor := "bg-green-100 text-green-800"
  const OtherStageColor := "bg-gray-100 text-gray-800"

  /** The badge colour of a stage: one per known stage, gray for anything else. */
  function GetStageColor(stage: string): (color: string)
    ensures stage == PotentialLead ==> color == PotentialLeadColor
    ensures stage == ReachedOut ==> color == ReachedOutColor
    ensures stage == ResponseReceived ==> color == ResponseReceivedColor
    ensures !IsKnownStage(stage) ==> color == OtherStageColor
  {
    if stage == PotentialLead then PotentialLeadColor
    else if stage == ReachedOut then ReachedOutColor
    else if stage == ResponseReceived then ResponseReceivedColor
    else OtherStageColor
  }

  /** The two mappers agree on which values are stages: a value gets the gray badge
      exactly when its label is the value itself. */
  lemma StageColorGrayIffLabelVerbatim(stage: string)
    ensures GetStageColor(stage) == OtherStageColor <==> !IsKnownStage(stage)
    ensures !IsKnownStage(stage) <==> FormatStageLabel(stage) == stage
  {
    assert PotentialLeadLabel[0] != PotentialLead[0];
    assert ReachedOutLabel[0] != ReachedOut[0];
    assert ResponseReceivedLabel[0] != ResponseReceived[0];
    assert OtherStageColor[5] != PotentialLeadColor[5];
    assert OtherStageColor[5] != ReachedOutColor[5];
    assert OtherStageColor[5] != ResponseReceivedColor[5];
  }
}
