/**
  The stage an interaction moves a lead to is decided twice: by the list on the client
  (LeadList.js, on a successful reply) and by `add_interaction` on the server (db.py). The
  endpoint between them (main.py) turns any exception into a 500 reply, which the client
  treats as a failure. This module proves the two rules never drift apart.
*/
module Reconciliation {
  import opened Common
  import opened StageLabels
  import LeadRecord
  import LeadList
  import Db

  /** The reply the add-interaction endpoint sends for the server's outcome. */
  function Reply(s: Db.Step<int>): LeadList.Response<()>
  {
    if s.result.Ok? then LeadList.Ok(()) else LeadList.Failed
  }

  /** The client's copy of the leads shows the same stage as the table, row for row. */
  predicate StagesInSync(client: seq<LeadRecord.Lead>, server: seq<Db.LeadRow>)
  {
    |client| == |server|
    && forall i :: 0 <= i < |client| ==> client[i].id == server[i].id && client[i].stage == server[i].stage
  }

  /** On every direction the server accepts, the client picks the same stage. */
  lemma StageRulesAgree(direction: string)
    requires Db.IsDirection(direction)
    ensures LeadList.NewStageFor(direction) == Db.StageForDirection(direction)
  {
  }

  /** The server accepts exactly the two directions the client's rule distinguishes; any
      other text, which the client would file as a response, is refused. */
  lemma ServerRefusesOtherDirections(t: Db.Tables, leadId: int, x: Db.NewInteraction)
    ensures Db.AddInteractionStep(t, leadId, x).result.Ok? <==> Db.IsDirection(x.direction)
    ensures !Db.IsDirection(x.direction) ==> LeadList.NewStageFor(x.direction) == ResponseReceived
  {
  }

  /** Submitting an interaction keeps the client's stages equal to the table's, whatever
      direction was chosen: an accepted interaction moves both to the same stage, and a
      refused one changes neither. */
  lemma InteractionKeepsStagesInSync(s: LeadList.ViewState, t: Db.Tables, leadId: int)
    requires LeadList.InteractionReady(LeadList.Lookup(s.interactionData, leadId))
    requires StagesInSync(s.leads, t.leads)
    ensures var d := s.interactionData[leadId];
      var server := Db.AddInteractionStep(t, leadId, Db.NewInteraction(d.message, d.direction));
      StagesInSync(LeadList.AddInteractionStep(s, leadId, Reply(server)).leads, server.after.leads)
  {
    var d := s.interactionData[leadId];
    var x := Db.NewInteraction(d.message, d.direction);
    var server := Db.AddInteractionStep(t, leadId, x);
    LeadList.AddInteractionOutcome(s, leadId, Reply(server));
    if Db.IsDirection(d.direction) {
      Db.AddInteractionMovesStage(t, leadId, x);
      StageRulesAgree(d.direction);
    }
  }
}
