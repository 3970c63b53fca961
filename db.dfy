/**
  The backend's two tables and the four operations on them (db.py): inserting a lead,
  recording an interaction and moving the lead's stage, updating named columns of one lead,
  and reading the leads.

  The tables are sequences of rows in insertion order; AUTOINCREMENT is a counter per table
  holding the next id to issue. The schema's constraints are the table invariant: ids
  ascending and below the counter, every stage one of the three stage values, no two leads
  with the same (name, company), every interaction direction `inbound` or `outbound`.
  A statement that would break a constraint raises, and since the operation then returns
  without committing, the whole operation leaves the tables as they were.
*/
module Db {
  import opened Common
  import opened StageLabels

  datatype LeadRow = LeadRow(
    id: int,
    name: string,
    company: string,
    industry: string,
    budget: real,
    needs: string,
    score: real,
    stage: string,
    lastMessage: Option<string>,
    interactionLog: Option<string>)

  /** The lead passed to `add_lead`; its `stage` is not stored. */
  datatype NewLead = NewLead(name: string, company: string, industry: string, budget: real,
                             needs: string, stage: string)

  datatype InteractionRow = InteractionRow(id: int, leadId: int, message: string, direction: string)

  /** The interaction passed to `add_interaction` (its timestamp is not modelled). */
  datatype NewInteraction = NewInteraction(message: string, direction: string)

  /** The `sqlite3` exceptions the operations can raise. */
  datatype DbError = IntegrityError | OperationalError

  /** One `key: value` entry of the `updates` dictionary of `update_lead`. */
  datatype Assignment =
    | SetName(name: string)
    | SetCompany(company: string)
    | SetIndustry(industry: string)
    | SetBudget(budget: real)
    | SetNeeds(needs: string)
    | SetScore(score: real)
    | SetStage(stage: string)
    | SetLastMessage(lastMessage: Option<string>)
    | SetInteractionLog(interactionLog: Option<string>)
    | SetUnknownColumn(column: string)

  datatype Tables = Tables(
    leads: seq<LeadRow>,
    interactions: seq<InteractionRow>,
    nextLeadId: int,
    nextInteractionId: int)

  /** What an operation returns or raises, and the tables after it. */
  datatype Step<T> = Step(result: Result<T, DbError>, after: Tables)

  const Inbound := "inbound"
  const Outbound := "outbound"

  /** `CHECK(direction IN ('inbound', 'outbound'))` */
  predicate IsDirection(direction: string)
  {
    direction == Inbound || direction == Outbound
  }

  // ----- the table invariant -----

  predicate LeadIdsValid(rows: seq<LeadRow>, next: int)
  {
    && (forall i :: 0 <= i < |rows| ==> 1 <= rows[i].id < next)
    && (forall i, j :: 0 <= i < j < |rows| ==> rows[i].id < rows[j].id)
  }

  /** `CHECK(stage IN (...))` on every row. */
  predicate StagesKnown(rows: seq<LeadRow>)
  {
    forall i :: 0 <= i < |rows| ==> IsKnownStage(rows[i].stage)
  }

  predicate SamePair(a: LeadRow, b: LeadRow)
  {
    a.name == b.name && a.company == b.company
  }

  /** `UNIQUE(name, company)` */
  predicate PairsUnique(rows: seq<LeadRow>)
  {
    forall i, j :: 0 <= i < j < |rows| ==> !SamePair(rows[i], rows[j])
  }

  predicate InteractionsValid(rows: seq<InteractionRow>, next: int)
  {
    && (forall i :: 0 <= i < |rows| ==> 1 <= rows[i].id < next && IsDirection(rows[i].direction))
    && (forall i, j :: 0 <= i < j < |rows| ==> rows[i].id < rows[j].id)
  }

  predicate TablesValid(t: Tables)
  {
    t.nextLeadId >= 1 && t.nextInteractionId >= 1
    && LeadIdsValid(t.leads, t.nextLeadId) && StagesKnown(t.leads) && PairsUnique(t.leads)
    && InteractionsValid(t.interactions, t.nextInteractionId)
  }

  /** The freshly created tables. */
  const EmptyTables := Tables([], [], 1, 1)

  // ----- add_lead -----

  predicate PairTaken(rows: seq<LeadRow>, name: string, company: string)
  {
    exists i :: 0 <= i < |rows| && rows[i].name == name && rows[i].company == company
  }

  /** The row `add_lead` inserts: score 0, stage `potential_lead`, no message, no log. */
  function InsertedRow(id: int, lead: NewLead): LeadRow
  {
    LeadRow(id, lead.name, lead.company, lead.industry, lead.budget, lead.needs, 0.0, PotentialLead, None, None)
  }

  function AddLeadStep(t: Tables, lead: NewLead): Step<int>
  {
    if PairTaken(t.leads, lead.name, lead.company) then Step(Err(IntegrityError), t)
    else Step(Ok(t.nextLeadId),
              t.(leads := t.leads + [InsertedRow(t.nextLeadId, lead)], nextLeadId := t.nextLeadId + 1))
  }

  /** A (name, company) pair already present is rejected and nothing is stored. */
  lemma AddLeadDuplicateRejected(t: Tables, lead: NewLead, i: int)
    requires 0 <= i < |t.leads| && t.leads[i].name == lead.name && t.leads[i].company == lead.company
    ensures AddLeadStep(t, lead) == Step(Err(IntegrityError), t)
  {
  }

  /** A new pair is stored as one new last row with score 0 and stage `potential_lead`,
      whatever stage the caller gave, under an id greater than every id in the table. */
  lemma AddLeadInserts(t: Tables, lead: NewLead)
    requires TablesValid(t)
    requires !PairTaken(t.leads, lead.name, lead.company)
    ensures var s := AddLeadStep(t, lead);
      && s.result.Ok?
      && s.result.value >= 1
      && (forall i :: 0 <= i < |t.leads| ==> t.leads[i].id < s.result.value)
      && s.after.leads[..|t.leads|] == t.leads
      && |s.after.leads| == |t.leads| + 1
      && s.after.interactions == t.interactions
      && (var row := s.after.leads[|t.leads|];
          row.id == s.result.value && row.name == lead.name && row.company == lead.company
          && row.industry == lead.industry && row.budget == lead.budget && row.needs == lead.needs
          && row.score == 0.0 && row.stage == PotentialLead
          && row.lastMessage == None && row.interactionLog == None)
  {
    var s := AddLeadStep(t, lead);
    assert s.after.leads[..|t.leads|] == t.leads;
  }

  /** `add_lead` keeps the table invariant. */
  lemma AddLeadKeepsValid(t: Tables, lead: NewLead)
    requires TablesValid(t)
    ensures TablesValid(AddLeadStep(t, lead).after)
  {
    if !PairTaken(t.leads, lead.name, lead.company) {
      var rows := AddLeadStep(t, lead).after.leads;
      forall i, j | 0 <= i < j < |rows|
        ensures !SamePair(rows[i], rows[j])
      {
        if j == |t.leads| {
          assert rows[i] == t.leads[i];
        } else {
          assert rows[i] == t.leads[i] && rows[j] == t.leads[j];
        }
      }
    }
  }

  /** Ids are never reused: two successful inserts issue increasing ids. */
  lemma AddLeadIdsIncrease(t: Tables, a: NewLead, b: NewLead)
    requires AddLeadStep(t, a).result.Ok?
    requires AddLeadStep(AddLeadStep(t, a).after, b).result.Ok?
    ensures AddLeadStep(t, a).result.value < AddLeadStep(AddLeadStep(t, a).after, b).result.value
  {
  }

  // ----- add_interaction -----

  /** The stage an interaction of a valid direction moves its lead to. */
  function StageForDirection(direction: string): (stage: string)
    requires IsDirection(direction)
    ensures IsKnownStage(stage)
    ensures stage == ReachedOut <==> direction == Outbound
    ensures stage == ResponseReceived <==> direction == Inbound
  {
    if direction == Outbound then ReachedOut else ResponseReceived
  }

  /** `UPDATE leads SET stage = ? WHERE id = ?` */
  function SetStageWhere(rows: seq<LeadRow>, leadId: int, stage: string): (r: seq<LeadRow>)
    ensures |r| == |rows|
    ensures forall i :: 0 <= i < |rows| ==>
      r[i] == if rows[i].id == leadId then rows[i].(stage := stage) else rows[i]
  {
    if rows == [] then []
    else [if rows[0].id == leadId then rows[0].(stage := stage) else rows[0]]
         + SetStageWhere(rows[1..], leadId, stage)
  }

  /** The INSERT fails the direction CHECK before the stage is chosen, so an invalid
      direction raises `IntegrityError` (the `ValueError` branch is never reached). The
      lead id is not checked against the leads table. */
  function AddInteractionStep(t: Tables, leadId: int, x: NewInteraction): Step<int>
  {
    if !IsDirection(x.direction) then Step(Err(IntegrityError), t)
    else
      var row := InteractionRow(t.nextInteractionId, leadId, x.message, x.direction);
      Step(Ok(t.nextInteractionId),
           t.(interactions := t.interactions + [row],
              nextInteractionId := t.nextInteractionId + 1,
              leads := SetStageWhere(t.leads, leadId, StageForDirection(x.direction))))
  }

  /** An invalid direction is rejected and nothing is committed. */
  lemma AddInteractionRejectsDirection(t: Tables, leadId: int, x: NewInteraction)
    requires !IsDirection(x.direction)
    ensures AddInteractionStep(t, leadId, x) == Step(Err(IntegrityError), t)
  {
  }

  /** A valid interaction is stored, and only the stage of the lead with that id changes:
      to `reached_out` for `outbound`, to `response_received` for `inbound`. */
  lemma AddInteractionMovesStage(t: Tables, leadId: int, x: NewInteraction)
    requires IsDirection(x.direction)
    ensures var s := AddInteractionStep(t, leadId, x);
      && s.result == Ok(t.nextInteractionId)
      && s.after.interactions == t.interactions + [InteractionRow(t.nextInteractionId, leadId, x.message, x.direction)]
      && |s.after.leads| == |t.leads|
      && (forall i :: 0 <= i < |t.leads| && t.leads[i].id == leadId ==>
            s.after.leads[i] == t.leads[i].(stage := if x.direction == Outbound then ReachedOut else ResponseReceived))
      && (forall i :: 0 <= i < |t.leads| && t.leads[i].id != leadId ==> s.after.leads[i] == t.leads[i])
  {
  }

  /** An interaction for an id no lead has changes no lead. */
  lemma AddInteractionUnknownLead(t: Tables, leadId: int, x: NewInteraction)
    requires forall i :: 0 <= i < |t.leads| ==> t.leads[i].id != leadId
    ensures AddInteractionStep(t, leadId, x).after.leads == t.leads
  {
  }

  /** `add_interaction` keeps the table invariant. */
  lemma AddInteractionKeepsValid(t: Tables, leadId: int, x: NewInteraction)
    requires TablesValid(t)
    ensures TablesValid(AddInteractionStep(t, leadId, x).after)
  {
    if IsDirection(x.direction) {
      SetStageKeepsLeadsValid(t.leads, t.nextLeadId, leadId, StageForDirection(x.direction));
      AppendInteractionKeepsValid(t.interactions, t.nextInteractionId,
                                  InteractionRow(t.nextInteractionId, leadId, x.message, x.direction));
    }
  }

  /** Moving a lead to a valid stage keeps ids, stages and (name, company) pairs valid. */
  lemma SetStageKeepsLeadsValid(rows: seq<LeadRow>, next: int, leadId: int, stage: string)
    requires LeadIdsValid(rows, next) && StagesKnown(rows) && PairsUnique(rows)
    requires IsKnownStage(stage)
    ensures var r := SetStageWhere(rows, leadId, stage);
      LeadIdsValid(r, next) && StagesKnown(r) && PairsUnique(r)
  {
    var r := SetStageWhere(rows, leadId, stage);
    forall i | 0 <= i < |r|
      ensures r[i].id == rows[i].id && r[i].name == rows[i].name && r[i].company == rows[i].company
      ensures IsKnownStage(r[i].stage)
    {
    }
    assert LeadIdsValid(r, next);
    assert StagesKnown(r);
    assert PairsUnique(r);
  }

  /** Appending an interaction with the next id and a valid direction keeps the
      interactions table valid. */
  lemma AppendInteractionKeepsValid(rows: seq<InteractionRow>, next: int, row: InteractionRow)
    requires InteractionsValid(rows, next) && next >= 1
    requires row.id == next && IsDirection(row.direction)
    ensures InteractionsValid(rows + [row], next + 1)
  {
    var r := rows + [row];
    forall i | 0 <= i < |r|
      ensures 1 <= r[i].id < next + 1 && IsDirection(r[i].direction)
    {
      if i < |rows| {
        assert r[i] == rows[i];
      } else {
        assert r[i] == row;
      }
    }
    forall i, j | 0 <= i < j < |r|
      ensures r[i].id < r[j].id
    {
      assert r[i] == rows[i];
      if j < |rows| {
        assert r[j] == rows[j];
      }
    }
  }

  // ----- update_lead -----

  /** One column of a row set to a value (the unknown column leaves the row as it is; the
      statement fails before any row is touched). */
  function Assign(row: LeadRow, a: Assignment): LeadRow
  {
    match a
    case SetName(v) => row.(name := v)
    case SetCompany(v) => row.(company := v)
    case SetIndustry(v) => row.(industry := v)
    case SetBudget(v) => row.(budget := v)
    case SetNeeds(v) => row.(needs := v)
    case SetScore(v) => row.(score := v)
    case SetStage(v) => row.(stage := v)
    case SetLastMessage(v) => row.(lastMessage := v)
    case SetInteractionLog(v) => row.(interactionLog := v)
    case SetUnknownColumn(_) => row
  }

  /** The row after each assignment of `updates` in turn; no assignment touches the id. */
  function AssignAll(row: LeadRow, updates: seq<Assignment>): (r: LeadRow)
    ensures r.id == row.id
  {
    if updates == [] then row
    else Assign(AssignAll(row, updates[..|updates| - 1]), updates[|updates| - 1])
  }

  /** `UPDATE leads SET <column> = ? WHERE id = ?` before its constraints are checked. */
  function AssignWhere(rows: seq<LeadRow>, leadId: int, a: Assignment): (r: seq<LeadRow>)
    ensures |r| == |rows|
    ensures forall i :: 0 <= i < |rows| ==>
      r[i] == if rows[i].id == leadId then Assign(rows[i], a) else rows[i]
  {
    if rows == [] then []
    else [if rows[0].id == leadId then Assign(rows[0], a) else rows[0]] + AssignWhere(rows[1..], leadId, a)
  }

  /** One UPDATE statement: an unknown column raises `OperationalError`; a result that
      breaks the stage CHECK or the (name, company) UNIQUE constraint raises
      `IntegrityError`. */
  function UpdateOne(rows: seq<LeadRow>, leadId: int, a: Assignment): Result<seq<LeadRow>, DbError>
  {
    if a.SetUnknownColumn? then Err(OperationalError)
    else
      var r := AssignWhere(rows, leadId, a);
      if StagesKnown(r) && PairsUnique(r) then Ok(r) else Err(IntegrityError)
  }

  /** The statements of `update_lead`, one per entry, in order; the first error stops
      the loop. */
  function ApplyUpdates(rows: seq<LeadRow>, leadId: int, updates: seq<Assignment>): Result<seq<LeadRow>, DbError>
  {
    if updates == [] then Ok(rows)
    else
      match ApplyUpdates(rows, leadId, updates[..|updates| - 1])
      case Err(e) => Err(e)
      case Ok(r) => UpdateOne(r, leadId, updates[|updates| - 1])
  }

  /** Nothing is committed unless every statement succeeded. */
  function UpdateLeadStep(t: Tables, leadId: int, updates: seq<Assignment>): Step<()>
  {
    match ApplyUpdates(t.leads, leadId, updates)
    case Ok(r) => Step(Ok(()), t.(leads := r))
    case Err(e) => Step(Err(e), t)
  }

  /** Each statement only rewrites the row with that id, keeps every row's id, and keeps
      the stage CHECK and the UNIQUE constraint. */
  lemma UpdateOneFrame(rows: seq<LeadRow>, leadId: int, a: Assignment)
    requires UpdateOne(rows, leadId, a).Ok?
    ensures var r := UpdateOne(rows, leadId, a).value;
      && |r| == |rows|
      && (forall i :: 0 <= i < |rows| ==> r[i].id == rows[i].id)
      && (forall i :: 0 <= i < |rows| && rows[i].id != leadId ==> r[i] == rows[i])
      && (forall i :: 0 <= i < |rows| && rows[i].id == leadId ==> r[i] == Assign(rows[i], a))
      && StagesKnown(r) && PairsUnique(r)
  {
  }

  /** Whatever entries succeed, the row with the id has every entry's column set, in
      order, rows with another id are untouched, no row is added, removed or renumbered,
      and the constraints hold. */
  lemma {:induction false} UpdatesFrame(rows: seq<LeadRow>, leadId: int, updates: seq<Assignment>)
    requires ApplyUpdates(rows, leadId, updates).Ok?
    ensures var r := ApplyUpdates(rows, leadId, updates).value;
      && |r| == |rows|
      && (forall i :: 0 <= i < |rows| ==> r[i].id == rows[i].id)
      && (forall i :: 0 <= i < |rows| && rows[i].id == leadId ==> r[i] == AssignAll(rows[i], updates))
      && (forall i :: 0 <= i < |rows| && rows[i].id != leadId ==> r[i] == rows[i])
      && (updates != [] ==> StagesKnown(r) && PairsUnique(r))
  {
    if updates != [] {
      var init := updates[..|updates| - 1];
      UpdatesFrame(rows, leadId, init);
      UpdateOneFrame(ApplyUpdates(rows, leadId, init).value, leadId, updates[|updates| - 1]);
    }
  }

  /** `update_lead` keeps the table invariant and leaves other rows as they were; when it
      succeeds, the row with the id has every given column set, in order. */
  lemma UpdateLeadKeepsValid(t: Tables, leadId: int, updates: seq<Assignment>)
    requires TablesValid(t)
    ensures TablesValid(UpdateLeadStep(t, leadId, updates).after)
    ensures var after := UpdateLeadStep(t, leadId, updates).after;
      |after.leads| == |t.leads| && after.interactions == t.interactions
      && forall i :: 0 <= i < |t.leads| && t.leads[i].id != leadId ==> after.leads[i] == t.leads[i]
    ensures var s := UpdateLeadStep(t, leadId, updates);
      s.result.Ok? ==>
        forall i :: 0 <= i < |t.leads| && t.leads[i].id == leadId ==> s.after.leads[i] == AssignAll(t.leads[i], updates)
  {
    if ApplyUpdates(t.leads, leadId, updates).Ok? {
      UpdatesFrame(t.leads, leadId, updates);
      var r := ApplyUpdates(t.leads, leadId, updates).value;
      assert LeadIdsValid(r, t.nextLeadId) by {
        assert forall i :: 0 <= i < |r| ==> r[i].id == t.leads[i].id;
      }
    }
  }

  /** An entry naming no column of the table raises `OperationalError` and nothing is
      committed, not even the entries before it that succeeded. */
  lemma UnknownColumnRollsBack(t: Tables, leadId: int, before: seq<Assignment>, column: string, after: seq<Assignment>)
    requires ApplyUpdates(t.leads, leadId, before).Ok?
    ensures UpdateLeadStep(t, leadId, before + [SetUnknownColumn(column)] + after)
      == Step(Err(OperationalError), t)
  {
    UnknownColumnFails(t.leads, leadId, before, column, after);
  }

  lemma {:induction false} UnknownColumnFails(rows: seq<LeadRow>, leadId: int, before: seq<Assignment>, column: string, after: seq<Assignment>)
    requires ApplyUpdates(rows, leadId, before).Ok?
    ensures ApplyUpdates(rows, leadId, before + [SetUnknownColumn(column)] + after) == Err(OperationalError)
    decreases |after|
  {
    var us := before + [SetUnknownColumn(column)] + after;
    if after == [] {
      assert us[..|us| - 1] == before;
    } else {
      assert us[..|us| - 1] == before + [SetUnknownColumn(column)] + after[..|after| - 1];
      UnknownColumnFails(rows, leadId, before, column, after[..|after| - 1]);
    }
  }

  /** `update_lead(id, {"score": s})`, as the rescore endpoint calls it, always succeeds
      and sets exactly that lead's score. */
  lemma ScoreUpdateSucceeds(t: Tables, leadId: int, score: real)
    requires TablesValid(t)
    ensures var s := UpdateLeadStep(t, leadId, [SetScore(score)]);
      && s.result.Ok?
      && |s.after.leads| == |t.leads|
      && forall i :: 0 <= i < |t.leads| ==>
           s.after.leads[i] == if t.leads[i].id == leadId then t.leads[i].(score := score) else t.leads[i]
  {
    var r := AssignWhere(t.leads, leadId, SetScore(score));
    assert [SetScore(score)][..0] == [];
    assert ApplyUpdates(t.leads, leadId, []) == Ok(t.leads);
    assert StagesKnown(r);
    assert PairsUnique(r) by {
      forall i, j | 0 <= i < j < |r|
        ensures !SamePair(r[i], r[j])
      {
        assert SamePair(r[i], r[j]) == SamePair(t.leads[i], t.leads[j]);
      }
    }
  }

  /** A column that no constraint of the table mentions. */
  predicate FreeColumn(a: Assignment)
  {
    !a.SetName? && !a.SetCompany? && !a.SetStage? && !a.SetUnknownColumn?
  }

  lemma AssignKeepsKey(row: LeadRow, a: Assignment)
    requires FreeColumn(a)
    ensures Assign(row, a).name == row.name && Assign(row, a).company == row.company
    ensures Assign(row, a).stage == row.stage
  {
  }

  /** A column outside the stage and the (name, company) pair can always be set: the
      statement succeeds and is the plain UPDATE. */
  lemma FreeColumnUpdates(rows: seq<LeadRow>, leadId: int, a: Assignment)
    requires StagesKnown(rows) && PairsUnique(rows)
    requires FreeColumn(a)
    ensures UpdateOne(rows, leadId, a) == Ok(AssignWhere(rows, leadId, a))
  {
    var r := AssignWhere(rows, leadId, a);
    forall i | 0 <= i < |r|
      ensures r[i].name == rows[i].name && r[i].company == rows[i].company && r[i].stage == rows[i].stage
    {
      AssignKeepsKey(rows[i], a);
    }
    assert StagesKnown(r);
    assert PairsUnique(r);
  }

  /** `update_lead` with columns that no constraint mentions always succeeds. */
  lemma {:induction false} FreeColumnsSucceed(rows: seq<LeadRow>, leadId: int, updates: seq<Assignment>)
    requires StagesKnown(rows) && PairsUnique(rows)
    requires forall k :: 0 <= k < |updates| ==> FreeColumn(updates[k])
    ensures ApplyUpdates(rows, leadId, updates).Ok?
  {
    if updates != [] {
      var init := updates[..|updates| - 1];
      FreeColumnsSucceed(rows, leadId, init);
      var r := ApplyUpdates(rows, leadId, init).value;
      if init != [] {
        UpdatesFrame(rows, leadId, init);
      }
      FreeColumnUpdates(r, leadId, updates[|updates| - 1]);
    }
  }

  /** The update the message endpoint makes, `{"last_message": m, "interaction_log": l}`,
      always succeeds and sets exactly those two columns of that lead. */
  lemma MessageUpdateSucceeds(t: Tables, leadId: int, message: string, log: string)
    requires TablesValid(t)
    ensures var s := UpdateLeadStep(t, leadId, [SetLastMessage(Some(message)), SetInteractionLog(Some(log))]);
      && s.result.Ok?
      && |s.after.leads| == |t.leads|
      && forall i :: 0 <= i < |t.leads| ==>
           s.after.leads[i] == if t.leads[i].id == leadId
                               then t.leads[i].(lastMessage := Some(message), interactionLog := Some(log))
                               else t.leads[i]
  {
    var a, b := SetLastMessage(Some(message)), SetInteractionLog(Some(log));
    var us := [a, b];
    FreeColumnsSucceed(t.leads, leadId, us);
    UpdatesFrame(t.leads, leadId, us);
    forall i | 0 <= i < |t.leads| && t.leads[i].id == leadId
      ensures AssignAll(t.leads[i], us) == t.leads[i].(lastMessage := Some(message), interactionLog := Some(log))
    {
      AssignAllTwo(t.leads[i], a, b);
    }
  }

  lemma AssignAllTwo(row: LeadRow, a: Assignment, b: Assignment)
    ensures AssignAll(row, [a, b]) == Assign(Assign(row, a), b)
  {
    var one, two := [a], [a, b];
    assert two[..|two| - 1] == one && two[|two| - 1] == b;
    assert one[..|one| - 1] == [] && one[|one| - 1] == a;
    assert AssignAll(row, one) == Assign(row, a);
  }

  /** A stage outside the three values on an existing lead raises `IntegrityError`, and
      nothing is committed. */
  lemma InvalidStageRejected(t: Tables, leadId: int, stage: string, k: int)
    requires 0 <= k < |t.leads| && t.leads[k].id == leadId
    requires !IsKnownStage(stage)
    ensures UpdateLeadStep(t, leadId, [SetStage(stage)]) == Step(Err(IntegrityError), t)
  {
    assert [SetStage(stage)][..0] == [];
    assert ApplyUpdates(t.leads, leadId, []) == Ok(t.leads);
    var r := AssignWhere(t.leads, leadId, SetStage(stage));
    assert r[k].stage == stage;
    assert !StagesKnown(r);
  }

  // ----- get_leads -----

  /** `SELECT * FROM leads WHERE id = ?` */
  function RowsWithId(rows: seq<LeadRow>, leadId: int): (r: seq<LeadRow>)
    ensures |r| <= |rows|
    ensures forall i :: 0 <= i < |r| ==> r[i].id == leadId && r[i] in rows
  {
    if rows == [] then []
    else (if rows[0].id == leadId then [rows[0]] else []) + RowsWithId(rows[1..], leadId)
  }

  /** `get_leads(lead_id)`: every row when the id is absent or 0, else the rows with it. */
  function GetLeads(t: Tables, leadId: Option<int>): seq<LeadRow>
  {
    match leadId
    case Some(k) => if k != 0 then RowsWithId(t.leads, k) else t.leads
    case None => t.leads
  }

  lemma {:induction false} RowsWithIdFinds(rows: seq<LeadRow>, leadId: int, i: int)
    requires 0 <= i < |rows| && rows[i].id == leadId
    ensures rows[i] in RowsWithId(rows, leadId)
  {
    if i > 0 {
      RowsWithIdFinds(rows[1..], leadId, i - 1);
    }
  }

  lemma {:induction false} RowsWithIdOfAscending(rows: seq<LeadRow>, leadId: int)
    requires forall i, j :: 0 <= i < j < |rows| ==> rows[i].id < rows[j].id
    ensures |RowsWithId(rows, leadId)| <= 1
  {
    if rows != [] {
      RowsWithIdOfAscending(rows[1..], leadId);
      if rows[0].id == leadId {
        assert forall i :: 0 <= i < |rows[1..]| ==> rows[1..][i].id != leadId;
        RowsWithIdNone(rows[1..], leadId);
      }
    }
  }

  lemma {:induction false} RowsWithIdNone(rows: seq<LeadRow>, leadId: int)
    requires forall i :: 0 <= i < |rows| ==> rows[i].id != leadId
    ensures RowsWithId(rows, leadId) == []
  {
    if rows != [] {
      RowsWithIdNone(rows[1..], leadId);
    }
  }

  /** With a non-zero id the read returns the one row with that id, or nothing when no
      row has it; with no id, or 0, it returns the whole table. */
  lemma GetLeadsById(t: Tables, leadId: Option<int>)
    requires TablesValid(t)
    ensures leadId == None || leadId == Some(0) ==> GetLeads(t, leadId) == t.leads
    ensures leadId.Some? && leadId.value != 0 ==>
      && |GetLeads(t, leadId)| <= 1
      && (forall r :: r in GetLeads(t, leadId) ==> r.id == leadId.value && r in t.leads)
      && (forall i :: 0 <= i < |t.leads| && t.leads[i].id == leadId.value ==> GetLeads(t, leadId) == [t.leads[i]])
  {
    if leadId.Some? && leadId.value != 0 {
      var k := leadId.value;
      RowsWithIdOfAscending(t.leads, k);
      forall i | 0 <= i < |t.leads| && t.leads[i].id == k
        ensures GetLeads(t, leadId) == [t.leads[i]]
      {
        RowsWithIdFinds(t.leads, k, i);
      }
    }
  }

  // ----- the database -----

  class LeadStore {
    var leads: seq<LeadRow>
    var interactions: seq<InteractionRow>
    var nextLeadId: int
    var nextInteractionId: int

    function State(): Tables
      reads this
    {
      Tables(leads, interactions, nextLeadId, nextInteractionId)
    }

    predicate Valid()
      reads this
    {
      TablesValid(State())
    }

    /** `init_db()` on a fresh database. */
    constructor ()
      ensures Valid()
      ensures State() == EmptyTables
    {
      leads := [];
      interactions := [];
      nextLeadId := 1;
      nextInteractionId := 1;
    }

    /** `add_lead(lead)`: the new row's id, or the UNIQUE violation. */
    method AddLead(lead: NewLead) returns (result: Result<int, DbError>)
      requires Valid()
      modifies this
      ensures Valid()
      ensures Step(result, State()) == AddLeadStep(old(State()), lead)
    {
      AddLeadKeepsValid(State(), lead);
      if PairTaken(leads, lead.name, lead.company) {
        return Err(IntegrityError);
      }
      var id := nextLeadId;
      leads := leads + [InsertedRow(id, lead)];
      nextLeadId := id + 1;
      result := Ok(id);
    }

    /** `add_interaction(lead_id, interaction)`: the interaction's id, or the CHECK
        violation. */
    method AddInteraction(leadId: int, x: NewInteraction) returns (result: Result<int, DbError>)
      requires Valid()
      modifies this
      ensures Valid()
      ensures Step(result, State()) == AddInteractionStep(old(State()), leadId, x)
    {
      AddInteractionKeepsValid(State(), leadId, x);
      if !IsDirection(x.direction) {
        return Err(IntegrityError);
      }
      var id := nextInteractionId;
      interactions := interactions + [InteractionRow(id, leadId, x.message, x.direction)];
      nextInteractionId := id + 1;
      var newStage := if x.direction == Outbound then ReachedOut else ResponseReceived;
      leads := SetStageWhere(leads, leadId, newStage);
      result := Ok(id);
    }

    /** `update_lead(lead_id, updates)`: one UPDATE per entry on a working copy, committed
        only when the loop finishes. */
    method UpdateLead(leadId: int, updates: seq<Assignment>) returns (result: Result<(), DbError>)
      requires Valid()
      modifies this
      ensures Valid()
      ensures Step(result, State()) == UpdateLeadStep(old(State()), leadId, updates)
    {
      UpdateLeadKeepsValid(State(), leadId, updates);
      var rows := leads;
      var i := 0;
      while i < |updates|
        invariant 0 <= i <= |updates|
        invariant ApplyUpdates(leads, leadId, updates[..i]) == Ok(rows)
      {
        assert updates[..i + 1][..i] == updates[..i];
        var r := UpdateOne(rows, leadId, updates[i]);
        if r.Err? {
          UpdateErrorPersists(leads, leadId, updates, i + 1);
          return Err(r.error);
        }
        rows := r.value;
        i := i + 1;
      }
      assert updates[..i] == updates;
      leads := rows;
      result := Ok(());
    }

    /** `get_leads(lead_id)` */
    method GetLeadsQuery(leadId: Option<int>) returns (rows: seq<LeadRow>)
      requires Valid()
      ensures rows == GetLeads(State(), leadId)
      ensures leadId.Some? && leadId.value != 0 ==> |rows| <= 1
    {
      GetLeadsById(State(), leadId);
      rows := GetLeads(State(), leadId);
    }
  }

  /** Once a statement has failed, the later entries do not run and the same error is
      raised. */
  lemma {:induction false} UpdateErrorPersists(rows: seq<LeadRow>, leadId: int, updates: seq<Assignment>, n: nat)
    requires n <= |updates|
    requires ApplyUpdates(rows, leadId, updates[..n]).Err?
    ensures ApplyUpdates(rows, leadId, updates) == ApplyUpdates(rows, leadId, updates[..n])
    decreases |updates| - n
  {
    if n < |updates| {
      assert updates[..n + 1][..n] == updates[..n];
      UpdateErrorPersists(rows, leadId, updates, n + 1);
    } else {
      assert updates[..n] == updates;
    }
  }
}
