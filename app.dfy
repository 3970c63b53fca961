/**
  The dashboard's lead collection (App.js): the three targeted patches that replace one
  field of the record with a given id without reloading the collection, the statistics
  derived from the collection on every render, and the endpoint `fetchLeads` requests.
  All of them are pure: each patch builds a new sequence, as `prevLeads.map(...)` does.
*/
module App {
  import opened LeadRecord
  import opened StageLabels
  import JsParseInt

  // ----- targeted patches (App.js:38-68) -----

  /** The one field a patch replaces, and its new value. */
  datatype FieldPatch = ScoreTo(score: JsNum) | MessageTo(message: string) | StageTo(stage: string)

  /** `{...lead, <field>: value}` */
  function Apply(lead: Lead, p: FieldPatch): Lead
  {
    match p
    case ScoreTo(s) => lead.(score := s)
    case MessageTo(m) => lead.(lastMessage := m)
    case StageTo(st) => lead.(stage := st)
  }

  /** `leads.map(lead => lead.id === leadId ? {...lead, <field>: value} : lead)`: every record
      whose id matches is patched, every other record is kept as it is, in the same place. */
  function PatchById(leads: seq<Lead>, leadId: int, p: FieldPatch): (r: seq<Lead>)
    ensures |r| == |leads|
    ensures forall i :: 0 <= i < |leads| ==>
      r[i] == if leads[i].id == leadId then Apply(leads[i], p) else leads[i]
  {
    if leads == [] then []
    else [if leads[0].id == leadId then Apply(leads[0], p) else leads[0]] + PatchById(leads[1..], leadId, p)
  }

  /** `updateLeadScore(leadId, newScore)`: only `score` changes, and only on matching records. */
  function UpdateLeadScore(leads: seq<Lead>, leadId: int, newScore: JsNum): (r: seq<Lead>)
    ensures |r| == |leads|
    ensures forall i :: 0 <= i < |leads| && leads[i].id == leadId ==> r[i] == leads[i].(score := newScore)
    ensures forall i :: 0 <= i < |leads| && leads[i].id != leadId ==> r[i] == leads[i]
  {
    PatchById(leads, leadId, ScoreTo(newScore))
  }

  /** `updateLeadMessage(leadId, message)`: only `last_message` changes, only on matching records. */
  function UpdateLeadMessage(leads: seq<Lead>, leadId: int, message: string): (r: seq<Lead>)
    ensures |r| == |leads|
    ensures forall i :: 0 <= i < |leads| && leads[i].id == leadId ==> r[i] == leads[i].(lastMessage := message)
    ensures forall i :: 0 <= i < |leads| && leads[i].id != leadId ==> r[i] == leads[i]
  {
    PatchById(leads, leadId, MessageTo(message))
  }

  /** `updateLeadStage(leadId, newStage)`: only `stage` changes, only on matching records. */
  function UpdateLeadStage(leads: seq<Lead>, leadId: int, newStage: string): (r: seq<Lead>)
    ensures |r| == |leads|
    ensures forall i :: 0 <= i < |leads| && leads[i].id == leadId ==> r[i] == leads[i].(stage := newStage)
    ensures forall i :: 0 <= i < |leads| && leads[i].id != leadId ==> r[i] == leads[i]
  {
    PatchById(leads, leadId, StageTo(newStage))
  }

  /** The ids of a collection, in order. */
  function Ids(leads: seq<Lead>): (ids: seq<int>)
    ensures |ids| == |leads| && forall i :: 0 <= i < |leads| ==> ids[i] == leads[i].id
  {
    seq(|leads|, i requires 0 <= i < |leads| => leads[i].id)
  }

  predicate IdsUnique(leads: seq<Lead>)
  {
    forall i, j :: 0 <= i < j < |leads| ==> leads[i].id != leads[j].id
  }

  /** A patch keeps the ids, their order and the number of records: it never inserts,
      removes or reorders, so a collection with unique ids keeps them unique. */
  lemma PatchKeepsIds(leads: seq<Lead>, leadId: int, p: FieldPatch)
    ensures Ids(PatchById(leads, leadId, p)) == Ids(leads)
    ensures IdsUnique(leads) ==> IdsUnique(PatchById(leads, leadId, p))
  {
  }

  /** Patching an id that no record carries returns an equal collection. */
  lemma PatchUnknownIdIsIdentity(leads: seq<Lead>, leadId: int, p: FieldPatch)
    requires forall i :: 0 <= i < |leads| ==> leads[i].id != leadId
    ensures PatchById(leads, leadId, p) == leads
  {
  }

  /** Applying the same patch twice is the same as applying it once. */
  lemma PatchIdempotent(leads: seq<Lead>, leadId: int, p: FieldPatch)
    ensures PatchById(PatchById(leads, leadId, p), leadId, p) == PatchById(leads, leadId, p)
  {
    var once := PatchById(leads, leadId, p);
    var twice := PatchById(once, leadId, p);
    forall i | 0 <= i < |leads|
      ensures twice[i] == once[i]
    {
      if leads[i].id == leadId {
        match p
        case ScoreTo(_) =>
        case MessageTo(_) =>
        case StageTo(_) =>
      }
    }
  }

  predicate SameField(p: FieldPatch, q: FieldPatch)
  {
    (p.ScoreTo? && q.ScoreTo?) || (p.MessageTo? && q.MessageTo?) || (p.StageTo? && q.StageTo?)
  }

  /** Patches on different records, or of different fields, do not interfere: their order
      does not matter, so the three update channels are independent. */
  lemma PatchesCommute(leads: seq<Lead>, a: int, p: FieldPatch, b: int, q: FieldPatch)
    requires a != b || !SameField(p, q)
    ensures PatchById(PatchById(leads, a, p), b, q) == PatchById(PatchById(leads, b, q), a, p)
  {
    var pq := PatchById(PatchById(leads, a, p), b, q);
    var qp := PatchById(PatchById(leads, b, q), a, p);
    forall i | 0 <= i < |leads|
      ensures pq[i] == qp[i]
    {
      if leads[i].id == a && leads[i].id == b {
        match p
        case ScoreTo(_) =>
        case MessageTo(_) =>
        case StageTo(_) =>
      }
    }
  }

  // ----- derived statistics (App.js:74-80) -----

  /** `leads.filter(lead => lead.stage === stage).length` */
  function CountStage(leads: seq<Lead>, stage: string): (n: nat)
    ensures n <= |leads|
  {
    if leads == [] then 0
    else (if leads[0].stage == stage then 1 else 0) + CountStage(leads[1..], stage)
  }

  /** The number of leads whose stage is none of the three known values. */
  function CountUnknownStage(leads: seq<Lead>): (n: nat)
    ensures n <= |leads|
  {
    if leads == [] then 0
    else (if IsKnownStage(leads[0].stage) then 0 else 1) + CountUnknownStage(leads[1..])
  }

  /** `leads.reduce((sum, lead) => sum + (parseInt(lead.budget) || 0), 0)`, a left fold,
      in exact integers where JavaScript adds doubles. */
  function TotalBudget(leads: seq<Lead>): int
  {
    if leads == [] then 0
    else TotalBudget(leads[..|leads| - 1]) + JsParseInt.ParsedOrZero(leads[|leads| - 1].budget)
  }

  datatype Stats = Stats(
    totalLeads: nat,
    potentialLeads: nat,
    reachedOutLeads: nat,
    responseReceivedLeads: nat,
    totalBudget: int)

  /** The `stats` object the dashboard renders. */
  function ComputeStats(leads: seq<Lead>): (s: Stats)
    ensures s.totalLeads == |leads|
    ensures s.potentialLeads + s.reachedOutLeads + s.responseReceivedLeads <= s.totalLeads
  {
    StageCountsPartition(leads);
    Stats(
      |leads|,
      CountStage(leads, PotentialLead),
      CountStage(leads, ReachedOut),
      CountStage(leads, ResponseReceived),
      TotalBudget(leads))
  }

  /** Every lead is counted once: under one of the three stages or as unknown. */
  lemma {:induction false} StageCountsPartition(leads: seq<Lead>)
    ensures CountStage(leads, PotentialLead) + CountStage(leads, ReachedOut)
      + CountStage(leads, ResponseReceived) + CountUnknownStage(leads) == |leads|
  {
    if leads != [] {
      StageCountsPartition(leads[1..]);
    }
  }

  lemma {:induction false} NoUnknownStageIff(leads: seq<Lead>)
    ensures CountUnknownStage(leads) == 0 <==> forall i :: 0 <= i < |leads| ==> IsKnownStage(leads[i].stage)
  {
    if leads != [] {
      NoUnknownStageIff(leads[1..]);
      assert forall i :: 1 <= i < |leads| ==> leads[i] == leads[1..][i - 1];
    }
  }

  /** The three stage counts add up to the total exactly when every lead's stage is one of
      the three known values. */
  lemma StageCountsCoverAllIff(leads: seq<Lead>)
    ensures var s := ComputeStats(leads);
      s.potentialLeads + s.reachedOutLeads + s.responseReceivedLeads == s.totalLeads
      <==> forall i :: 0 <= i < |leads| ==> IsKnownStage(leads[i].stage)
  {
    StageCountsPartition(leads);
    NoUnknownStageIff(leads);
  }

  /** The budget total of two collections put together is the sum of their totals. */
  lemma {:induction false} TotalBudgetAppend(a: seq<Lead>, b: seq<Lead>)
    ensures TotalBudget(a + b) == TotalBudget(a) + TotalBudget(b)
  {
    if b == [] {
      assert a + b == a;
    } else {
      assert (a + b)[..|a + b| - 1] == a + b[..|b| - 1];
      TotalBudgetAppend(a, b[..|b| - 1]);
    }
  }

  /** A lead whose budget does not parse contributes nothing to the total. */
  lemma UnparsableBudgetContributesZero(a: seq<Lead>, x: Lead, b: seq<Lead>)
    requires JsParseInt.ParseInt(x.budget).None?
    ensures TotalBudget(a + [x] + b) == TotalBudget(a + b)
  {
    TotalBudgetAppend(a + [x], b);
    TotalBudgetAppend(a, [x]);
    TotalBudgetAppend(a, b);
    assert [x][..0] == [];
  }

  /** Appending a lead adds its `parseInt(budget) || 0` to the total. */
  lemma TotalBudgetSnoc(a: seq<Lead>, x: Lead)
    ensures TotalBudget(a + [x]) == TotalBudget(a) + JsParseInt.ParsedOrZero(x.budget)
  {
    var ax := a + [x];
    assert ax[..|ax| - 1] == a && ax[|ax| - 1] == x;
  }

  /** A lead's parsed budget is what it adds to the total: the decimal text of `n`
      (optionally followed by a fraction or other non-digit text) adds exactly `n`. */
  lemma BudgetTextContributes(a: seq<Lead>, x: Lead, n: int, tail: string)
    requires tail == [] || (!JsParseInt.IsDecimalDigit(tail[0]) && tail[0] != 'x' && tail[0] != 'X')
    requires x.budget == JsParseInt.IntText(n) + tail
    ensures TotalBudget(a + [x]) == TotalBudget(a) + n
  {
    JsParseInt.ParsedOrZeroText(n, tail);
    TotalBudgetSnoc(a, x);
  }

  /** Collections that agree on every stage and budget, record by record, have the same
      statistics. */
  lemma {:induction false} StatsDependOnStagesAndBudgets(a: seq<Lead>, b: seq<Lead>)
    requires |a| == |b|
    requires forall i :: 0 <= i < |a| ==> a[i].stage == b[i].stage && a[i].budget == b[i].budget
    ensures ComputeStats(a) == ComputeStats(b)
  {
    if a != [] {
      StatsDependOnStagesAndBudgets(a[1..], b[1..]);
      StatsDependOnStagesAndBudgets(a[..|a| - 1], b[..|b| - 1]);
    }
  }

  /** Patching a score or a message leaves every statistic unchanged. */
  lemma ScoreAndMessagePatchesKeepStats(leads: seq<Lead>, leadId: int, p: FieldPatch)
    requires !p.StageTo?
    ensures ComputeStats(PatchById(leads, leadId, p)) == ComputeStats(leads)
  {
    StatsDependOnStagesAndBudgets(PatchById(leads, leadId, p), leads);
  }

  // ----- the request `fetchLeads` sends (App.js:22) -----

  const LeadsPath := "/leads"
  const SearchPrefix := "/leads?search="

  /** `search ? `/leads?search=${search}` : '/leads'`; the search text is inserted as it is,
      without URL encoding. */
  function LeadsEndpoint(search: string): (endpoint: string)
    ensures search != "" ==> endpoint == SearchPrefix + search
    ensures search == "" ==> endpoint == LeadsPath
  {
    if search != "" then SearchPrefix + search else LeadsPath
  }

  /** Different search texts request different endpoints, and the search text can be read
      back from the endpoint. */
  lemma LeadsEndpointInjective(a: string, b: string)
    ensures LeadsEndpoint(a) == LeadsEndpoint(b) ==> a == b
    ensures a != "" ==> LeadsEndpoint(a)[|SearchPrefix|..] == a
  {
    var ea, eb := LeadsEndpoint(a), LeadsEndpoint(b);
    if a != "" {
      assert ea[|SearchPrefix|..] == a;
    }
    if b != "" {
      assert eb[|SearchPrefix|..] == b;
    }
  }
}
