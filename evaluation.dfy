/**
  The backend's message evaluator (evaluation.py): four yes/no checks on a generated
  message, a score of 25 per passed check, and one fixed recommendation per failed check,
  in the checks' order.
*/
module Evaluation {
  import opened PyText

  /** The parts of a lead the evaluator reads. */
  datatype EvalLead = EvalLead(name: string, company: string, needs: string)

  /** The `checks` dictionary, its keys in insertion order. */
  datatype Checks = Checks(personalization: bool, relevance: bool, length: bool, tone: bool)

  /** The returned dictionary. */
  datatype Report = Report(score: int, checks: Checks, recommendations: seq<string>)

  const MinWords := 50
  const MaxWords := 200
  const CheckPoints := 25

  const PersonalizationTip := "Add lead's name and company for better personalization."
  const RelevanceTip := "Incorporate lead's specific needs for relevance."
  const LengthTip := "Adjust message length to 50-200 words."
  const ToneTip := "Ensure a professional or friendly tone."

  /** The recommendations, one per check, in the checks' order. */
  const Tips := [PersonalizationTip, RelevanceTip, LengthTip, ToneTip]

  predicate Personalized(message: string, lead: EvalLead)
  {
    Contains(message, lead.name) && Contains(message, lead.company)
  }

  predicate Relevant(message: string, lead: EvalLead)
  {
    Contains(Lower(message), Lower(lead.needs))
  }

  predicate RightLength(message: string)
  {
    MinWords <= WordCount(message) <= MaxWords
  }

  predicate RightTone(message: string)
  {
    Contains(Lower(message), "professional") || Contains(Lower(message), "friendly")
  }

  function ComputeChecks(message: string, lead: EvalLead): Checks
  {
    Checks(Personalized(message, lead), Relevant(message, lead), RightLength(message), RightTone(message))
  }

  /** `checks.values()` */
  function Values(c: Checks): (vs: seq<bool>)
    ensures |vs| == 4
  {
    [c.personalization, c.relevance, c.length, c.tone]
  }

  /** How many of the values are true. */
  function Passed(vs: seq<bool>): (n: nat)
    ensures n <= |vs|
  {
    if vs == [] then 0 else (if vs[0] then 1 else 0) + Passed(vs[1..])
  }

  /** `sum(25 for check in values if check)` */
  function SumPoints(vs: seq<bool>): (total: int)
    ensures total == CheckPoints * Passed(vs)
  {
    if vs == [] then 0 else (if vs[0] then CheckPoints else 0) + SumPoints(vs[1..])
  }

  /** The tips whose check failed, in order. */
  function FailedTips(vs: seq<bool>, tips: seq<string>): (failed: seq<string>)
    requires |vs| == |tips|
    ensures |failed| == |vs| - Passed(vs)
  {
    if vs == [] then [] else (if vs[0] then [] else [tips[0]]) + FailedTips(vs[1..], tips[1..])
  }

  /** `evaluate_response(message, lead)`: the recommendations list is built by appending
      one tip per failed check. */
  method EvaluateResponse(message: string, lead: EvalLead) returns (report: Report)
    ensures report.checks == ComputeChecks(message, lead)
    ensures report.score == CheckPoints * Passed(Values(report.checks))
    ensures report.score in {0, 25, 50, 75, 100}
    ensures report.recommendations == FailedTips(Values(report.checks), Tips)
    ensures report.score + CheckPoints * |report.recommendations| == 100
    ensures PersonalizationTip in report.recommendations <==> !report.checks.personalization
    ensures RelevanceTip in report.recommendations <==> !report.checks.relevance
    ensures LengthTip in report.recommendations <==> !report.checks.length
    ensures ToneTip in report.recommendations <==> !report.checks.tone
  {
    var checks := ComputeChecks(message, lead);
    var score := SumPoints(Values(checks));
    FailedTipsOfFour(checks);
    ScoreAndTips(checks);
    ghost var p := if checks.personalization then [] else [PersonalizationTip];
    ghost var r := if checks.relevance then [] else [RelevanceTip];
    ghost var l := if checks.length then [] else [LengthTip];
    ghost var t := if checks.tone then [] else [ToneTip];
    var recommendations := [];
    if !checks.personalization {
      recommendations := recommendations + [PersonalizationTip];
    }
    assert recommendations == p;
    if !checks.relevance {
      recommendations := recommendations + [RelevanceTip];
    }
    assert recommendations == p + r;
    if !checks.length {
      recommendations := recommendations + [LengthTip];
    }
    assert recommendations == p + r + l;
    if !checks.tone {
      recommendations := recommendations + [ToneTip];
    }
    assert recommendations == p + r + l + t;
    report := Report(score, checks, recommendations);
  }

  /** The score is a multiple of 25 up to 100, the score and the recommendations together
      account for all four checks, and each tip is recommended exactly when its check failed. */
  lemma ScoreAndTips(c: Checks)
    ensures CheckPoints * Passed(Values(c)) in {0, 25, 50, 75, 100}
    ensures CheckPoints * Passed(Values(c)) + CheckPoints * |FailedTips(Values(c), Tips)| == 100
    ensures PersonalizationTip in FailedTips(Values(c), Tips) <==> !c.personalization
    ensures RelevanceTip in FailedTips(Values(c), Tips) <==> !c.relevance
    ensures LengthTip in FailedTips(Values(c), Tips) <==> !c.length
    ensures ToneTip in FailedTips(Values(c), Tips) <==> !c.tone
  {
    FailedTipsOfFour(c);
    TipsDistinct();
  }

  /** The tips are pairwise different, so each one names exactly one check. */
  lemma TipsDistinct()
    ensures PersonalizationTip != RelevanceTip && PersonalizationTip != LengthTip
    ensures PersonalizationTip != ToneTip && RelevanceTip != LengthTip
    ensures RelevanceTip != ToneTip && LengthTip != ToneTip
  {
    assert |PersonalizationTip| == 55 && |RelevanceTip| == 48;
    assert |LengthTip| == 38 && |ToneTip| == 39;
  }

  /** Unfolding the generic filter over the four checks. */
  lemma FailedTipsOfFour(c: Checks)
    ensures FailedTips(Values(c), Tips) ==
      (if c.personalization then [] else [PersonalizationTip])
      + (if c.relevance then [] else [RelevanceTip])
      + (if c.length then [] else [LengthTip])
      + (if c.tone then [] else [ToneTip])
  {
    FailedTipsOfFourValues(c.personalization, c.relevance, c.length, c.tone,
                           PersonalizationTip, RelevanceTip, LengthTip, ToneTip);
  }

  lemma FailedTipsOfFourValues(a: bool, b: bool, c: bool, d: bool, w: string, x: string, y: string, z: string)
    ensures FailedTips([a, b, c, d], [w, x, y, z]) ==
      (if a then [] else [w]) + (if b then [] else [x]) + (if c then [] else [y]) + (if d then [] else [z])
  {
    assert [a, b, c, d][1..] == [b, c, d] && [w, x, y, z][1..] == [x, y, z];
    assert [b, c, d][1..] == [c, d] && [x, y, z][1..] == [y, z];
    assert [c, d][1..] == [d] && [y, z][1..] == [z];
    assert FailedTips([d], [z]) == (if d then [] else [z]);
    assert FailedTips([c, d], [y, z]) == (if c then [] else [y]) + FailedTips([d], [z]);
    assert FailedTips([b, c, d], [x, y, z]) == (if b then [] else [x]) + FailedTips([c, d], [y, z]);
    assert FailedTips([a, b, c, d], [w, x, y, z]) == (if a then [] else [w]) + FailedTips([b, c, d], [x, y, z]);
  }

  // ----- properties of the checks -----

  /** Relevance and tone ignore the letter case of the message and of the needs. */
  lemma RelevanceAndToneIgnoreCase(message: string, other: string, lead: EvalLead, needs: string)
    requires Lower(other) == Lower(message)
    requires Lower(needs) == Lower(lead.needs)
    ensures Relevant(other, lead.(needs := needs)) == Relevant(message, lead)
    ensures RightTone(other) == RightTone(message)
  {
  }

  /** Personalization does not ignore case: a message naming the lead in lower case fails
      it, although the lowered message contains the lowered name. */
  lemma PersonalizationIsCaseSensitive()
    ensures !Personalized("al", EvalLead("Al", "Al", ""))
    ensures Lower("Al") == "al"
  {
    assert !StartsWith("al", "Al") by {
      assert "al"[..2][0] == 'a';
    }
    assert "al"[1..] == "l";
    assert "l"[1..] == "";
    assert !Contains("al", "Al");
    assert Lower("l") == "l";
  }

  /** An empty needs text is found in every message, so such a lead always passes relevance. */
  lemma EmptyNeedsAlwaysRelevant(message: string, lead: EvalLead)
    requires lead.needs == ""
    ensures Relevant(message, lead)
  {
    ContainsEmpty(Lower(message));
  }

  /** A message that names the lead and its needs word for word passes both checks. */
  lemma NamingTheLeadPasses(before: string, middle: string, between: string, after: string, lead: EvalLead)
    ensures Personalized(before + lead.name + middle + lead.company + after, lead)
    ensures Relevant(Lower(before) + Lower(lead.needs) + Lower(after), lead)
  {
    ContainsPart(before, lead.name, middle + lead.company + after);
    assert before + lead.name + middle + lead.company + after == before + lead.name + (middle + lead.company + after);
    ContainsPart(before + lead.name + middle, lead.company, after);
    var low := Lower(before) + Lower(lead.needs) + Lower(after);
    LowerOfConcat3(Lower(before), Lower(lead.needs), Lower(after));
    LowerIdempotent(before);
    LowerIdempotent(lead.needs);
    LowerIdempotent(after);
    ContainsPart(Lower(before), Lower(lead.needs), Lower(after));
  }

  lemma LowerOfConcat3(a: string, b: string, c: string)
    ensures Lower(a + b + c) == Lower(a) + Lower(b) + Lower(c)
  {
    var s := a + b + c;
    assert forall i :: 0 <= i < |s| ==> Lower(s)[i] == (Lower(a) + Lower(b) + Lower(c))[i];
  }

  /** A message of between 50 and 200 words joined by single spaces has the right length. */
  lemma JoinedWordsLength(ws: seq<string>)
    requires forall i :: 0 <= i < |ws| ==> IsWord(ws[i])
    requires MinWords <= |ws| <= MaxWords
    ensures RightLength(Join(ws))
  {
    SplitJoin(ws);
  }
}
