/**
  The generated-messages view (MessageGenerator.js): the leads that carry a message, most
  recent first, each card numbered from the count down to 1, the first one marked
  "Latest", and an empty state when no lead carries a message. "Most recent" means last in
  the collection's order: the view reverses the filtered collection.
*/
module MessageGenerator {
  import opened LeadRecord
  import opened StageLabels

  /** `leads.filter(lead => lead.last_message)`, in input order. */
  function WithMessage(leads: seq<Lead>): (kept: seq<Lead>)
    ensures |kept| <= |leads|
    ensures forall i :: 0 <= i < |kept| ==> TruthyText(kept[i].lastMessage)
  {
    if leads == [] then []
    else (if TruthyText(leads[0].lastMessage) then [leads[0]] else []) + WithMessage(leads[1..])
  }

  /** `.reverse()` of a fresh array. */
  function Reverse<T>(s: seq<T>): (r: seq<T>)
    ensures |r| == |s|
    ensures forall i :: 0 <= i < |s| ==> r[i] == s[|s| - 1 - i]
  {
    if s == [] then [] else Reverse(s[1..]) + [s[0]]
  }

  /** The `messages` array the view renders. */
  function Messages(leads: seq<Lead>): seq<Lead>
  {
    Reverse(WithMessage(leads))
  }

  /** How many leads carry a message, counted independently of the filter. */
  function CountWithMessage(leads: seq<Lead>): nat
  {
    if leads == [] then 0
    else CountWithMessage(leads[..|leads| - 1]) + (if TruthyText(leads[|leads| - 1].lastMessage) then 1 else 0)
  }

  lemma {:induction false} WithMessageAppend(a: seq<Lead>, b: seq<Lead>)
    ensures WithMessage(a + b) == WithMessage(a) + WithMessage(b)
  {
    if a == [] {
      assert a + b == b;
    } else {
      assert (a + b)[1..] == a[1..] + b;
      WithMessageAppend(a[1..], b);
    }
  }

  lemma ReverseAppend<T>(a: seq<T>, b: seq<T>)
    ensures Reverse(a + b) == Reverse(b) + Reverse(a)
  {
  }

  /** The list is characterised by how it grows: a lead added at the end of the collection
      comes first in the list when it carries a message, and changes nothing otherwise. */
  lemma MessagesSnoc(leads: seq<Lead>, x: Lead)
    ensures Messages(leads + [x]) == (if TruthyText(x.lastMessage) then [x] else []) + Messages(leads)
  {
    WithMessageAppend(leads, [x]);
    assert WithMessage([x]) == (if TruthyText(x.lastMessage) then [x] else []) by {
      assert [x][1..] == [];
    }
    ReverseAppend(WithMessage(leads), WithMessage([x]));
  }

  /** A lead is listed exactly when it is in the collection and carries a message. */
  lemma {:induction false} WithMessageMembers(leads: seq<Lead>, x: Lead)
    ensures x in WithMessage(leads) <==> x in leads && TruthyText(x.lastMessage)
  {
    if leads != [] {
      WithMessageMembers(leads[1..], x);
      assert leads == [leads[0]] + leads[1..];
    }
  }

  lemma MessagesMembers(leads: seq<Lead>, x: Lead)
    ensures x in Messages(leads) <==> x in leads && TruthyText(x.lastMessage)
  {
    WithMessageMembers(leads, x);
    var kept := WithMessage(leads);
    if x in kept {
      var i :| 0 <= i < |kept| && kept[i] == x;
      assert Messages(leads)[|kept| - 1 - i] == x;
    }
  }

  /** The header's count is the number of leads carrying a message. */
  lemma {:induction false} MessageCount(leads: seq<Lead>)
    ensures |Messages(leads)| == CountWithMessage(leads)
  {
    if leads != [] {
      var init := leads[..|leads| - 1];
      assert leads == init + [leads[|leads| - 1]];
      MessagesSnoc(init, leads[|leads| - 1]);
      MessageCount(init);
    }
  }

  /** The list is empty exactly when no lead carries a message. */
  lemma {:induction false} MessagesEmptyIff(leads: seq<Lead>)
    ensures Messages(leads) == [] <==> forall i :: 0 <= i < |leads| ==> !TruthyText(leads[i].lastMessage)
  {
    if Messages(leads) != [] {
      var x := Messages(leads)[0];
      MessagesMembers(leads, x);
    } else {
      forall i | 0 <= i < |leads|
        ensures !TruthyText(leads[i].lastMessage)
      {
        MessagesMembers(leads, leads[i]);
      }
    }
  }

  /** The index of the last lead in the collection that carries a message. */
  function LastWithMessage(leads: seq<Lead>): (j: int)
    ensures -1 <= j < |leads|
    ensures j >= 0 ==> TruthyText(leads[j].lastMessage)
    ensures forall k :: j < k < |leads| ==> !TruthyText(leads[k].lastMessage)
  {
    if leads == [] then -1
    else if TruthyText(leads[|leads| - 1].lastMessage) then |leads| - 1
    else LastWithMessage(leads[..|leads| - 1])
  }

  /** The card marked "Latest" (index 0) is the last lead in the collection that carries a
      message. */
  lemma {:induction false} LatestIsLastWithMessage(leads: seq<Lead>)
    ensures Messages(leads) == [] <==> LastWithMessage(leads) == -1
    ensures Messages(leads) != [] ==> Messages(leads)[0] == leads[LastWithMessage(leads)]
  {
    if leads != [] {
      var init := leads[..|leads| - 1];
      var last := leads[|leads| - 1];
      assert leads == init + [last];
      MessagesSnoc(init, last);
      if !TruthyText(last.lastMessage) {
        LatestIsLastWithMessage(init);
      }
    }
  }

  // ----- the rendered view -----

  const UnknownStage := "Unknown"

  /** `lead.stage ? formatStageLabel(lead.stage) : 'Unknown'` */
  function StageText(stage: string): (text: string)
    ensures stage == "" ==> text == UnknownStage
    ensures stage != "" ==> text == FormatStageLabel(stage)
    ensures IsKnownStage(stage) ==> text != UnknownStage
  {
    if TruthyText(stage) then FormatStageLabel(stage) else UnknownStage
  }

  /** One rendered card: the lead, whether it carries the "Latest" marker, its `#n`
      badge and its stage text. */
  datatype Card = Card(lead: Lead, latest: bool, badge: int, stageText: string)

  /** The empty state, or the header count and the cards. */
  datatype View = NoMessages | MessageList(count: nat, cards: seq<Card>)

  function CardAt(messages: seq<Lead>, index: nat): Card
    requires index < |messages|
  {
    Card(messages[index], index == 0, |messages| - index, StageText(messages[index].stage))
  }

  function Cards(messages: seq<Lead>): (cards: seq<Card>)
    ensures |cards| == |messages|
    ensures forall i :: 0 <= i < |messages| ==> cards[i] == CardAt(messages, i)
  {
    seq(|messages|, i requires 0 <= i < |messages| => CardAt(messages, i))
  }

  /** What `MessageGenerator({ leads })` renders. */
  function Render(leads: seq<Lead>): View
  {
    var messages := Messages(leads);
    if |messages| == 0 then NoMessages else MessageList(|messages|, Cards(messages))
  }

  /** The empty state is shown exactly when no lead carries a message; otherwise the header
      counts the leads with a message and there is one card per such lead, in list order. */
  lemma RenderShape(leads: seq<Lead>)
    ensures Render(leads).NoMessages? <==> forall i :: 0 <= i < |leads| ==> !TruthyText(leads[i].lastMessage)
    ensures Render(leads).MessageList? ==>
      && Render(leads).count == CountWithMessage(leads)
      && |Render(leads).cards| == Render(leads).count
      && forall i :: 0 <= i < |Render(leads).cards| ==> Render(leads).cards[i].lead == Messages(leads)[i]
  {
    MessagesEmptyIff(leads);
    MessageCount(leads);
  }

  /** Badge numbering: the first card gets the count, the badges run down to 1 without
      repeats, and exactly the first card is marked "Latest". */
  lemma BadgeNumbering(leads: seq<Lead>)
    requires Render(leads).MessageList?
    ensures var v := Render(leads);
      && v.cards[0].badge == v.count
      && v.cards[|v.cards| - 1].badge == 1
      && (forall i :: 0 <= i < |v.cards| ==> 1 <= v.cards[i].badge <= v.count)
      && (forall i, j :: 0 <= i < j < |v.cards| ==> v.cards[i].badge > v.cards[j].badge)
      && (forall i :: 0 <= i < |v.cards| ==> (v.cards[i].latest <==> i == 0))
  {
  }
}
