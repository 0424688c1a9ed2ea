/** One participant entry of an activity and how the activity card lists the
    participants: the label resolution `participantLabel` and the list of at most ten
    labels followed by a "+K more" summary (src/static/app.js, lines 71-98). */
module Participants {
  import opened Wrappers
  import opened Decimal
  import opened Seqs

  /** A participant as it arrives in the JSON body. Record fields hold the text the
      value would show, with "" standing for any falsy value (absent, null, "", 0,
      false). `id` is Some(String(id)) when the id is truthy. `json` is the text
      JSON.stringify gives for the record, supplied by the host. */
  datatype Participant =
    | PNull                         // null or undefined
    | PStr(s: string)               // a bare identifier string
    | PObj(name: string, fullName: string, email: string, username: string,
           id: Option<string>, json: string)
    | PPrim(shown: string)          // a number or boolean, shown as String(p)

  /** One `<li>` of the participants list. */
  datatype Item =
    | Plain(text: string)           // a participant label, no class
    | More(rest: nat)               // "+rest more", class "more"
    | Muted(text: string)           // the placeholder, class "muted"

  const DisplayLimit: nat := 10
  const NoParticipantsText := "No participants yet"
  const UnknownLabel := "Unknown"

  function Min(a: nat, b: nat): nat {
    if a <= b then a else b
  }

  /** Index of the first truthy (non-empty) candidate, or |cands| if none is: the
      operand `a || b || c || ...` evaluates to. */
  function FirstTruthyIndex(cands: seq<string>): (k: nat)
    ensures k <= |cands|
    ensures forall j :: 0 <= j < k ==> cands[j] == ""
    ensures k < |cands| ==> cands[k] != ""
  {
    FirstIndex(cands, (c: string) => c != "")
  }

  /** The display label of a participant, `participantLabel` (lines 71-78). */
  function ParticipantLabel(p: Participant): string {
    match p
    case PNull => UnknownLabel
    case PStr(s) => s
    case PObj(name, fullName, email, username, id, json) =>
      if name != "" then name
      else if fullName != "" then fullName
      else if email != "" then email
      else if username != "" then username
      else if id.Some? then id.value
      else json
    case PPrim(shown) => shown
  }

  /** The record fields the label consults, in priority order. */
  function LabelFields(p: Participant): seq<string>
    requires p.PObj?
  {
    [p.name, p.fullName, p.email, p.username]
  }

  /** Label resolution against an independent statement of the priority: null gives
      "Unknown", a string is itself, and a record gives its first truthy field of
      name, full_name, email, username, else String(id) for a truthy id, else its
      serialised form. */
  lemma LabelResolution(p: Participant)
    ensures p.PNull? ==> ParticipantLabel(p) == UnknownLabel
    ensures p.PStr? ==> ParticipantLabel(p) == p.s
    ensures p.PObj? ==>
      var fields := LabelFields(p);
      var k := FirstTruthyIndex(fields);
      ParticipantLabel(p) == if k < |fields| then fields[k]
                             else if p.id.Some? then p.id.value
                             else p.json
  {
    if p.PObj? {
      var fields := LabelFields(p);
      var k := FirstTruthyIndex(fields);
      if k < |fields| {
        assert fields[k] != "";
        assert forall j :: 0 <= j < k ==> fields[j] == "";
        if k >= 1 { assert fields[0] == ""; }
        if k >= 2 { assert fields[1] == ""; }
        if k >= 3 { assert fields[2] == ""; }
      } else {
        assert fields[0] == "" && fields[1] == "" && fields[2] == "" && fields[3] == "";
      }
    }
  }

  /** The labels of `ps`, one item each, in order. */
  function LabelItems(ps: seq<Participant>): (items: seq<Item>)
    ensures |items| == |ps|
    ensures forall i :: 0 <= i < |ps| ==> items[i] == Plain(ParticipantLabel(ps[i]))
  {
    seq(|ps|, i requires 0 <= i < |ps| => Plain(ParticipantLabel(ps[i])))
  }

  /** The text each item shows. */
  function ItemText(item: Item): string {
    match item
    case Plain(t) => t
    case More(k) => "+" + NatText(k) + " more"
    case Muted(t) => t
  }

  /** The class each item carries ("" for none). */
  function ItemClass(item: Item): string {
    match item
    case Plain(_) => ""
    case More(_) => "more"
    case Muted(_) => "muted"
  }

  /** The items of the participants list (lines 80-98). An empty list shows exactly
      the muted placeholder. Otherwise the first min(n, 10) participants appear in
      order with their labels, and one "+(n-10) more" item follows exactly when
      n > 10. */
  function ParticipantItems(ps: seq<Participant>): (items: seq<Item>)
    ensures |ps| == 0 ==> items == [Muted(NoParticipantsText)]
    ensures |ps| > 0 ==>
      |items| == Min(|ps|, DisplayLimit) + (if |ps| > DisplayLimit then 1 else 0)
    ensures |ps| > 0 ==> forall i :: 0 <= i < Min(|ps|, DisplayLimit) ==>
      items[i] == Plain(ParticipantLabel(ps[i]))
    ensures forall i :: 0 <= i < |items| ==>
      (items[i].More? <==> |ps| > DisplayLimit && i == DisplayLimit)
    ensures |ps| > DisplayLimit ==> items[DisplayLimit] == More(|ps| - DisplayLimit)
    ensures forall i :: 0 <= i < |items| ==> (items[i].Muted? <==> |ps| == 0)
  {
    if |ps| == 0 then [Muted(NoParticipantsText)]
    else
      var shown := Min(|ps|, DisplayLimit);
      LabelItems(ps[..shown]) + (if |ps| > shown then [More(|ps| - shown)] else [])
  }

  /** What the list shows (lines 84, 89-90, 95-96): the labels carry no class and
      show the participant's label; the item after ten labels carries class "more"
      and reads "+K more" for the K participants not shown; the placeholder alone
      carries class "muted" and reads "No participants yet". */
  lemma ItemPresentation(ps: seq<Participant>)
    ensures var items := ParticipantItems(ps);
      forall i :: 0 <= i < |items| ==>
        (ItemClass(items[i]) == "more" <==> |ps| > DisplayLimit && i == DisplayLimit) &&
        (ItemClass(items[i]) == "muted" <==> |ps| == 0) &&
        (ItemClass(items[i]) == "" <==> i < |ps| && i < DisplayLimit)
    ensures var items := ParticipantItems(ps);
      forall i :: 0 <= i < |ps| && i < DisplayLimit ==> ItemText(items[i]) == ParticipantLabel(ps[i])
    ensures |ps| > DisplayLimit ==>
      ItemText(ParticipantItems(ps)[DisplayLimit]) == "+" + NatText(|ps| - DisplayLimit) + " more"
    ensures |ps| == 0 ==> ItemText(ParticipantItems(ps)[0]) == NoParticipantsText
  {
  }

  /** How many participants the items stand for: one per label, `rest` per summary,
      none for the placeholder. */
  function Accounted(items: seq<Item>): nat {
    if items == [] then 0
    else
      (match items[0] case Plain(_) => 1 case More(k) => k case Muted(_) => 0)
      + Accounted(items[1..])
  }

  lemma {:induction false} AccountedAppend(a: seq<Item>, b: seq<Item>)
    ensures Accounted(a + b) == Accounted(a) + Accounted(b)
    decreases |a|
  {
    if a != [] {
      assert (a + b)[0] == a[0];
      assert (a + b)[1..] == a[1..] + b;
      AccountedAppend(a[1..], b);
    } else {
      assert a + b == b;
    }
  }

  lemma {:induction false} AccountedLabels(ps: seq<Participant>)
    ensures Accounted(LabelItems(ps)) == |ps|
    decreases |ps|
  {
    if ps != [] {
      assert LabelItems(ps)[1..] == LabelItems(ps[1..]);
      AccountedLabels(ps[1..]);
    }
  }

  /** No participant is lost by the truncation: the labels shown plus the "+K more"
      count add up to the length of the list. */
  lemma ItemsAccountForEveryone(ps: seq<Participant>)
    ensures Accounted(ParticipantItems(ps)) == |ps|
  {
    if |ps| > 0 {
      var shown := Min(|ps|, DisplayLimit);
      var tail: seq<Item> := if |ps| > shown then [More(|ps| - shown)] else [];
      AccountedAppend(LabelItems(ps[..shown]), tail);
      AccountedLabels(ps[..shown]);
      assert Accounted(tail) == |ps| - shown by {
        if |ps| > shown { assert tail[1..] == []; }
      }
    }
  }

  /** Builds the participants list as the render pass does: one label per shown
      participant, appended in order, then the summary or the placeholder. */
  method BuildParticipantList(ps: seq<Participant>) returns (items: seq<Item>)
    ensures items == ParticipantItems(ps)
  {
    if |ps| > 0 {
      var displayCount := Min(|ps|, DisplayLimit);
      items := [];
      var i := 0;
      while i < displayCount
        invariant 0 <= i <= displayCount
        invariant items == LabelItems(ps[..i])
      {
        items := items + [Plain(ParticipantLabel(ps[i]))];
        i := i + 1;
        assert items == LabelItems(ps[..i]);
      }
      assert ps[..displayCount] == ps[..i];
      if |ps| > displayCount {
        items := items + [More(|ps| - displayCount)];
      }
    } else {
      items := [Muted(NoParticipantsText)];
    }
  }
}
