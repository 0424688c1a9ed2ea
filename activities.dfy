/** The per-activity card the render pass builds (src/static/app.js, lines 25-111):
    normalisation of the server's values, the unclamped spots-left count, the card
    record and the matching select option. */
module Activities {
  import opened Wrappers
  import opened Decimal
  import opened Participants
  import opened Seqs

  /** The `details` value of one activity entry. Reading a property of null or
      undefined throws, so `DNull` is kept apart; it is the only throw inside the
      render loop that the model represents. Any other value is a record:
      `description` and `schedule` hold the text shown ("" for a falsy value),
      `participants` is None when the value is not an array, and
      `maxParticipants` is None when Number(max_participants) is not finite. A
      non-record value (a number, a string) reads as a record with every field
      absent. */
  datatype Details =
    | DNull
    | DRecord(description: string, schedule: string,
              participants: Option<seq<Participant>>, maxParticipants: Option<int>)

  /** One `[name, details]` pair of Object.entries(activities); a sequence of them
      is in Object.entries order (array-index keys first, ascending, then the other
      keys in insertion order). */
  datatype Entry = Entry(name: string, details: Details)

  /** The activity card: title, description, schedule, availability text and the
      items of its participants list. */
  datatype Card = Card(title: string, description: string, schedule: string,
                       availability: string, items: seq<Item>)

  /** One `<option>` of the activity select. */
  datatype SelectOption = SelectOption(value: string, text: string)

  const SpotsSuffix := " spots left"

  /** Participants normalised: a non-array value counts as no participants. */
  function NormalisedParticipants(d: Details): seq<Participant>
    requires d.DRecord?
  {
    d.participants.GetOr([])
  }

  /** Capacity normalised: a non-finite value counts as 0. */
  function MaxParticipants(d: Details): int
    requires d.DRecord?
  {
    d.maxParticipants.GetOr(0)
  }

  /** Capacity minus the normalised participant count, not clamped: it is negative
      exactly when the activity is over-subscribed. */
  function SpotsLeft(d: Details): (spots: int)
    requires d.DRecord?
    ensures spots + |NormalisedParticipants(d)| == MaxParticipants(d)
    ensures spots < 0 <==> |NormalisedParticipants(d)| > MaxParticipants(d)
    ensures d.participants.None? ==> spots == MaxParticipants(d)
    ensures d.maxParticipants.None? ==> spots == -|NormalisedParticipants(d)|
  {
    MaxParticipants(d) - |NormalisedParticipants(d)|
  }

  /** The "N spots left" text. */
  function AvailabilityText(spots: int): string {
    IntText(spots) + SpotsSuffix
  }

  /** Reads the number back out of an availability text. */
  function ParseAvailability(t: string): Option<int> {
    if |t| >= |SpotsSuffix| && t[|t| - |SpotsSuffix|..] == SpotsSuffix
    then ParseInt(t[..|t| - |SpotsSuffix|])
    else None
  }

  /** The card for one entry whose details can be read (lines 26-101). */
  function CardFor(e: Entry): Card
    requires e.details.DRecord?
  {
    var d := e.details;
    Card(e.name, d.description, d.schedule, AvailabilityText(SpotsLeft(d)),
         ParticipantItems(NormalisedParticipants(d)))
  }

  /** The numbers a card shows are those of its activity: the availability text
      reads back as capacity minus participants, and the participants listed plus
      the spots left add up to the normalised capacity. */
  lemma CardShowsCapacity(e: Entry)
    requires e.details.DRecord?
    ensures ParseAvailability(CardFor(e).availability) == Some(SpotsLeft(e.details))
    ensures Accounted(CardFor(e).items) + SpotsLeft(e.details) == MaxParticipants(e.details)
    ensures CardFor(e).title == e.name
  {
    var t := CardFor(e).availability;
    var digits := IntText(SpotsLeft(e.details));
    assert t[|t| - |SpotsSuffix|..] == SpotsSuffix;
    assert t[..|t| - |SpotsSuffix|] == digits;
    IntTextRoundTrip(SpotsLeft(e.details));
    ItemsAccountForEveryone(NormalisedParticipants(e.details));
  }

  /** Index of the first entry whose details are null: the point at which the
      forEach throws, or |es| when none is. */
  function FirstNullIndex(es: seq<Entry>): (k: nat)
    ensures k <= |es|
    ensures forall j :: 0 <= j < k ==> es[j].details.DRecord?
    ensures k < |es| ==> es[k].details.DNull?
  {
    FirstIndex(es, (e: Entry) => e.details.DNull?)
  }

  /** One card per entry, in entry order, each titled with the entry's name. */
  function RenderCards(es: seq<Entry>): (cards: seq<Card>)
    requires forall j :: 0 <= j < |es| ==> es[j].details.DRecord?
    ensures |cards| == |es|
    ensures forall j :: 0 <= j < |es| ==> cards[j] == CardFor(es[j]) && cards[j].title == es[j].name
  {
    seq(|es|, j requires 0 <= j < |es| => CardFor(es[j]))
  }

  /** One option per entry, in entry order, with value and text both the name. */
  function OptionsFor(es: seq<Entry>): (opts: seq<SelectOption>)
    ensures |opts| == |es|
    ensures forall j :: 0 <= j < |es| ==> opts[j].value == es[j].name && opts[j].text == es[j].name
  {
    seq(|es|, j requires 0 <= j < |es| => SelectOption(es[j].name, es[j].name))
  }
}
