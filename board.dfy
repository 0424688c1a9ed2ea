/** The page the script drives (src/static/app.js, lines 1-171), with the DOM as
    plain data: the children of `#activities-list`, the options of the `#activity`
    select, the values of the signup form and the `#message` banner. The two
    handlers are methods: the render pass of `fetchActivities` and the submit
    handler. Network results are parameters. */
module Board {
  import opened Wrappers
  import opened Participants
  import opened Activities
  import opened Signup

  const LoadFailureText := "Failed to load activities. Please try again later."

  /** A child of `#activities-list`. */
  datatype Node = CardNode(card: Card) | Paragraph(text: string)

  /** What `fetch("/activities")` and `response.json()` gave: the body's entries in
      the order Object.entries lists them (array-index keys first, ascending, then
      the other keys in insertion order), or an exception. */
  datatype FetchResult = FetchFailed | Fetched(entries: seq<Entry>)

  /** The values the signup form's email input and activity select hold ("" for a
      missing element). */
  datatype FormValues = FormValues(email: string, activity: string)

  /** The list after a render pass that got through every entry. */
  function CardNodes(es: seq<Entry>): (nodes: seq<Node>)
    requires forall j :: 0 <= j < |es| ==> es[j].details.DRecord?
    ensures |nodes| == |es|
    ensures forall j :: 0 <= j < |es| ==> nodes[j] == CardNode(RenderCards(es)[j])
  {
    var cards := RenderCards(es);
    seq(|cards|, j requires 0 <= j < |cards| => CardNode(cards[j]))
  }

  lemma CardNodesExtend(es: seq<Entry>, i: nat)
    requires i < |es|
    requires forall j :: 0 <= j <= i ==> es[j].details.DRecord?
    ensures CardNodes(es[..i + 1]) == CardNodes(es[..i]) + [CardNode(CardFor(es[i]))]
  {
    assert es[..i + 1][i] == es[i];
  }

  lemma OptionsForExtend(es: seq<Entry>, i: nat)
    requires i < |es|
    ensures OptionsFor(es[..i + 1]) == OptionsFor(es[..i]) + [SelectOption(es[i].name, es[i].name)]
  {
    assert es[..i + 1][i] == es[i];
  }

  /** Builds one activity card as the forEach body does (lines 26-101). */
  method BuildCard(e: Entry) returns (card: Card)
    requires e.details.DRecord?
    ensures card == CardFor(e)
  {
    var details := e.details;
    var participants := NormalisedParticipants(details);
    var spotsLeft := MaxParticipants(details) - |participants|;
    var items := BuildParticipantList(participants);
    card := Card(e.name, details.description, details.schedule,
                 AvailabilityText(spotsLeft), items);
  }

  class Page {
    var activitiesList: seq<Node>
    const hasSelect: bool
    var selectOptions: seq<SelectOption>
    const hasForm: bool
    var form: FormValues
    const formDefaults: FormValues
    const hasMessage: bool
    var message: Banner

    constructor (initialList: seq<Node>, hasSelect: bool, initialOptions: seq<SelectOption>,
                 hasForm: bool, formDefaults: FormValues, hasMessage: bool, initialMessage: Banner)
      ensures activitiesList == initialList && selectOptions == initialOptions
      ensures this.hasSelect == hasSelect && this.hasForm == hasForm && this.hasMessage == hasMessage
      ensures form == formDefaults && this.formDefaults == formDefaults
      ensures message == initialMessage
    {
      activitiesList := initialList;
      this.hasSelect := hasSelect;
      selectOptions := initialOptions;
      this.hasForm := hasForm;
      form := formDefaults;
      this.formDefaults := formDefaults;
      this.hasMessage := hasMessage;
      message := initialMessage;
    }

    /** The render pass (lines 14-117). The list is cleared and gets one card per
        entry in order; each entry adds its option to the select when there is one.
        A failed fetch, or an entry whose details are null (reading a property of
        null throws; the one mid-loop throw this model represents), leaves only the
        failure paragraph in the list; options added for earlier entries stay, and
        the select is never cleared. */
    method FetchActivities(response: FetchResult)
      modifies this
      ensures response.FetchFailed? ==>
        activitiesList == [Paragraph(LoadFailureText)] && selectOptions == old(selectOptions)
      ensures response.Fetched? ==>
        var es := response.entries;
        var k := FirstNullIndex(es);
        (k == |es| ==> activitiesList == CardNodes(es)) &&
        (k < |es| ==> activitiesList == [Paragraph(LoadFailureText)]) &&
        selectOptions == old(selectOptions) + (if hasSelect then OptionsFor(es[..k]) else [])
      ensures form == old(form) && message == old(message)
    {
      if response.FetchFailed? {
        activitiesList := [Paragraph(LoadFailureText)];
        return;
      }
      var es := response.entries;
      activitiesList := [];
      var i := 0;
      while i < |es|
        invariant 0 <= i <= |es|
        invariant forall j :: 0 <= j < i ==> es[j].details.DRecord?
        invariant activitiesList == CardNodes(es[..i])
        invariant selectOptions == old(selectOptions) + (if hasSelect then OptionsFor(es[..i]) else [])
        invariant form == old(form) && message == old(message)
      {
        if es[i].details.DNull? {
          assert FirstNullIndex(es) == i;
          activitiesList := [Paragraph(LoadFailureText)];
          return;
        }
        var card := BuildCard(es[i]);
        activitiesList := activitiesList + [CardNode(card)];
        if hasSelect {
          selectOptions := selectOptions + [SelectOption(es[i].name, es[i].name)];
        }
        CardNodesExtend(es, i);
        OptionsForExtend(es, i);
        i := i + 1;
      }
      assert es[..i] == es;
      assert FirstNullIndex(es) == |es|;
    }

    /** The submit handler (lines 121-164) for a page that has the form. It builds
        the signup request from the form's values; if escaping throws, no request
        is sent and the handler reacts as to an exception. When the banner exists
        it shows the reaction and the form is reset on success; without the banner
        neither happens. The list and the select are untouched: the handler does
        not re-render. `outcome` is how the request ended when one was sent. */
    method SubmitSignup(escape: string -> Option<string>, outcome: SignupOutcome)
      returns (request: Option<string>)
      requires hasForm
      modifies this
      ensures request == SignupRequest(old(form).activity, old(form).email, escape)
      ensures hasMessage ==>
        var r := ReactionFor(if request.Some? then outcome else Threw);
        message == ShowBanner(r) && Visible(message) &&
        form == (if r.resetForm then formDefaults else old(form))
      ensures !hasMessage ==> message == old(message) && form == old(form)
      ensures activitiesList == old(activitiesList) && selectOptions == old(selectOptions)
    {
      request := SignupRequest(form.activity, form.email, escape);
      var ended := if request.Some? then outcome else Threw;
      if hasMessage {
        var r := ReactionFor(ended);
        message := ShowBanner(r);
        if r.resetForm {
          form := formDefaults;
        }
      }
    }
  }
}
