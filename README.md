# Activity board: a Dafny model of the activity renderer and signup handler

The repository's browser script (`src/static/app.js`) fetches the activity
collection, renders one card per activity with its participants, fills the
activity select, and posts signups from a form, showing the outcome in a notice
banner. This project models the deterministic part of that script with the DOM
as plain data:

- `participants.dfy` — participants as a tagged variant (null, string, record,
  other primitive), the label resolution `participantLabel`, and the participants
  list: at most ten labels in order, then a `+K more` summary, or a muted
  "No participants yet" placeholder. `BuildParticipantList` is the append loop of
  the source, proved against the specification function `ParticipantItems`.
- `activities.dfy` — normalisation of one activity's details (a non-array
  `participants` is empty, a non-finite `max_participants` is 0), the unclamped
  `spotsLeft`, the card record and the select option for each entry.
- `decimal.dfy` — the decimal text that template literals give an integer
  (`${spotsLeft} spots left`, `+${k} more`), with a parser and a round-trip proof.
- `signup.dfy` — the signup request target (none when escaping throws) and the
  handler's reaction to the three outcomes (ok response, failed response, exception), as banner text and
  class plus whether the form is reset.
- `board.dfy` — class `Page` holding the page's mutable state (list children,
  select options, form values, banner) with the render pass `FetchActivities` and
  the submit handler `SubmitSignup` as methods whose postconditions give the whole
  new state in terms of the functions above.
- `wrappers.dfy` — the `Option` type; `seqs.dfy` — the first-index search.

Behaviour of the script worth noting, all of it modelled:

- The script has no participant-removal control and sends no DELETE request, so
  there is no unregister flow to model.
- After a successful signup the script does not re-render the list.
- The banner update and the form reset both sit inside `if (messageDiv)`: without
  the `#message` element a successful signup does not reset the form.
- The render pass clears the list but never clears the select; options are only
  appended.
- If an entry's details are null, reading `details.participants` throws in the
  middle of the loop. The catch then replaces the list with the failure paragraph,
  while the options already appended for earlier entries stay in the select.

## Model

| member | source | states |
|---|---|---|
| Decimal.NatText | src/static/app.js:90 | the text of a count is non-empty, all digits, with no leading zero except for 0 |
| Decimal.IntText | src/static/app.js:55 | the text of an integer starts with '-' exactly when it is negative |
| Decimal.IntTextRoundTrip | src/static/app.js:55 | parsing the printed integer gives the integer back |
| Decimal.IntTextInjective | src/static/app.js:55 | distinct spot counts print as distinct texts |
| Participants.FirstTruthyIndex | src/static/app.js:75 | the logical-or chain of label fields stops at the first truthy operand: every earlier one is falsy |
| Participants.LabelResolution | src/static/app.js:71-78 | null gives "Unknown", a string is returned unchanged, a record gives its first truthy field of name, full_name, email, username, else String(id) for a truthy id, else its serialised form |
| Participants.LabelItems | src/static/app.js:82-86 | one label item per participant, in the participants' order |
| Participants.ParticipantItems | src/static/app.js:80-98 | empty list gives exactly the muted placeholder; otherwise min(n,10) labels in order, total count min(n,10) + (1 if n > 10), and a `More(n-10)` item at position 10 exactly when n > 10 |
| Participants.ItemPresentation | src/static/app.js:83-97 | labels carry no class and show the participant's label; only the item after ten labels has class "more" and reads "+K more" for the K not shown; only the placeholder has class "muted" and reads "No participants yet" |
| Participants.ItemsAccountForEveryone | src/static/app.js:80-92 | the labels shown plus the "+K more" count add up to the number of participants |
| Participants.BuildParticipantList | src/static/app.js:80-98 | the append loop produces exactly the specified item list |
| Activities.SpotsLeft | src/static/app.js:30-34 | spots left plus normalised participant count equals normalised capacity; negative exactly when over-subscribed; non-array participants count as none; non-finite capacity counts as 0 |
| Activities.CardShowsCapacity | src/static/app.js:34-57 | the card is titled with the entry name, its "N spots left" text reads back as capacity minus participants, and listed participants plus spots left equal capacity |
| Activities.FirstNullIndex | src/static/app.js:25-30 | the loop throws at the first entry whose details are null; all earlier entries can be read |
| Activities.RenderCards | src/static/app.js:25-103 | one card per entry, in entry order, each titled with the entry name |
| Activities.OptionsFor | src/static/app.js:105-111 | one option per entry, in entry order, with value and text both the entry name |
| Board.CardNodes | src/static/app.js:22-103 | the cleared list holds exactly one card node per entry, in order |
| Board.BuildCard | src/static/app.js:26-101 | the forEach body builds the specified card for the entry |
| Board.Page.constructor | src/static/app.js:2-5 | the page starts with the given elements and contents |
| Board.Page.FetchActivities | src/static/app.js:14-117 | a fetch failure leaves only the failure paragraph; otherwise the list is cleared and holds one card per entry in order, or only the failure paragraph if an entry's details are null; options for the entries processed are appended to the select when it exists; form and banner unchanged |
| Board.Page.SubmitSignup | src/static/app.js:121-164 | the request goes to the target built from the form values, and none is sent when escaping throws, which then reacts as an exception; with a banner, the banner shows the outcome's reaction and is visible, and the form is reset exactly on success; without one nothing changes; the list and select are never touched |
| Signup.SignupRequest | src/static/app.js:129-131 | a request is built exactly when both the activity name and the email can be escaped |
| Signup.SignupRequestRoundTrip | src/static/app.js:130-131 | the request target splits back into the escaped activity and email when the escaped activity holds no '/' |
| Signup.ReactionFor | src/static/app.js:139-161 | class "success" exactly for an ok response, and only then a form reset; an ok response shows result.message; a failed one shows result.detail when truthy, else "An error occurred"; an exception shows "Failed to sign up. Please try again."; an error banner is empty exactly when a failed response's truthy detail prints as empty |
| Signup.ShowBanner | src/static/app.js:141-144 | after the update the banner shows the text, has the class as its only class, and is visible |

## Left out

- The `setTimeout` calls that hide the banner after 5 seconds are timing, not state; the model stops at the visible banner.
- The asynchronous, event-driven flow (handlers racing, awaits interleaving) is not modelled; each handler is one atomic method.
- `fetch`, `response.json()` and console logging are I/O: the outcome of each request is a parameter (`FetchResult`, `SignupOutcome`), where an exception from either call is the failure variant.
- `encodeURIComponent` is a parameter `escape` of the target function; `JSON.stringify` of a participant record is a field `json` the host supplies; neither is interpreted.
- `Number(...)` and `Number.isFinite` are floating point: `max_participants` arrives already coerced as an `Option<int>`, so a fractional capacity is not modelled.
- The order of entries is the order Object.entries gives (array-index keys first, ascending), which the host supplies; it is not derived from the body's text.
- Decimal.IntText: does not model JavaScript's exponent notation for magnitudes of 1e21 or more, nor non-integral numbers.
- Participant record fields, `details.description` and `details.schedule` are texts with "" standing for every falsy value; a truthy value whose text is empty (such as `[""]`) is not distinguished from a falsy one. The signup body's `message` is the text textContent shows ("" when absent or null); its `detail` keeps truthiness apart as an `Option`.
- Board.Page.FetchActivities: the activity value the form reads is a separate field from the select's options, although both are the one `#activity` element. The model assumes the page's select starts with a pre-selected placeholder option, so appending options does not change the selected value.
- Board.Page.SubmitSignup: form reset restores the fixed `formDefaults`; the model assumes the select's default option is that pre-selected placeholder and does not depend on the appended options.
- Activities.SpotsLeft: the subtraction is exact on integers; the script subtracts doubles, which round once a magnitude reaches 2^53.
- Strings are sequences of Unicode scalar values, so names and emails holding a lone surrogate (on which `encodeURIComponent` throws) are outside the model's domain; the escaping failure itself is modelled through `escape` returning None.
- The render loop's only modelled throw is a null `details`. `Number(...)`, `String(p.id)` and the `textContent` assignments also throw a TypeError on a JSON record whose `toString`/`valueOf` keys are not functions; that mid-loop throw is not modelled.
- The fixed markup of a card (its class "activity-card", the "Schedule:", "Availability:" and "Participants:" headings) is constant and not part of the `Card` record.
- The early return when `#activities-list` is missing (lines 8-11) and the warning when the form is missing (lines 165-166) are start-up plumbing; `Page` assumes the list exists.
- `tests/test_app.py` exercises the backend server, which is not part of this model.
