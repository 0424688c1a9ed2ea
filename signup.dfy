/** The signup submit handler's deterministic parts (src/static/app.js, lines
    124-161): the request target it builds and the notice banner it shows for each
    of the three outcomes of the request. */
module Signup {
  import opened Wrappers
  import opened Seqs

  const TargetPrefix := "/activities/"
  const TargetInfix := "/signup?email="
  const FallbackErrorText := "An error occurred"
  const NetworkErrorText := "Failed to sign up. Please try again."
  const SuccessClass := "success"
  const ErrorClass := "error"
  const HiddenClass := "hidden"

  /** How the POST request ended: a response whose JSON body was read, or an
      exception from fetch or from parsing the body. `ok` is response.ok;
      `message` is the text textContent shows for result.message ("" when absent
      or null); `detail` is Some(text shown) when result.detail is truthy and None
      when it is falsy. */
  datatype SignupOutcome =
    | Responded(ok: bool, message: string, detail: Option<string>)
    | Threw

  /** What the handler does to the page: the banner text and class, and whether the
      form is reset. */
  datatype Reaction = Reaction(text: string, cls: string, resetForm: bool)

  /** The notice banner: its text and its set of classes. */
  datatype Banner = Banner(text: string, classes: set<string>)

  predicate Visible(b: Banner) {
    HiddenClass !in b.classes
  }

  /** The request target: activity name and email, each escaped by the host's
      encodeURIComponent (`escape`), placed into the signup path. Escaping fails
      (None) where encodeURIComponent throws; then no request is sent. */
  function SignupRequest(activity: string, email: string, escape: string -> Option<string>)
    : (t: Option<string>)
    ensures t.Some? <==> escape(activity).Some? && escape(email).Some?
  {
    match (escape(activity), escape(email))
    case (Some(a), Some(e)) => Some(TargetPrefix + a + TargetInfix + e)
    case _ => None
  }

  /** Index of the first `c` in `s`, or |s| if there is none. */
  function IndexOf(s: string, c: char): (k: nat)
    ensures k <= |s|
    ensures forall j :: 0 <= j < k ==> s[j] != c
    ensures k < |s| ==> s[k] == c
  {
    FirstIndex(s, (x: char) => x == c)
  }

  /** Splits a signup target back into its escaped activity and email parts. */
  function ParseSignupTarget(t: string): Option<(string, string)> {
    if |t| < |TargetPrefix| || t[..|TargetPrefix|] != TargetPrefix then None
    else
      var rest := t[|TargetPrefix|..];
      var k := IndexOf(rest, '/');
      var tail := rest[k..];
      if |tail| < |TargetInfix| || tail[..|TargetInfix|] != TargetInfix then None
      else Some((rest[..k], tail[|TargetInfix|..]))
  }

  /** The target determines both escaped parts, provided the escaped activity name
      holds no '/', which encodeURIComponent never leaves unescaped. */
  lemma SignupRequestRoundTrip(activity: string, email: string, escape: string -> Option<string>)
    requires escape(activity).Some? && escape(email).Some?
    requires '/' !in escape(activity).value
    ensures SignupRequest(activity, email, escape).Some?
    ensures ParseSignupTarget(SignupRequest(activity, email, escape).value)
            == Some((escape(activity).value, escape(email).value))
  {
    var a, e := escape(activity).value, escape(email).value;
    var t := SignupRequest(activity, email, escape).value;
    assert t == TargetPrefix + a + TargetInfix + e;
    assert t[..|TargetPrefix|] == TargetPrefix;
    var rest := t[|TargetPrefix|..];
    assert rest == a + TargetInfix + e;
    var k := IndexOf(rest, '/');
    assert rest[|a|] == '/';
    assert k == |a|;
    assert rest[..k] == a;
    assert rest[k..] == TargetInfix + e;
  }

  /** The handler's reaction to an outcome (lines 139-161). The banner shows
      success exactly for an ok response, and only then is the form reset. A
      failed response shows the server's truthy detail verbatim, else the generic
      text; an error banner is empty only when the server sent a truthy detail
      that prints as empty text. */
  function ReactionFor(o: SignupOutcome): (r: Reaction)
    ensures r.cls == SuccessClass <==> o.Responded? && o.ok
    ensures r.cls != SuccessClass ==> r.cls == ErrorClass
    ensures r.resetForm <==> r.cls == SuccessClass
    ensures o.Responded? && o.ok ==> r.text == o.message
    ensures o.Responded? && !o.ok && o.detail.Some? ==> r.text == o.detail.value
    ensures o.Responded? && !o.ok && o.detail.None? ==> r.text == FallbackErrorText
    ensures o.Threw? ==> r.text == NetworkErrorText
    ensures r.cls == ErrorClass && r.text == "" <==> o.Responded? && !o.ok && o.detail == Some("")
  {
    match o
    case Responded(ok, message, detail) =>
      if ok then Reaction(message, SuccessClass, true)
      else Reaction(detail.GetOr(FallbackErrorText), ErrorClass, false)
    case Threw => Reaction(NetworkErrorText, ErrorClass, false)
  }

  /** The banner after `textContent`, `className` and `classList.remove("hidden")`:
      the reaction's text, its class as the only class, and visible. */
  function ShowBanner(r: Reaction): (b: Banner)
    requires r.cls != HiddenClass
    ensures Visible(b) && b.text == r.text && b.classes == {r.cls}
  {
    Banner(r.text, {r.cls} - {HiddenClass})
  }
}
