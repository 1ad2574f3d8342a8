/**
 * The shorten form (`UrlShortener`): its six state fields and the submit
 * handler `generateShortUrl`, a fixed sequence of checks with early returns
 * followed by one request. The session token, the configured base URL and
 * endpoint, the browser's URL parser and the server's answer are inputs:
 * `validUrl` stands for "`new URL(s)` does not throw", and `Outcome` for
 * what `fetch` and `response.json()` produced.
 */
module Shortener {
  import opened Common
  import opened Api

  const RegisterPath: string := "/register"
  const EmptyUrlMessage: string := "Please enter a URL to shorten"
  const InvalidUrlMessage: string := "Please enter a valid URL (e.g., https://example.com)"
  const MissingCodeMessage: string := "Backend response missing short code. Check console for details."
  const FailedMessage: string := "Failed to shorten URL"
  const NetworkMessage: string := "Network error. Please check your connection."
  const SuccessMessage: string := "URL shortened successfully!"

  /** What the request produced: a throw (no connection, or a body that is not JSON), or a response. */
  datatype Outcome =
    | Threw
    | Responded(ok: bool, shortUrl: Option<string>, message: Option<string>)

  /** The POST the handler sends: its URL, headers and JSON body. */
  datatype Request = Request(url: string, headers: map<string, string>, originalUrl: string, customAlias: Option<string>)

  /** The form's state fields. */
  datatype Form = Form(
    originalUrl: string,
    customAlias: string,
    shortUrl: string,
    loading: bool,
    error: string,
    success: string)

  /** One submit: the new form, the request sent (if any) and the navigation (if any). */
  datatype Step = Step(form: Form, request: Option<Request>, navigate: Option<string>)

  /** The state a mounted form starts in. */
  const InitialForm: Form := Form("", "", "", false, "", "")

  /** The three local checks pass and a request goes out. */
  predicate Sends(f: Form, token: Option<string>, validUrl: string -> bool) {
    Truthy(token) && f.originalUrl != "" && validUrl(f.originalUrl)
  }

  /** The request body's alias: the field's value, or null when the field is empty. */
  function AliasField(alias: string): (a: Option<string>)
    ensures a.None? <==> alias == ""
    ensures a.Some? ==> a.value == alias
  {
    if alias == "" then None else Some(alias)
  }

  /** How the answer settles the form, once the request has gone out (before `finally`). */
  function Settle(f: Form, baseUrl: string, outcome: Outcome): Form {
    match outcome
    case Threw => f.(error := NetworkMessage)
    case Responded(ok, code, message) =>
      if ok then
        if !Truthy(code) then f.(error := MissingCodeMessage)
        else f.(shortUrl := baseUrl + "/" + code.value, success := SuccessMessage, originalUrl := "", customAlias := "")
      else f.(error := if Truthy(message) then message.value else FailedMessage)
  }

  /** `generateShortUrl` on the form `f`, as one step from the old state to the new. */
  function Submit(f: Form, token: Option<string>, baseUrl: string, endpoint: string,
                  validUrl: string -> bool, outcome: Outcome): Step
  {
    var reset := f.(loading := true, error := "", success := "", shortUrl := "");
    if !Truthy(token) then Step(reset.(loading := false), None, Some(RegisterPath))
    else if f.originalUrl == "" then Step(reset.(error := EmptyUrlMessage, loading := false), None, None)
    else if !validUrl(f.originalUrl) then Step(reset.(error := InvalidUrlMessage, loading := false), None, None)
    else
      var request := Request(BuildApiUrl(baseUrl, endpoint), AuthHeaders(token), f.originalUrl, AliasField(f.customAlias));
      Step(Settle(reset, baseUrl, outcome).(loading := false), Some(request), None)
  }

  /**
   * Every exit leaves `loading` false, and the three output fields are reset
   * before any check: a failed submit never keeps an old short URL or
   * success text.
   */
  lemma SubmitSettles(f: Form, token: Option<string>, baseUrl: string, endpoint: string,
                      validUrl: string -> bool, outcome: Outcome)
    ensures var s := Submit(f, token, baseUrl, endpoint, validUrl, outcome).form;
      && !s.loading
      && (s.error != "" ==> s.success == "" && s.shortUrl == "")
      && (s.success != "" ==> s.error == "")
  {
  }

  /**
   * The checks run in the order token, emptiness, parse: exactly the first
   * that fails decides the outcome; no request goes out unless all pass,
   * and only a missing token navigates (to "/register", with no error).
   */
  lemma SubmitChecks(f: Form, token: Option<string>, baseUrl: string, endpoint: string,
                     validUrl: string -> bool, outcome: Outcome)
    ensures var st := Submit(f, token, baseUrl, endpoint, validUrl, outcome);
      && (st.request.Some? <==> Sends(f, token, validUrl))
      && (st.navigate.Some? <==> !Truthy(token))
      && (!Truthy(token) ==> st.navigate == Some(RegisterPath) && st.form.error == "")
      && (Truthy(token) && f.originalUrl == "" ==> st.form.error == EmptyUrlMessage)
      && (Truthy(token) && f.originalUrl != "" && !validUrl(f.originalUrl) ==> st.form.error == InvalidUrlMessage)
      && (!Sends(f, token, validUrl) ==> st.form.originalUrl == f.originalUrl && st.form.customAlias == f.customAlias)
  {
  }

  /**
   * The request that goes out: a POST to base URL + endpoint with the
   * bearer headers of the token, carrying the URL field and the alias field,
   * an empty alias sent as null.
   */
  lemma SubmitRequest(f: Form, token: Option<string>, baseUrl: string, endpoint: string,
                      validUrl: string -> bool, outcome: Outcome)
    requires Sends(f, token, validUrl)
    ensures var r := Submit(f, token, baseUrl, endpoint, validUrl, outcome).request;
      && r.Some?
      && r.value.url == baseUrl + endpoint
      && r.value.headers[Authorization] == "Bearer " + token.value
      && r.value.originalUrl == f.originalUrl
      && (r.value.customAlias.None? <==> f.customAlias == "")
      && (r.value.customAlias.Some? ==> r.value.customAlias.value == f.customAlias)
  {
  }

  /**
   * An ok answer with a truthy code c: the short URL is base URL + "/" + c,
   * the success text is set, and both inputs are cleared. This is the only
   * way the form ever shows a short URL.
   */
  lemma SubmitSucceeds(f: Form, token: Option<string>, baseUrl: string, endpoint: string,
                       validUrl: string -> bool, outcome: Outcome)
    ensures var s := Submit(f, token, baseUrl, endpoint, validUrl, outcome).form;
      s.shortUrl != "" <==> Sends(f, token, validUrl) && outcome.Responded? && outcome.ok && Truthy(outcome.shortUrl)
    ensures var s := Submit(f, token, baseUrl, endpoint, validUrl, outcome).form;
      Sends(f, token, validUrl) && outcome.Responded? && outcome.ok && Truthy(outcome.shortUrl) ==>
        && s.shortUrl == baseUrl + "/" + outcome.shortUrl.value
        && s.success == SuccessMessage && s.error == ""
        && s.originalUrl == "" && s.customAlias == ""
  {
  }

  /**
   * The other answers: an ok answer without a code reports the missing
   * code; a failed answer reports the server's message, or a fixed text
   * when it has none; a throw reports a network error. None of them clears
   * the inputs.
   */
  lemma SubmitFails(f: Form, token: Option<string>, baseUrl: string, endpoint: string,
                    validUrl: string -> bool, outcome: Outcome)
    requires Sends(f, token, validUrl)
    ensures var s := Submit(f, token, baseUrl, endpoint, validUrl, outcome).form;
      && (outcome.Threw? ==> s.error == NetworkMessage)
      && (outcome.Responded? && outcome.ok && !Truthy(outcome.shortUrl) ==> s.error == MissingCodeMessage)
      && (outcome.Responded? && !outcome.ok ==>
            s.error == (if Truthy(outcome.message) then outcome.message.value else FailedMessage))
      && (s.error != "" ==> s.originalUrl == f.originalUrl && s.customAlias == f.customAlias)
  {
  }

  /** The mounted form: its fields, and the requests and navigations it has issued so far. */
  class UrlShortener {
    var originalUrl: string
    var customAlias: string
    var shortUrl: string
    var loading: bool
    var error: string
    var success: string
    var sent: seq<Request>
    var navigations: seq<string>

    function State(): (f: Form)
      reads this
    {
      Form(originalUrl, customAlias, shortUrl, loading, error, success)
    }

    constructor ()
      ensures State() == InitialForm && sent == [] && navigations == []
    {
      originalUrl, customAlias, shortUrl := "", "", "";
      loading, error, success := false, "", "";
      sent, navigations := [], [];
    }

    /**
     * `generateShortUrl`: moves the form as `Submit` says, records the
     * request if one goes out and the navigation if one happens.
     */
    method GenerateShortUrl(token: Option<string>, baseUrl: string, endpoint: string,
                            validUrl: string -> bool, outcome: Outcome)
      modifies this
      ensures var st := Submit(old(State()), token, baseUrl, endpoint, validUrl, outcome);
        && State() == st.form
        && sent == old(sent) + (if st.request.Some? then [st.request.value] else [])
        && navigations == old(navigations) + (if st.navigate.Some? then [st.navigate.value] else [])
    {
      loading := true;
      error := "";
      success := "";
      shortUrl := "";

      if !Truthy(token) {
        navigations := navigations + [RegisterPath];
        loading := false;
        return;
      }

      if originalUrl == "" {
        error := EmptyUrlMessage;
        loading := false;
        return;
      }

      if !validUrl(originalUrl) {
        error := InvalidUrlMessage;
        loading := false;
        return;
      }

      var alias := if customAlias == "" then None else Some(customAlias);
      sent := sent + [Request(BuildApiUrl(baseUrl, endpoint), AuthHeaders(token), originalUrl, alias)];
      match outcome {
        case Threw =>
          error := NetworkMessage;
        case Responded(ok, code, message) =>
          if ok {
            if !Truthy(code) {
              error := MissingCodeMessage;
              loading := false;
              return;
            }
            shortUrl := baseUrl + "/" + code.value;
            success := SuccessMessage;
            originalUrl := "";
            customAlias := "";
          } else {
            error := if Truthy(message) then message.value else FailedMessage;
          }
      }
      loading := false;
    }
  }
}
