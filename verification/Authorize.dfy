/** The authorization endpoint and its two detours: the login page and the consent page,
    each of which sends the browser back to the endpoint. */
module Authorize {
  import opened Text
  import Scopes

  /** A parsed query. prompt and login_hint are lists of values, as url.Values holds them. */
  datatype Query = Query(
    prompt: seq<string>, loginHint: seq<string>,
    clientId: string, responseType: string, redirectUri: string, scope: string, state: string,
    codeChallenge: string, codeChallengeMethod: string)

  datatype Client = Client(
    registered: bool, requireConsent: bool, requirePkce: bool,
    grantTypes: seq<string>, scopes: seq<string>, redirectUris: seq<string>)

  /** browser: from the session cookie, by a browser login, no capability. predates: from
      before its subject's revocation. */
  datatype Session = Session(subject: string, email: string, browser: bool, predates: bool)

  datatype Option<+T> = None | Some(value: T)

  /** What the flow runs against: who is signed in, and the scopes each subject has allowed
      each client at each redirect. */
  datatype World = World(session: Option<Session>, consents: map<(string, string, string), set<string>>)

  datatype Outcome =
    | Code(subject: string)
    | HttpError
    | ErrorRedirect(code: string)
    | ToLogin(back: Query, upstream: seq<string>, hint: string)
    | ConsentPage(subject: string, query: Query)

  function First(values: seq<string>): string { if values == [] then "" else values[0] }

  function Prompt(q: Query): seq<string> { Fields(First(q.prompt)) }

  function Hint(q: Query): string { First(q.loginHint) }

  function RequestedScopes(q: Query): set<string> {
    set i | 0 <= i < |Fields(q.scope)| && Fields(q.scope)[i] in Scopes.SUPPORTED :: Fields(q.scope)[i]
  }

  function Without(values: seq<string>, drop: set<string>): seq<string> {
    if values == [] then []
    else (if values[0] in drop then [] else [values[0]]) + Without(values[1..], drop)
  }

  lemma {:induction false} WithoutMembers(values: seq<string>, drop: set<string>)
    ensures forall v :: v in Without(values, drop) <==> v in values && v !in drop
  {
    if values != [] { WithoutMembers(values[1..], drop); }
  }

  function WithoutPrompt(q: Query, drop: set<string>): Query {
    var kept := Without(Prompt(q), drop);
    q.(prompt := if kept == [] then [] else [JoinSpace(kept)])
  }

  /** withoutPrompt: the copy and its edit. */
  method RemovePrompts(q: Query, drop: set<string>) returns (out: Query)
    ensures out == WithoutPrompt(q, drop)
  {
    out := q;
    var kept := Keep(Prompt(q), drop);
    if |kept| == 0 { out := out.(prompt := []); } else { out := out.(prompt := [JoinSpace(kept)]); }
  }

  method Keep(values: seq<string>, drop: set<string>) returns (kept: seq<string>)
    ensures kept == Without(values, drop)
  {
    kept := [];
    for i := 0 to |values|
      invariant kept + Without(values[i..], drop) == Without(values, drop)
    {
      if values[i] !in drop { kept := kept + [values[i]]; }
      assert values[i..][1..] == values[i + 1..];
    }
  }

  /** What is left of the prompt is exactly its values that were not dropped, in order. */
  lemma PromptWithout(q: Query, drop: set<string>)
    ensures Prompt(WithoutPrompt(q, drop)) == Without(Prompt(q), drop)
    ensures forall v :: v in Prompt(WithoutPrompt(q, drop)) <==> v in Prompt(q) && v !in drop
  {
    var kept := Without(Prompt(q), drop);
    WithoutMembers(Prompt(q), drop);
    forall i | 0 <= i < |kept| ensures IsWord(kept[i]) {
      assert kept[i] in Prompt(q);
    }
    FieldsOfJoin(kept);
  }

  const LOGIN_PROMPTS: set<string> := {"login", "select_account", "none"}

  /** authorizeLoginURL: the return query, and what goes on to the login page. */
  function LoginDetour(q: Query, prompt: seq<string>): Outcome {
    ToLogin(LoginBack(q), Upstream(prompt), Hint(q))
  }

  function LoginBack(q: Query): Query { WithoutPrompt(q, LOGIN_PROMPTS).(loginHint := []) }

  /** Only what the provider can act on goes upstream. */
  function Upstream(prompt: seq<string>): seq<string> {
    if prompt == [] then []
    else (if prompt[0] == "login" || prompt[0] == "select_account" then [prompt[0]] else []) + Upstream(prompt[1..])
  }

  /** The parameter checks that come before authentication. */
  predicate Acceptable(c: Client, q: Query) {
    && q.clientId != "" && q.responseType == "code" && c.registered
    && (c.grantTypes == [] || "authorization_code" in c.grantTypes)
    && (c.scopes == [] || forall s :: s in Split(' ', q.scope) && s != "" ==> s in c.scopes)
    && (c.requirePkce ==> q.codeChallenge != "")
    && (q.codeChallenge != "" ==> q.codeChallengeMethod == "S256")
    && q.redirectUri in c.redirectUris
  }

  predicate Covered(w: World, subject: string, q: Query) {
    var key := (subject, q.clientId, q.redirectUri);
    key in w.consents && RequestedScopes(q) <= w.consents[key]
  }

  /** equalFold is the case-insensitive comparison of email addresses. */
  predicate MatchesHint(s: Session, hint: string, equalFold: (string, string) -> bool) {
    (s.email != "" && equalFold(s.email, hint)) || (s.subject != "" && s.subject == hint)
  }

  /** Who counts as signed in: a client that needs consent gets a code only from a browser
      session. */
  predicate SignedIn(w: World, c: Client) {
    w.session.Some? && (c.requireConsent ==> w.session.value.browser)
  }

  predicate WantsLogin(s: Session, q: Query, equalFold: (string, string) -> bool) {
    "login" in Prompt(q) || "select_account" in Prompt(q) || (Hint(q) != "" && !MatchesHint(s, Hint(q), equalFold))
  }

  /** AuthorizeHandler, in its order of decisions. */
  function Visit(w: World, c: Client, q: Query, equalFold: (string, string) -> bool): Outcome {
    if !Acceptable(c, q) then HttpError
    else
      var prompt := Prompt(q);
      var silent := "none" in prompt;
      if silent && |prompt| > 1 then ErrorRedirect("invalid_request")
      else if !SignedIn(w, c) then if silent then ErrorRedirect("login_required") else LoginDetour(q, prompt)
      else
        var s := w.session.value;
        if s.subject == "" then HttpError
        else
          var covered := c.requireConsent ==> Covered(w, s.subject, q);
          if !covered && silent then ErrorRedirect("consent_required")
          else if WantsLogin(s, q, equalFold) then if silent then ErrorRedirect("login_required") else LoginDetour(q, prompt)
          else if s.predates then if silent then ErrorRedirect("login_required") else LoginDetour(q, prompt + ["login"])
          else if c.requireConsent && (!covered || "consent" in prompt) then ConsentPage(s.subject, q)
          else Code(s.subject)
  }

  // ------------------------------------------------------------ what a visit answers

  /** The words of the request's prompt. */
  function Words(q: Query): seq<string> { Fields(if q.prompt == [] then "" else q.prompt[0]) }

  /** The account the request hints at, "" for none. */
  function Hinted(q: Query): string { if q.loginHint == [] then "" else q.loginHint[0] }

  /** The subject has allowed the client, at this redirect, every supported scope requested. */
  predicate Consented(w: World, subject: string, q: Query) {
    (subject, q.clientId, q.redirectUri) in w.consents
    && forall s :: s in Fields(q.scope) && s in Scopes.SUPPORTED ==> s in w.consents[(subject, q.clientId, q.redirectUri)]
  }

  lemma CoveredIff(w: World, subject: string, q: Query)
    ensures Covered(w, subject, q) <==> Consented(w, subject, q)
  {
    var words := Fields(q.scope);
    forall s ensures s in RequestedScopes(q) <==> s in words && s in Scopes.SUPPORTED {
      if s in words && s in Scopes.SUPPORTED {
        var i :| 0 <= i < |words| && words[i] == s;
      }
    }
  }

  /** A visit issues a code, to the session's subject, if and only if the parameters are in
      order, somebody counts as signed in, no fresh login is asked for, the hint is empty or
      names the session's account, the session does not predate a revocation, and a client that
      needs consent has it and does not ask for it again. */
  lemma CodeIff(w: World, c: Client, q: Query, equalFold: (string, string) -> bool)
    ensures Visit(w, c, q, equalFold).Code? <==>
      && q.clientId != "" && q.responseType == "code" && c.registered
      && (c.grantTypes == [] || "authorization_code" in c.grantTypes)
      && (c.scopes == [] || forall s :: s in Split(' ', q.scope) && s != "" ==> s in c.scopes)
      && (c.requirePkce ==> q.codeChallenge != "")
      && (q.codeChallenge != "" ==> q.codeChallengeMethod == "S256")
      && q.redirectUri in c.redirectUris
      && ("none" in Words(q) ==> |Words(q)| == 1)
      && w.session.Some? && (c.requireConsent ==> w.session.value.browser)
      && var s := w.session.value;
      && s.subject != "" && !s.predates
      && "login" !in Words(q) && "select_account" !in Words(q)
      && (Hinted(q) == "" || (s.email != "" && equalFold(s.email, Hinted(q))) || s.subject == Hinted(q))
      && (c.requireConsent ==> Consented(w, s.subject, q) && "consent" !in Words(q))
    ensures Visit(w, c, q, equalFold).Code? ==> Visit(w, c, q, equalFold) == Code(w.session.value.subject)
  {
    if w.session.Some? { CoveredIff(w, w.session.value.subject, q); }
    assert "none" in Prompt(q) ==> |Prompt(q)| >= 1;
  }

  /** Somebody a code could go to is signed in. */
  predicate Present(w: World, c: Client) {
    w.session.Some? && (c.requireConsent ==> w.session.value.browser)
  }

  /** The session is not the one the request asks for. */
  predicate Unsuitable(s: Session, q: Query, equalFold: (string, string) -> bool) {
    || "login" in Words(q) || "select_account" in Words(q) || s.predates
    || (Hinted(q) != "" && !(s.email != "" && equalFold(s.email, Hinted(q))) && s.subject != Hinted(q))
  }

  /** A visit goes to the login page if and only if it may show one and nobody is signed in, or
      somebody who is not whom the request asks for. */
  lemma ToLoginIff(w: World, c: Client, q: Query, equalFold: (string, string) -> bool)
    ensures Visit(w, c, q, equalFold).ToLogin? <==>
      && Acceptable(c, q) && "none" !in Words(q)
      && (!Present(w, c) || (w.session.value.subject != "" && Unsuitable(w.session.value, q, equalFold)))
  {
  }

  /** And to the consent page if and only if it may show one, the session is the right one and
      consent is missing or asked for. */
  lemma ConsentPageIff(w: World, c: Client, q: Query, equalFold: (string, string) -> bool)
    ensures Visit(w, c, q, equalFold).ConsentPage? <==>
      && Acceptable(c, q) && "none" !in Words(q) && c.requireConsent && Present(w, c)
      && w.session.value.subject != "" && !Unsuitable(w.session.value, q, equalFold)
      && (!Consented(w, w.session.value.subject, q) || "consent" in Words(q))
    ensures Visit(w, c, q, equalFold).ConsentPage? ==> Visit(w, c, q, equalFold) == ConsentPage(w.session.value.subject, q)
  {
    if w.session.Some? { CoveredIff(w, w.session.value.subject, q); }
    assert "none" in Prompt(q) && |Prompt(q)| <= 1 ==> "consent" !in Prompt(q);
  }

  /** The errors: prompt=none beside other values is a bad request; alone it is refused for want
      of a login, or of consent, which comes first whatever the hint says; and every other
      error is a parameter out of order or a session that names nobody. */
  lemma ErrorsIff(w: World, c: Client, q: Query, equalFold: (string, string) -> bool)
    ensures var v := Visit(w, c, q, equalFold);
      var silent := "none" in Words(q) && |Words(q)| == 1;
      var mixed := "none" in Words(q) && |Words(q)| > 1;
      var somebody := Present(w, c) && w.session.value.subject != "";
      var unconsented := somebody && c.requireConsent && !Consented(w, w.session.value.subject, q);
      && (v == ErrorRedirect("invalid_request") <==> Acceptable(c, q) && mixed)
      && (v == ErrorRedirect("consent_required") <==> Acceptable(c, q) && silent && unconsented)
      && (v == ErrorRedirect("login_required") <==>
            Acceptable(c, q) && silent && (!Present(w, c) || (somebody && !unconsented && Unsuitable(w.session.value, q, equalFold))))
      && (v == HttpError <==> !Acceptable(c, q) || (!mixed && Present(w, c) && !somebody))
  {
    if w.session.Some? { CoveredIff(w, w.session.value.subject, q); }
  }

  lemma {:induction false} UpstreamMembers(prompt: seq<string>)
    ensures forall v :: v in Upstream(prompt) <==> v in prompt && (v == "login" || v == "select_account")
  {
    if prompt != [] { UpstreamMembers(prompt[1..]); }
  }

  lemma BackCarries(q: Query)
    ensures LoginBack(q).(prompt := q.prompt, loginHint := q.loginHint) == q && LoginBack(q).loginHint == []
    ensures forall x :: x in Words(LoginBack(q)) <==> x in Words(q) && x !in LOGIN_PROMPTS
  {
    PromptWithout(q, LOGIN_PROMPTS);
    assert Words(LoginBack(q)) == Prompt(WithoutPrompt(q, LOGIN_PROMPTS)) && Words(q) == Prompt(q);
  }

  /** Only a revocation calls for the login. */
  predicate Revoked(w: World, c: Client, q: Query, equalFold: (string, string) -> bool) {
    Present(w, c) && !Unsuitable(w.session.value.(predates := false), q, equalFold)
  }

  lemma DetourIs(w: World, c: Client, q: Query, equalFold: (string, string) -> bool)
    requires Visit(w, c, q, equalFold).ToLogin?
    ensures Visit(w, c, q, equalFold)
      == LoginDetour(q, if Revoked(w, c, q, equalFold) then Words(q) + ["login"] else Words(q))
  {
  }

  /** What the detour carries: the provider is sent the hint and of the prompt what it can act
      on, a login even if only a revocation calls for it; the return query is the request
      without the hint and without the prompt values a login satisfies. */
  lemma DetourCarries(w: World, c: Client, q: Query, equalFold: (string, string) -> bool)
    requires Visit(w, c, q, equalFold).ToLogin?
    ensures var v := Visit(w, c, q, equalFold);
      && v.hint == Hinted(q) && v.back.(prompt := q.prompt, loginHint := q.loginHint) == q && v.back.loginHint == []
      && (forall x :: x in Words(v.back) <==> x in Words(q) && x != "login" && x != "select_account" && x != "none")
      && (forall x :: x in v.upstream <==>
            (x in Words(q) && (x == "login" || x == "select_account")) || (x == "login" && Revoked(w, c, q, equalFold)))
  {
    BackCarries(q);
    DetourIs(w, c, q, equalFold);
    var prompt := if Revoked(w, c, q, equalFold) then Words(q) + ["login"] else Words(q);
    UpstreamMembers(prompt);
    assert forall x :: x in prompt <==> x in Words(q) || (x == "login" && Revoked(w, c, q, equalFold));
  }

  // ------------------------------------------------------------ the flow

  /** How the user answers: whom each login signs in, and what a consent page is told. */
  datatype User = User(signsInAs: Session, allows: bool)

  /** A login that succeeds gives a browser session, newer than any revocation. */
  predicate Succeeds(s: Session) { s.subject != "" && s.browser && !s.predates }

  /** ConsentPost, allowed: the consent is recorded, and the browser goes back without it. */
  function Allowed(w: World, subject: string, q: Query): World {
    var key := (subject, q.clientId, q.redirectUri);
    w.(consents := w.consents[key := (if key in w.consents then w.consents[key] else {}) + RequestedScopes(q)])
  }

  function Back(q: Query): Query { WithoutPrompt(q, {"consent"}) }

  /** How a flow ends: after how many visits, and with what. */
  datatype End = End(visits: nat, outcome: Outcome)

  /** The detours a flow still has ahead of it, at most. */
  function Detours(w: World, c: Client, q: Query, equalFold: (string, string) -> bool): nat {
    match Visit(w, c, q, equalFold)
    case ToLogin(_, _, _) => 2
    case ConsentPage(_, _) => 1
    case _ => 0
  }

  /** Every detour removes the prompt values and the hint that can cause it. */
  lemma BackIsClean(q: Query)
    ensures "login" !in Prompt(LoginBack(q)) && "select_account" !in Prompt(LoginBack(q)) && "none" !in Prompt(LoginBack(q))
    ensures Hint(LoginBack(q)) == ""
  {
    PromptWithout(q, LOGIN_PROMPTS);
    assert Prompt(LoginBack(q)) == Without(Prompt(q), LOGIN_PROMPTS);
  }

  lemma SatisfiedNeedsNoLogin(w: World, c: Client, q: Query, equalFold: (string, string) -> bool)
    requires SignedIn(w, c) && !w.session.value.predates && !WantsLogin(w.session.value, q, equalFold)
    ensures !Visit(w, c, q, equalFold).ToLogin?
  {
  }

  /** After a login nothing sends the browser to the login page again. */
  lemma LoginIsFinal(w: World, c: Client, q: Query, equalFold: (string, string) -> bool, s: Session)
    requires Succeeds(s) && Visit(w, c, q, equalFold).ToLogin?
    ensures !Visit(w.(session := Some(s)), c, Visit(w, c, q, equalFold).back, equalFold).ToLogin?
  {
    BackIsClean(q);
    var back := Visit(w, c, q, equalFold).back;
    assert back == LoginBack(q);
    SatisfiedNeedsNoLogin(w.(session := Some(s)), c, back, equalFold);
  }

  /** After an Allow the next visit issues the code. */
  lemma AllowIsFinal(w: World, c: Client, q: Query, equalFold: (string, string) -> bool)
    requires Visit(w, c, q, equalFold).ConsentPage?
    ensures var subject := Visit(w, c, q, equalFold).subject;
      Visit(Allowed(w, subject, q), c, Back(q), equalFold) == Code(subject)
  {
    PromptWithout(q, {"consent"});
    var prompt := Prompt(q);
    assert "none" in prompt ==> |prompt| == 1 && "consent" !in prompt;
  }

  /** The whole flow. That it ends is the reason it is a function. */
  function Flow(w: World, c: Client, q: Query, equalFold: (string, string) -> bool, u: User): End
    requires Succeeds(u.signsInAs)
    decreases Detours(w, c, q, equalFold)
  {
    match Visit(w, c, q, equalFold)
    case ToLogin(back, _, _) =>
      LoginIsFinal(w, c, q, equalFold, u.signsInAs);
      var end := Flow(w.(session := Some(u.signsInAs)), c, back, equalFold, u);
      end.(visits := end.visits + 1)
    case ConsentPage(subject, _) =>
      if u.allows then
        AllowIsFinal(w, c, q, equalFold);
        var end := Flow(Allowed(w, subject, q), c, Back(q), equalFold, u);
        end.(visits := end.visits + 1)
      else End(1, ErrorRedirect("access_denied"))
    case outcome => End(1, outcome)
  }

  /** The user a flow's code is for. */
  function Account(w: World, c: Client, q: Query, equalFold: (string, string) -> bool, u: User): string {
    if Visit(w, c, q, equalFold).ToLogin? || w.session.None? then u.signsInAs.subject else w.session.value.subject
  }

  /** The flow visits the endpoint at most three times, and ends in a code or an error. A code
      names somebody: whoever the login signed in, or the session there was; and for a client
      that needs consent the user allowed it, before or now. */
  lemma {:induction false} AtMostThreeVisits(w: World, c: Client, q: Query, equalFold: (string, string) -> bool, u: User)
    requires Succeeds(u.signsInAs)
    ensures var end := Flow(w, c, q, equalFold, u);
      && 1 <= end.visits <= 1 + Detours(w, c, q, equalFold) <= 3
      && (end.outcome.HttpError? || end.outcome.ErrorRedirect? || end.outcome == Code(Account(w, c, q, equalFold, u)))
      && (end.outcome.Code? ==> end.outcome.subject != "")
      && (end.outcome.Code? && c.requireConsent ==> u.allows || Covered(w, end.outcome.subject, q))
    decreases Detours(w, c, q, equalFold)
  {
    var v := Visit(w, c, q, equalFold);
    if v.ToLogin? {
      LoginIsFinal(w, c, q, equalFold, u.signsInAs);
      AtMostThreeVisits(w.(session := Some(u.signsInAs)), c, v.back, equalFold, u);
    } else if v.ConsentPage? && u.allows {
      AllowIsFinal(w, c, q, equalFold);
      AtMostThreeVisits(Allowed(w, v.subject, q), c, Back(q), equalFold, u);
    }
  }

  /** prompt=none shows nothing: one visit, and neither detour. */
  lemma SilentShowsNothing(w: World, c: Client, q: Query, equalFold: (string, string) -> bool, u: User)
    requires Succeeds(u.signsInAs) && "none" in Prompt(q)
    ensures Flow(w, c, q, equalFold, u).visits == 1
    ensures !Visit(w, c, q, equalFold).ToLogin? && !Visit(w, c, q, equalFold).ConsentPage?
  {
  }

  /** Any other acceptable request whose user allows it gets its code. */
  lemma {:induction false} AllowedFlowIssuesCode(w: World, c: Client, q: Query, equalFold: (string, string) -> bool, u: User)
    requires Succeeds(u.signsInAs) && u.allows && Acceptable(c, q) && "none" !in Prompt(q)
    requires w.session.Some? ==> w.session.value.subject != ""
    ensures Flow(w, c, q, equalFold, u).outcome.Code?
    decreases Detours(w, c, q, equalFold)
  {
    var v := Visit(w, c, q, equalFold);
    if v.ToLogin? {
      LoginIsFinal(w, c, q, equalFold, u.signsInAs);
      BackIsClean(q);
      AllowedFlowIssuesCode(w.(session := Some(u.signsInAs)), c, LoginBack(q), equalFold, u);
    } else if v.ConsentPage? {
      AllowIsFinal(w, c, q, equalFold);
    }
  }

  /** Three is the bound: signed out, without consent on record, it takes them all. */
  lemma ThreeVisitsHappen(w: World, c: Client, q: Query, equalFold: (string, string) -> bool, u: User)
    requires Succeeds(u.signsInAs) && u.allows && Acceptable(c, q) && "none" !in Prompt(q)
    requires w.session.None? && c.requireConsent && !Covered(w, u.signsInAs.subject, q)
    ensures Flow(w, c, q, equalFold, u).visits == 3
  {
    var w1 := w.(session := Some(u.signsInAs));
    BackIsClean(q);
    LoginIsFinal(w, c, q, equalFold, u.signsInAs);
    assert Visit(w, c, q, equalFold) == LoginDetour(q, Prompt(q));
    assert Visit(w1, c, LoginBack(q), equalFold) == ConsentPage(u.signsInAs.subject, LoginBack(q));
    AllowIsFinal(w1, c, LoginBack(q), equalFold);
    assert Flow(Allowed(w1, u.signsInAs.subject, LoginBack(q)), c, Back(LoginBack(q)), equalFold, u).visits == 1;
    assert Flow(w1, c, LoginBack(q), equalFold, u).visits == 2;
  }
}
