/** The claims a session signs: what login folds together, what the refresh record carries
    of it, and what every rotation folds back. */
module Claims {
  import opened Text
  import opened Scopes

  /** A claim value as Go holds it: strings, lists as the host builds them ([]string), lists
      as JSON decodes them ([]any), and anything else by its JSON text. */
  datatype Value = Str(s: string) | Strs(ss: seq<string>) | List(vs: seq<Value>) | Other(json: string)

  /** Claim names: the ones this host gives a meaning of its own, and all others. */
  datatype Name =
    | Scope | Scp | Sub | GrantType | Idp | Iat | Exp | Jti | Iss | Aud | Nbf | Act | AuthMethod | Kind
    | Roles | Entitlements
    | Named(name: string)

  type ClaimSet = map<Name, Value>

  /** What decoding an encoded value gives: every list comes back as []any. */
  function RoundTrip(v: Value): Value {
    match v
    case Strs(ss) => List(seq(|ss|, i requires 0 <= i < |ss| => Str(ss[i])))
    case List(vs) => List(seq(|vs|, i requires 0 <= i < |vs| => RoundTrip(vs[i])))
    case _ => v
  }

  function Carried(claims: ClaimSet): ClaimSet {
    map k | k in claims :: RoundTrip(claims[k])
  }

  /** Claims the mint alone decides. */
  predicate Reserved(k: Name) { !k.Roles? && !k.Entitlements? && !k.Named? }

  /** The reserved claims a rotation signs. */
  predicate Minted(k: Name) { k.Sub? || k.AuthMethod? || k.Kind? || k.Idp? || k.Scope? }

  // ------------------------------------------------------------ lists

  /** The strings among vs, in order. */
  function StringsOf(vs: seq<Value>): seq<string> {
    if vs == [] then [] else (if vs[0].Str? then [vs[0].s] else []) + StringsOf(vs[1..])
  }

  datatype Claimed = Absent | Claimed(v: Value)

  /** The list an identity provider asserted under a claim. */
  function Asserted(c: Claimed): seq<string> {
    match c
    case Absent => []
    case Claimed(Str(s)) => [s]
    case Claimed(Strs(ss)) => ss
    case Claimed(List(vs)) => StringsOf(vs)
    case Claimed(Other(_)) => []
  }

  function At(claims: ClaimSet, k: Name): Claimed {
    if k in claims then Claimed(claims[k]) else Absent
  }

  /** The positions at hold exactly the strings among vs, in order, and ss is what they are. */
  ghost predicate Picks(vs: seq<Value>, at: seq<nat>, ss: seq<string>) {
    && |at| == |ss|
    && (forall j | 0 <= j < |at| :: at[j] < |vs| && vs[at[j]] == Str(ss[j]))
    && (forall j, k | 0 <= j < k < |at| :: at[j] < at[k])
    && (forall i | 0 <= i < |vs| && vs[i].Str? :: i in at)
  }

  /** ss is the list a claim asserts: a list of strings is itself, one string is a list of one,
      of a decoded list every string counts and nothing else, and anything else is no list. */
  ghost predicate Lists(c: Claimed, ss: seq<string>) {
    match c
    case Absent => ss == []
    case Claimed(Str(s)) => ss == [s]
    case Claimed(Strs(x)) => ss == x
    case Claimed(List(vs)) => exists at :: Picks(vs, at, ss)
    case Claimed(Other(_)) => ss == []
  }

  lemma {:induction false} StringsOfSnoc(vs: seq<Value>, v: Value)
    ensures StringsOf(vs + [v]) == StringsOf(vs) + (if v.Str? then [v.s] else [])
  {
    var last := if v.Str? then [v.s] else [];
    if vs == [] {
      assert vs + [v] == [v] && [v][1..] == [];
      assert StringsOf([v]) == last + [] == [] + last;
    } else {
      var first, rest := if vs[0].Str? then [vs[0].s] else [], StringsOf(vs[1..]);
      StringsOfSnoc(vs[1..], v);
      assert (vs + [v])[1..] == vs[1..] + [v];
      assert StringsOf(vs + [v]) == first + (rest + last) == (first + rest) + last;
    }
  }

  lemma PicksSnoc(vs: seq<Value>, at: seq<nat>, ss: seq<string>, v: Value)
    requires Picks(vs, at, ss)
    ensures v.Str? ==> Picks(vs + [v], at + [|vs|], ss + [v.s])
    ensures !v.Str? ==> Picks(vs + [v], at, ss)
  {
  }

  lemma {:induction false} StringsArePicked(vs: seq<Value>) returns (at: seq<nat>)
    ensures Picks(vs, at, StringsOf(vs))
    decreases |vs|
  {
    if vs == [] { return []; }
    var n := |vs| - 1;
    at := StringsArePicked(vs[..n]);
    assert vs == vs[..n] + [vs[n]];
    StringsOfSnoc(vs[..n], vs[n]);
    PicksSnoc(vs[..n], at, StringsOf(vs[..n]), vs[n]);
    if vs[n].Str? { at := at + [n]; } else { assert StringsOf(vs[..n]) + [] == StringsOf(vs[..n]); }
  }

  lemma AssertedIsListed(c: Claimed)
    ensures Lists(c, Asserted(c))
  {
    if c.Claimed? && c.v.List? { var at := StringsArePicked(c.v.vs); }
  }

  /** mergeIDPList: the asserted list, in either shape, then the host's own. */
  method MergeIdpList(idp: Claimed, own: seq<string>) returns (merged: Value)
    ensures merged == Strs(Asserted(idp) + own)
    ensures exists ss :: Lists(idp, ss) && merged == Strs(ss + own)
    ensures forall ss :: idp == Claimed(Strs(ss)) ==> merged == Strs(ss + own)
    ensures forall s :: idp == Claimed(Str(s)) ==> merged == Strs([s] + own)
    ensures idp.Absent? || idp.v.Other? ==> merged == Strs(own)
  {
    AssertedIsListed(idp);
    assert [] + own == own;
    match idp
    case Claimed(Strs(ss)) => return Strs(ss + own);
    case Claimed(List(vs)) =>
      var found := FindStrings(vs);
      return Strs(found + own);
    case Claimed(Str(s)) => return Strs([s] + own);
    case _ => return Strs(own);
  }

  /** The loop over a decoded list. */
  method FindStrings(vs: seq<Value>) returns (found: seq<string>)
    ensures found == StringsOf(vs)
  {
    found := [];
    for i := 0 to |vs|
      invariant found + StringsOf(vs[i..]) == StringsOf(vs)
    {
      if vs[i].Str? { found := found + [vs[i].s]; }
      assert vs[i..][1..] == vs[i + 1..];
    }
  }

  lemma {:induction false} StringsOfStrs(ss: seq<string>)
    ensures StringsOf(seq(|ss|, i requires 0 <= i < |ss| => Str(ss[i]))) == ss
  {
    var vs := seq(|ss|, i requires 0 <= i < |ss| => Str(ss[i]));
    if ss != [] {
      var tail := ss[1..];
      StringsOfStrs(tail);
      assert vs[1..] == seq(|tail|, i requires 0 <= i < |tail| => Str(tail[i]));
    }
  }

  lemma {:induction false} StringsOfCarried(vs: seq<Value>)
    ensures StringsOf(seq(|vs|, i requires 0 <= i < |vs| => RoundTrip(vs[i]))) == StringsOf(vs)
  {
    var rs := seq(|vs|, i requires 0 <= i < |vs| => RoundTrip(vs[i]));
    if vs != [] {
      var tail := vs[1..];
      StringsOfCarried(tail);
      assert rs[1..] == seq(|tail|, i requires 0 <= i < |tail| => RoundTrip(tail[i]));
    }
  }

  /** Storing a claim does not change the list it asserts. */
  lemma AssertedSurvives(claims: ClaimSet, k: Name)
    ensures Asserted(At(Carried(claims), k)) == Asserted(At(claims, k))
  {
    if k in claims {
      match claims[k]
      case Strs(ss) => StringsOfStrs(ss);
      case List(vs) => StringsOfCarried(vs);
      case _ =>
    }
  }

  /** A value that has been stored once is not changed by being stored again. */
  lemma {:induction false} RoundTripOnce(v: Value)
    ensures RoundTrip(RoundTrip(v)) == RoundTrip(v)
  {
    match v
    case List(vs) =>
      forall i | 0 <= i < |vs| ensures RoundTrip(RoundTrip(vs[i])) == RoundTrip(vs[i]) {
        RoundTripOnce(vs[i]);
      }
    case _ =>
  }

  lemma CarriedOnce(claims: ClaimSet)
    ensures Carried(Carried(claims)) == Carried(claims)
  {
    forall k | k in claims ensures RoundTrip(RoundTrip(claims[k])) == RoundTrip(claims[k]) { RoundTripOnce(claims[k]); }
  }

  // ------------------------------------------------------------ signing context

  function Snapshot(claims: ClaimSet): ClaimSet {
    map k | k in claims && !Reserved(k) :: claims[k]
  }

  /** The stored claims laid over a context, reserved ones left out. */
  function Replayed(claims: ClaimSet, stored: ClaimSet): ClaimSet {
    claims + Snapshot(stored)
  }

  function WithBackend(claims: ClaimSet, backend: ClaimSet): ClaimSet {
    Snapshot(backend) + claims
  }

  function Requested(scope: string, defaults: seq<string>): seq<string> {
    if Fields(scope) == [] && defaults != [] then defaults else Fields(scope)
  }

  function Scoped(claims: ClaimSet, granted: seq<string>): ClaimSet {
    if granted != [] then claims[Scope := Str(JoinSpace(granted))] else claims - {Scope}
  }

  /** The context under construction, which the mint fills and overwrites in place. */
  class SigningContext {
    var claims: ClaimSet

    constructor (claims: ClaimSet)
      ensures this.claims == claims
    {
      this.claims := claims;
    }

    /** mergeBackendClaims: adds, never overwrites, never sets a reserved claim. */
    method MergeBackendClaims(backend: ClaimSet)
      modifies this
      ensures claims == WithBackend(old(claims), backend)
    {
      var left := backend.Keys;
      while left != {}
        invariant left <= backend.Keys
        invariant forall k :: k in claims <==> k in old(claims) || (k in backend && k !in left && !Reserved(k))
        invariant forall k :: k in claims ==> claims[k] == if k in old(claims) then old(claims)[k] else backend[k]
        decreases |left|
      {
        var k :| k in left;
        if !Reserved(k) && k !in claims { claims := claims[k := backend[k]]; }
        left := left - {k};
      }
    }

    /** The replay of what the identity provider asserted at login. */
    method Replay(stored: ClaimSet)
      modifies this
      ensures claims == Replayed(old(claims), stored)
    {
      var left := stored.Keys;
      while left != {}
        invariant left <= stored.Keys
        invariant forall k :: k in claims <==> k in old(claims) || (k in stored && k !in left && !Reserved(k))
        invariant forall k :: k in claims ==>
          claims[k] == if k in stored && k !in left && !Reserved(k) then stored[k] else old(claims)[k]
        decreases |left|
      {
        var k :| k in left;
        if !Reserved(k) { claims := claims[k := stored[k]]; }
        left := left - {k};
      }
    }

    /** applyScopeFilter. */
    method ApplyScopeFilter(scope: string, defaults: seq<string>) returns (granted: seq<string>)
      modifies this
      ensures granted == Granted(Requested(scope, defaults))
      ensures claims == Scoped(old(claims), granted)
    {
      var requested := Fields(scope);
      if |requested| == 0 && |defaults| > 0 { requested := defaults; }
      granted := SelectKnown(SUPPORTED, requested);
      if |granted| > 0 { claims := claims[Scope := Str(JoinSpace(granted))]; }
      else { claims := claims - {Scope}; }
    }
  }

  /** The members of vocabulary that were requested. */
  method SelectKnown(vocabulary: seq<string>, requested: seq<string>) returns (granted: seq<string>)
    ensures granted == Select(vocabulary, requested)
  {
    granted := [];
    for i := 0 to |vocabulary|
      invariant granted + Select(vocabulary[i..], requested) == Select(vocabulary, requested)
    {
      if vocabulary[i] in requested { granted := granted + [vocabulary[i]]; }
      assert vocabulary[i..][1..] == vocabulary[i + 1..];
    }
  }

  /** idpClaimSnapshot. */
  method IdpClaimSnapshot(claims: ClaimSet) returns (snapshot: ClaimSet)
    ensures snapshot == Snapshot(claims)
  {
    snapshot := map[];
    var left := claims.Keys;
    while left != {}
      invariant left <= claims.Keys
      invariant forall k :: k in snapshot <==> k in claims && k !in left && !Reserved(k)
      invariant forall k :: k in snapshot ==> snapshot[k] == claims[k]
      decreases |left|
    {
      var k :| k in left;
      if !Reserved(k) { snapshot := snapshot[k := claims[k]]; }
      left := left - {k};
    }
  }

  // ------------------------------------------------------------ login and rotation

  const OIDC: string := "oidc"

  /** What the host resolves afresh for a subject. */
  datatype Grants = Grants(roles: seq<string>, entitlements: seq<string>)

  function WithLists(claims: ClaimSet, g: Grants): ClaimSet {
    claims[Roles := Strs(Asserted(At(claims, Roles)) + g.roles)]
          [Entitlements := Strs(Asserted(At(claims, Entitlements)) + g.entitlements)]
  }

  /** An OIDC login over the claims of a verified id_token. */
  function LoginContext(idToken: ClaimSet, g: Grants): ClaimSet {
    Scoped(WithLists(LoginBase(idToken)[Kind := Str("User")], g), Granted(Requested("", SESSION_DEFAULTS)))
  }

  function LoginBase(idToken: ClaimSet): ClaimSet {
    idToken[Idp := Str(OIDC)][AuthMethod := Str(OIDC)] - {Kind}
  }

  /** What a refresh record keeps of a session. */
  datatype Session = Session(subject: string, authMethod: string, scope: string, idpClaims: ClaimSet)

  function LoginSession(subject: string, idToken: ClaimSet): Session {
    Session(subject, OIDC, JoinSpace(Granted(Requested("", SESSION_DEFAULTS))), Snapshot(LoginBase(idToken)))
  }

  /** The record as the next redemption decodes it. */
  function Stored(s: Session): Session { s.(idpClaims := Carried(s.idpClaims)) }

  function RotationBase(s: Session): ClaimSet {
    var base := Replayed(map[AuthMethod := Str(s.authMethod), Sub := Str(s.subject), Kind := Str("User")], s.idpClaims);
    if s.authMethod == OIDC then base[Idp := Str(OIDC)] else base
  }

  /** mintTokensFromSubject's signing context. */
  function RotationContext(s: Session, g: Grants, backend: ClaimSet): ClaimSet {
    Scoped(WithBackend(WithLists(RotationBase(s), g), backend), Granted(Fields(s.scope)))
  }

  /** mintTokensFromSubject, step by step. */
  method MintFromSubject(s: Session, g: Grants, backend: ClaimSet) returns (claims: ClaimSet, scope: string)
    ensures claims == RotationContext(s, g, backend)
    ensures scope == GrantedScope(s.scope)
  {
    var ctx := new SigningContext(map[AuthMethod := Str(s.authMethod), Sub := Str(s.subject), Kind := Str("User")]);
    ctx.Replay(s.idpClaims);
    if s.authMethod == OIDC { ctx.claims := ctx.claims[Idp := Str(OIDC)]; }
    assert ctx.claims == RotationBase(s);
    var roles := MergeIdpList(At(ctx.claims, Roles), g.roles);
    ctx.claims := ctx.claims[Roles := roles];
    var entitlements := MergeIdpList(At(ctx.claims, Entitlements), g.entitlements);
    ctx.claims := ctx.claims[Entitlements := entitlements];
    ctx.MergeBackendClaims(backend);
    var granted := ctx.ApplyScopeFilter(s.scope, []);
    return ctx.claims, JoinSpace(granted);
  }

  /** The record of the n-th refresh token of a session: every rotation reads the one before,
      and writes its claims back unchanged. */
  function Rotated(first: Session, n: nat): Session {
    if n == 0 then Stored(first) else Stored(Rotated(first, n - 1))
  }

  lemma {:induction false} RotatedIsStored(first: Session, n: nat)
    ensures Rotated(first, n) == Stored(first)
  {
    if n > 0 {
      RotatedIsStored(first, n - 1);
      CarriedOnce(first.idpClaims);
    }
  }

  // ------------------------------------------------------------ claim by claim

  function ScopeClaim(granted: seq<string>): Claimed {
    if granted != [] then Claimed(Str(JoinSpace(granted))) else Absent
  }

  /** The claim k of a context whose lists and scope are set over base. */
  function Finished(base: Claimed, g: Grants, granted: seq<string>, k: Name): Claimed {
    match k
    case Scope => ScopeClaim(granted)
    case Roles => Claimed(Strs(Asserted(base) + g.roles))
    case Entitlements => Claimed(Strs(Asserted(base) + g.entitlements))
    case _ => base
  }

  lemma ListsAt(claims: ClaimSet, g: Grants, k: Name)
    ensures At(WithLists(claims, g), k) ==
      if k.Roles? then Claimed(Strs(Asserted(At(claims, Roles)) + g.roles))
      else if k.Entitlements? then Claimed(Strs(Asserted(At(claims, Entitlements)) + g.entitlements))
      else At(claims, k)
  {
  }

  lemma ScopedAt(claims: ClaimSet, granted: seq<string>, k: Name)
    ensures At(Scoped(claims, granted), k) == if k.Scope? then ScopeClaim(granted) else At(claims, k)
  {
  }

  lemma BackendAt(claims: ClaimSet, backend: ClaimSet, k: Name)
    ensures At(WithBackend(claims, backend), k) ==
      if k in claims then At(claims, k) else if Reserved(k) then Absent else At(backend, k)
  {
  }

  /** What a rotation starts from: the mint's own claims and the carried ones. */
  function BaseClaim(s: Session, k: Name): Claimed {
    match k
    case AuthMethod => Claimed(Str(s.authMethod))
    case Sub => Claimed(Str(s.subject))
    case Kind => Claimed(Str("User"))
    case Idp => if s.authMethod == OIDC then Claimed(Str(OIDC)) else Absent
    case _ => if Reserved(k) then Absent else At(s.idpClaims, k)
  }

  lemma BaseAt(s: Session, k: Name)
    ensures At(RotationBase(s), k) == BaseClaim(s, k)
  {
  }

  lemma RotationAt(s: Session, g: Grants, backend: ClaimSet, k: Name)
    ensures At(RotationContext(s, g, backend), k) ==
      var own := Finished(BaseClaim(s, k), g, Granted(Fields(s.scope)), k);
      if own != Absent || Reserved(k) then own else At(backend, k)
  {
    BaseAt(s, k);
    ListsAt(RotationBase(s), g, k);
    BackendAt(WithLists(RotationBase(s), g), backend, k);
    ScopedAt(WithBackend(WithLists(RotationBase(s), g), backend), Granted(Fields(s.scope)), k);
  }

  lemma LoginBaseAt(idToken: ClaimSet, k: Name)
    ensures At(LoginBase(idToken)[Kind := Str("User")], k) ==
      match k
      case AuthMethod => Claimed(Str(OIDC))
      case Idp => Claimed(Str(OIDC))
      case Kind => Claimed(Str("User"))
      case _ => At(idToken, k)
    ensures At(Snapshot(LoginBase(idToken)), k) == if Reserved(k) then Absent else At(idToken, k)
  {
  }

  lemma LoginAt(idToken: ClaimSet, g: Grants, k: Name)
    ensures At(LoginContext(idToken, g), k) ==
      Finished(At(LoginBase(idToken)[Kind := Str("User")], k), g, Granted(Requested("", SESSION_DEFAULTS)), k)
  {
    ListsAt(LoginBase(idToken)[Kind := Str("User")], g, k);
    ScopedAt(WithLists(LoginBase(idToken)[Kind := Str("User")], g), Granted(Requested("", SESSION_DEFAULTS)), k);
  }

  // ------------------------------------------------------------ theorems

  /** Whatever a backend, or a stored snapshot, holds: the subject, the method, the kind, the
      provider and the scope are the mint's own, and no other reserved claim is signed. */
  lemma ReservedAreTheMints(s: Session, g: Grants, backend: ClaimSet, k: Name)
    requires Reserved(k)
    ensures At(RotationContext(s, g, backend), k) ==
      match k
      case Sub => Claimed(Str(s.subject))
      case AuthMethod => Claimed(Str(s.authMethod))
      case Kind => Claimed(Str("User"))
      case Idp => if s.authMethod == OIDC then Claimed(Str(OIDC)) else Absent
      case Scope => if Granted(Fields(s.scope)) != [] then Claimed(Str(GrantedScope(s.scope))) else Absent
      case _ => Absent
  {
    RotationAt(s, g, backend, k);
  }

  /** A backend claim is signed exactly when it is neither reserved nor already there. */
  lemma BackendOnlyAdds(s: Session, g: Grants, backend: ClaimSet, k: Name)
    ensures var without := At(RotationContext(s, g, map[]), k);
      At(RotationContext(s, g, backend), k) == if without != Absent || Reserved(k) then without else At(backend, k)
  {
    RotationAt(s, g, backend, k);
    RotationAt(s, g, map[], k);
  }

  /** A stored scope grants what it was granted as. */
  lemma ScopeSurvives(requested: seq<string>)
    ensures Granted(Fields(JoinSpace(Granted(requested)))) == Granted(requested)
  {
    var granted := Granted(requested);
    GrantedAreWords(requested);
    FieldsOfJoin(granted);
    SelectDependsOnMembership(SUPPORTED, granted, requested);
  }

  /** A claim of the n-th rotation of a session, without backend claims. */
  function RotatedClaim(subject: string, idToken: ClaimSet, n: nat, g: Grants, k: Name): Claimed {
    At(RotationContext(Rotated(LoginSession(subject, idToken), n), g, map[]), k)
  }

  lemma RotatedClaimIs(subject: string, idToken: ClaimSet, n: nat, g: Grants, k: Name)
    ensures var s := Stored(LoginSession(subject, idToken));
      RotatedClaim(subject, idToken, n, g, k) == Finished(BaseClaim(s, k), g, Granted(Fields(s.scope)), k)
  {
    RotatedIsStored(LoginSession(subject, idToken), n);
    RotationAt(Stored(LoginSession(subject, idToken)), g, map[], k);
  }

  /** After any number of rotations, whatever the internal grants are by then, roles and
      entitlements are the provider's list and the fresh one, exactly; they do not compound. */
  lemma ListsDoNotCompound(subject: string, idToken: ClaimSet, n: nat, g: Grants)
    ensures RotatedClaim(subject, idToken, n, g, Roles) == Claimed(Strs(Asserted(At(idToken, Roles)) + g.roles))
    ensures RotatedClaim(subject, idToken, n, g, Entitlements) == Claimed(Strs(Asserted(At(idToken, Entitlements)) + g.entitlements))
    ensures Lists(At(idToken, Roles), Asserted(At(idToken, Roles))) && Lists(At(idToken, Entitlements), Asserted(At(idToken, Entitlements)))
    ensures forall ss :: At(idToken, Roles) == Claimed(Strs(ss)) ==> RotatedClaim(subject, idToken, n, g, Roles) == Claimed(Strs(ss + g.roles))
    ensures forall ss :: At(idToken, Entitlements) == Claimed(Strs(ss)) ==>
      RotatedClaim(subject, idToken, n, g, Entitlements) == Claimed(Strs(ss + g.entitlements))
  {
    AssertedIsListed(At(idToken, Roles));
    AssertedIsListed(At(idToken, Entitlements));
    var snapshot := Snapshot(LoginBase(idToken));
    RotatedClaimIs(subject, idToken, n, g, Roles);
    RotatedClaimIs(subject, idToken, n, g, Entitlements);
    LoginBaseAt(idToken, Roles);
    LoginBaseAt(idToken, Entitlements);
    AssertedSurvives(snapshot, Roles);
    AssertedSurvives(snapshot, Entitlements);
  }

  lemma MintedClaimsAreLogins(subject: string, idToken: ClaimSet, n: nat, g: Grants, k: Name)
    requires At(idToken, Sub) == Claimed(Str(subject)) && Minted(k)
    ensures RotatedClaim(subject, idToken, n, g, k) == At(LoginContext(idToken, g), k)
  {
    RotatedClaimIs(subject, idToken, n, g, k);
    LoginAt(idToken, g, k);
    LoginBaseAt(idToken, k);
    if k.Scope? { ScopeSurvives(Requested("", SESSION_DEFAULTS)); }
  }

  lemma NamedClaimsAreLogins(subject: string, idToken: ClaimSet, n: nat, g: Grants, k: Name)
    requires k.Named?
    ensures At(LoginContext(idToken, g), k) == At(idToken, k)
    ensures RotatedClaim(subject, idToken, n, g, k) == if k in idToken then Claimed(RoundTrip(idToken[k])) else Absent
  {
    RotatedClaimIs(subject, idToken, n, g, k);
    LoginAt(idToken, g, k);
    LoginBaseAt(idToken, k);
  }

  /** A browser login is granted every supported scope, in the order they are published. */
  lemma LoginScope(idToken: ClaimSet, g: Grants)
    ensures At(LoginContext(idToken, g), Scope) == Claimed(Str(JoinSpace(SUPPORTED)))
  {
    LoginAt(idToken, g, Scope);
    SelectAll(SUPPORTED, SESSION_DEFAULTS);
  }

  lemma {:induction false} SelectAll(vocabulary: seq<string>, requested: seq<string>)
    requires forall w :: w in vocabulary ==> w in requested
    ensures Select(vocabulary, requested) == vocabulary
  {
    if vocabulary != [] {
      assert vocabulary[0] in vocabulary;
      SelectAll(vocabulary[1..], requested);
    }
  }

  /** The same claim, up to the shape JSON gives a list. */
  predicate SameMeaning(a: Claimed, b: Claimed) {
    match (a, b)
    case (Absent, Absent) => true
    case (Claimed(x), Claimed(y)) => RoundTrip(x) == RoundTrip(y)
    case _ => false
  }

  /** After any number of rotations, with the same internal grants and no backend claims, the
      signed context says what login's said: every claim that is not reserved, and every one
      the mint owns, is there exactly when it was at login, with the same meaning. */
  lemma RotationPreservesMeaning(subject: string, idToken: ClaimSet, n: nat, g: Grants, k: Name)
    requires At(idToken, Sub) == Claimed(Str(subject))
    requires !Reserved(k) || Minted(k)
    ensures SameMeaning(RotatedClaim(subject, idToken, n, g, k), At(LoginContext(idToken, g), k))
    ensures !k.Named? ==> RotatedClaim(subject, idToken, n, g, k) == At(LoginContext(idToken, g), k)
  {
    if k.Named? {
      NamedClaimsAreLogins(subject, idToken, n, g, k);
      if k in idToken { RoundTripOnce(idToken[k]); }
    } else if Minted(k) {
      MintedClaimsAreLogins(subject, idToken, n, g, k);
    } else {
      ListsDoNotCompound(subject, idToken, n, g);
      LoginAt(idToken, g, k);
      LoginBaseAt(idToken, k);
    }
  }
}
