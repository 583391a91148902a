/** The authorization server's scope vocabulary and the filter every mint runs. */
module Scopes {
  import opened Text

  /** internal/auth/discovery.go, in grant order. */
  const SUPPORTED: seq<string> := ["openid", "email", "profile", "entitlements", "roles"]

  /** The scopes a browser session gets when no client asked for any. */
  const SESSION_DEFAULTS: seq<string> := ["email", "entitlements", "openid", "profile", "roles"]

  /** The members of vocabulary that were requested, in vocabulary order. */
  function Select(vocabulary: seq<string>, requested: seq<string>): (granted: seq<string>)
    ensures forall w :: w in granted <==> w in vocabulary && w in requested
    ensures |granted| <= |vocabulary|
  {
    if vocabulary == [] then []
    else
      var rest := Select(vocabulary[1..], requested);
      if vocabulary[0] in requested then [vocabulary[0]] + rest else rest
  }

  function Granted(requested: seq<string>): seq<string> {
    Select(SUPPORTED, requested)
  }

  /** The scope string a grant records and every mint of it reports. */
  function GrantedScope(scope: string): string {
    JoinSpace(Granted(Fields(scope)))
  }

  lemma {:induction false} SelectDependsOnMembership(vocabulary: seq<string>, a: seq<string>, b: seq<string>)
    requires forall w :: w in vocabulary ==> (w in a <==> w in b)
    ensures Select(vocabulary, a) == Select(vocabulary, b)
  {
    if vocabulary != [] {
      assert vocabulary[0] in vocabulary;
      SelectDependsOnMembership(vocabulary[1..], a, b);
    }
  }

  lemma SupportedAreWords()
    ensures AllWords(SUPPORTED)
  {
  }

  lemma GrantedAreWords(requested: seq<string>)
    ensures AllWords(Granted(requested))
  {
    SupportedAreWords();
    forall i | 0 <= i < |Granted(requested)| ensures IsWord(Granted(requested)[i]) {
      assert Granted(requested)[i] in SUPPORTED;
    }
  }

  /** Splitting, filtering and joining a recorded scope gives it back: the scope of a
      rotation is the scope the lineage was first granted. */
  lemma GrantedScopeIsFixpoint(requested: seq<string>)
    ensures GrantedScope(JoinSpace(Granted(requested))) == JoinSpace(Granted(requested))
  {
    var g := Granted(requested);
    GrantedAreWords(requested);
    FieldsOfJoin(g);
    SelectDependsOnMembership(SUPPORTED, g, requested);
  }
}
