/** Binding the placeholders of a requirement to values of the request: from the path, by
    matching the route pattern again, or from a declared chain of sources. Strings are byte
    strings: every char stands for one byte. */
module PathBinding {
  import opened Text

  datatype Option<+T> = None | Some(value: T)

  // ------------------------------------------------------------ percent encoding

  function HexValue(c: char): int {
    if '0' <= c <= '9' then c as int - '0' as int
    else if 'A' <= c <= 'F' then c as int - 'A' as int + 10
    else if 'a' <= c <= 'f' then c as int - 'a' as int + 10
    else -1
  }

  function HexDigit(n: int): (c: char)
    requires 0 <= n < 16
    ensures HexValue(c) == n && c != '/'
  {
    if n < 10 then (n + '0' as int) as char else (n - 10 + 'A' as int) as char
  }

  /** url.PathUnescape: None for an escape that is not two hex digits. */
  function Unescape(s: string): (r: Option<string>)
    ensures s != "" && r.Some? ==> r.value != ""
    decreases |s|
  {
    if s == "" then Some("")
    else if s[0] != '%' then
      var rest := Unescape(s[1..]);
      if rest.None? then None else Some([s[0]] + rest.value)
    else if |s| < 3 || HexValue(s[1]) < 0 || HexValue(s[2]) < 0 then None
    else
      var rest := Unescape(s[3..]);
      if rest.None? then None else Some([(16 * HexValue(s[1]) + HexValue(s[2])) as char] + rest.value)
  }

  /** percentDecode: what does not decode stands for itself. */
  function PercentDecode(s: string): (r: string)
    ensures s != "" ==> r != ""
  {
    var d := Unescape(s);
    if d.Some? then d.value else s
  }

  /** Percent-escaping that leaves the bytes of safe as they are. */
  function Escape(safe: set<char>, s: string): string
    requires Bytes(s)
  {
    if s == "" then ""
    else (if s[0] in safe then [s[0]] else ['%', HexDigit(s[0] as int / 16), HexDigit(s[0] as int % 16)]) + Escape(safe, s[1..])
  }

  predicate Bytes(s: string) { forall i :: 0 <= i < |s| ==> s[i] as int < 256 }

  /** Any escaping that keeps neither '%' nor '/' raw is undone by one decode, keeps a
      segment one segment, and does not make it vanish. */
  lemma {:induction false} DecodeOfEscape(safe: set<char>, s: string)
    requires Bytes(s) && '%' !in safe && '/' !in safe
    ensures Unescape(Escape(safe, s)) == Some(s)
    ensures '/' !in Escape(safe, s)
    ensures s != "" ==> Escape(safe, s) != ""
  {
    if s != "" {
      DecodeOfEscape(safe, s[1..]);
      var e := Escape(safe, s);
      var tail := Escape(safe, s[1..]);
      assert [s[0]] + s[1..] == s;
      if s[0] in safe { assert e[1..] == tail; } else { assert e[3..] == tail; }
    }
  }

  // ------------------------------------------------------------ segments

  function NonEmpty(pieces: seq<string>): seq<string> {
    if pieces == [] then [] else (if pieces[0] == "" then [] else [pieces[0]]) + NonEmpty(pieces[1..])
  }

  function Segments(path: string): seq<string> { NonEmpty(Split('/', path)) }

  /** splitPath. */
  method SplitPath(path: string) returns (segs: seq<string>)
    ensures segs == Segments(path)
  {
    var raw := Split('/', path);
    segs := [];
    for i := 0 to |raw|
      invariant segs + NonEmpty(raw[i..]) == NonEmpty(raw)
    {
      if raw[i] != "" { segs := segs + [raw[i]]; }
      assert raw[i..][1..] == raw[i + 1..];
    }
  }

  predicate AreSegments(segs: seq<string>) {
    forall i :: 0 <= i < |segs| ==> segs[i] != "" && '/' !in segs[i]
  }

  lemma {:induction false} NonEmptyKeeps(segs: seq<string>)
    requires forall i :: 0 <= i < |segs| ==> segs[i] != ""
    ensures NonEmpty(segs) == segs
  {
    if segs != [] { NonEmptyKeeps(segs[1..]); }
  }

  lemma {:induction false} NonEmptyOnly(pieces: seq<string>)
    requires forall i :: 0 <= i < |pieces| ==> '/' !in pieces[i]
    ensures AreSegments(NonEmpty(pieces))
  {
    if pieces != [] { NonEmptyOnly(pieces[1..]); }
  }

  /** A path put together from segments splits into them. */
  lemma SegmentsOfPath(segs: seq<string>)
    requires AreSegments(segs)
    ensures Segments("/" + Join('/', segs)) == segs
  {
    var path := "/" + Join('/', segs);
    assert path[1..] == Join('/', segs);
    if segs == [] {
      assert Split('/', "") == [""];
      assert NonEmpty([""]) == [];
      assert NonEmpty(["", ""]) == NonEmpty([""]) by { assert ["", ""][1..] == [""]; }
    } else {
      SplitOfJoin('/', segs);
      NonEmptyKeeps(segs);
      assert ([""] + segs)[1..] == segs;
    }
  }

  // ------------------------------------------------------------ matching

  function Needle(name: string): string { "{" + name + "}" }

  predicate CatchAll(seg: string) {
    "{" <= seg && |seg| >= 4 && seg[|seg| - 4..] == "...}"
  }

  /** The first pattern segment that is the needle decides. */
  function MatchPrefix(ps: seq<string>, us: seq<string>, needle: string): Option<string>
    requires |ps| <= |us|
  {
    if ps == [] then None
    else if ps[0] == needle then
      var v := PercentDecode(us[0]);
      if v == "" then None else Some(v)
    else MatchPrefix(ps[1..], us[1..], needle)
  }

  /** The pattern segments that are matched one by one. */
  function Fixed(ps: seq<string>): seq<string> {
    if ps != [] && CatchAll(ps[|ps| - 1]) then ps[..|ps| - 1] else ps
  }

  /** pathParamFromMatch. */
  function PathParam(pattern: string, uri: string, name: string): Option<string> {
    var ps := Segments(pattern);
    var us := Segments(uri);
    if Fixed(ps) != ps then
      if |us| < |ps| - 1 then None else MatchPrefix(Fixed(ps), us, Needle(name))
    else if |ps| != |us| then None
    else MatchPrefix(ps, us, Needle(name))
  }

  lemma {:induction false} MatchPrefixFinds(ps: seq<string>, us: seq<string>, needle: string, i: nat)
    requires |ps| <= |us| && i < |ps| && ps[i] == needle
    requires forall j :: 0 <= j < i ==> ps[j] != needle
    requires us[i] != ""
    ensures MatchPrefix(ps, us, needle) == Some(PercentDecode(us[i]))
  {
    if i > 0 {
      assert ps[0] != needle;
      MatchPrefixFinds(ps[1..], us[1..], needle, i - 1);
    }
  }

  /** Re-matching returns each value exactly. For every pattern, with or without a trailing
      catch-all, and every path built by escaping one non-empty value per fixed segment and
      whatever segments the catch-all takes: the parameter named by a fixed segment, if no
      earlier one names it too, is the value put there. */
  lemma RematchReturnsValues(pattern: string, safe: set<char>, values: seq<string>, rest: seq<string>, i: nat, name: string)
    requires '%' !in safe && '/' !in safe
    requires |values| == |Fixed(Segments(pattern))| && AreSegments(rest)
    requires Fixed(Segments(pattern)) == Segments(pattern) ==> rest == []
    requires forall j :: 0 <= j < |values| ==> Bytes(values[j]) && values[j] != ""
    requires i < |values| && Segments(pattern)[i] == Needle(name)
    requires forall j :: 0 <= j < i ==> Segments(pattern)[j] != Needle(name)
    ensures var escaped := seq(|values|, j requires 0 <= j < |values| => Escape(safe, values[j]));
      PathParam(pattern, "/" + Join('/', escaped + rest), name) == Some(values[i])
  {
    var escaped := seq(|values|, j requires 0 <= j < |values| => Escape(safe, values[j]));
    forall j | 0 <= j < |values|
      ensures escaped[j] != "" && '/' !in escaped[j] && Unescape(escaped[j]) == Some(values[j])
    {
      DecodeOfEscape(safe, values[j]);
    }
    SegmentsOfPath(escaped + rest);
    MatchPrefixFinds(Fixed(Segments(pattern)), escaped + rest, Needle(name), i);
  }

  // ------------------------------------------------------------ binding

  datatype In = Path | Query | Header
  datatype Source = Source(at: In, name: string)
  type Spec = map<string, seq<Source>>

  /** The parts of a request a source can read; an absent one reads as "". */
  datatype Request = Request(escapedPath: string, query: map<string, string>, header: map<string, string>)

  function Lookup(m: map<string, string>, k: string): Option<string> {
    if k in m && m[k] != "" then Some(m[k]) else None
  }

  function ReadSource(r: Request, pattern: string, src: Source): Option<string> {
    match src.at
    case Path => PathParam(pattern, r.escapedPath, src.name)
    case Query => Lookup(r.query, src.name)
    case Header => Lookup(r.header, src.name)
  }

  function FirstOf(r: Request, pattern: string, chain: seq<Source>): Option<string> {
    if chain == [] then None
    else
      var v := ReadSource(r, pattern, chain[0]);
      if v.Some? then v else FirstOf(r, pattern, chain[1..])
  }

  /** resolveKey: the declared chain, or else the path, never anything inferred. */
  function ResolveKey(r: Request, pattern: string, spec: Spec, key: string): Option<string> {
    if key in spec then FirstOf(r, pattern, spec[key]) else PathParam(pattern, r.escapedPath, key)
  }

  /** The first link of a chain that has a value wins. */
  lemma {:induction false} FirstLinkWins(r: Request, pattern: string, chain: seq<Source>, i: nat)
    requires i < |chain| && ReadSource(r, pattern, chain[i]).Some?
    requires forall j :: 0 <= j < i ==> ReadSource(r, pattern, chain[j]).None?
    ensures FirstOf(r, pattern, chain) == ReadSource(r, pattern, chain[i])
  {
    if i > 0 {
      assert ReadSource(r, pattern, chain[0]).None?;
      FirstLinkWins(r, pattern, chain[1..], i - 1);
    }
  }

  lemma {:induction false} NoLinkNoValue(r: Request, pattern: string, chain: seq<Source>)
    requires forall j :: 0 <= j < |chain| ==> ReadSource(r, pattern, chain[j]).None?
    ensures FirstOf(r, pattern, chain).None?
  {
    if chain != [] {
      assert ReadSource(r, pattern, chain[0]).None?;
      NoLinkNoValue(r, pattern, chain[1..]);
    }
  }

  /** A link reads the place it names: a query link the query, a header link the headers, each
      exactly when what is there is not empty, raw as it is; a path link what the pattern's
      segment of that name stands for. */
  lemma LinkReadsItsPlace(r: Request, pattern: string, spec: Spec, key: string, name: string)
    requires key in spec
    ensures spec[key] == [Source(Query, name)] ==>
      ResolveKey(r, pattern, spec, key) == if name in r.query && r.query[name] != "" then Some(r.query[name]) else None
    ensures spec[key] == [Source(Header, name)] ==>
      ResolveKey(r, pattern, spec, key) == if name in r.header && r.header[name] != "" then Some(r.header[name]) else None
    ensures spec[key] == [Source(Path, name)] ==> ResolveKey(r, pattern, spec, key) == PathParam(pattern, r.escapedPath, name)
  {
    SingleLink(r, pattern, Source(Query, name));
    SingleLink(r, pattern, Source(Header, name));
    SingleLink(r, pattern, Source(Path, name));
  }

  lemma SingleLink(r: Request, pattern: string, src: Source)
    ensures FirstOf(r, pattern, [src]) == ReadSource(r, pattern, src)
  {
    assert [src][1..] == [] && FirstOf(r, pattern, []) == None;
  }

  /** A name the pattern does not have is never bound from the path. */
  lemma UnnamedIsUnbound(pattern: string, uri: string, name: string)
    requires Needle(name) !in Segments(pattern)
    ensures PathParam(pattern, uri, name).None?
  {
    var ps := Segments(pattern);
    if |Fixed(ps)| <= |Segments(uri)| { NoNeedle(Fixed(ps), Segments(uri), Needle(name)); }
  }

  lemma {:induction false} NoNeedle(ps: seq<string>, us: seq<string>, needle: string)
    requires |ps| <= |us| && needle !in ps
    ensures MatchPrefix(ps, us, needle).None?
  {
    if ps != [] {
      assert ps[0] in ps;
      NoNeedle(ps[1..], us[1..], needle);
    }
  }

  /** resolveBinding: a key that cannot be resolved is absent, never defaulted. */
  method ResolveBinding(r: Request, pattern: string, spec: Spec, keys: seq<string>) returns (b: map<string, string>)
    ensures forall k :: k in b <==> k in keys && ResolveKey(r, pattern, spec, k).Some?
    ensures forall k :: k in b ==> ResolveKey(r, pattern, spec, k) == Some(b[k])
  {
    b := map[];
    for i := 0 to |keys|
      invariant forall k :: k in b <==> k in keys[..i] && ResolveKey(r, pattern, spec, k).Some?
      invariant forall k :: k in b ==> ResolveKey(r, pattern, spec, k) == Some(b[k])
    {
      var v := ResolveKey(r, pattern, spec, keys[i]);
      if v.Some? { b := b[keys[i] := v.value]; }
      assert keys[..i + 1] == keys[..i] + [keys[i]];
    }
    assert keys[..|keys|] == keys;
  }

  /** The name a pattern segment gives a placeholder, "" for none. */
  function PlaceholderName(seg: string): string {
    if |seg| < 2 || seg[0] != '{' || seg[|seg| - 1] != '}' || CatchAll(seg) then "" else seg[1..|seg| - 1]
  }

  predicate NoRepeats(keys: seq<string>) {
    forall i, j :: 0 <= i < j < |keys| ==> keys[i] != keys[j]
  }

  /** The closure both loops add a key with. */
  method Add(keys: seq<string>, key: string) returns (keys': seq<string>)
    requires NoRepeats(keys)
    ensures NoRepeats(keys')
    ensures forall k :: k in keys' <==> k in keys || (k == key && k != "")
  {
    if key == "" || key in keys { return keys; }
    return keys + [key];
  }

  /** The declared keys, in some order. */
  method DeclaredKeys(spec: Spec) returns (keys: seq<string>)
    ensures forall k :: k in keys <==> k != "" && k in spec
    ensures NoRepeats(keys)
  {
    keys := [];
    var left := spec.Keys;
    while left != {}
      invariant left <= spec.Keys
      invariant forall k :: k in keys <==> k != "" && k in spec && k !in left
      invariant NoRepeats(keys)
      decreases |left|
    {
      var k :| k in left;
      keys := Add(keys, k);
      left := left - {k};
    }
  }

  /** The pattern's placeholders, after the keys there are. */
  method AddNames(declared: seq<string>, segs: seq<string>) returns (keys: seq<string>)
    requires NoRepeats(declared)
    ensures NoRepeats(keys)
    ensures forall k :: k in keys <==> k in declared || (k != "" && k in Names(segs))
  {
    keys := declared;
    for n := 0 to |segs|
      invariant NoRepeats(keys)
      invariant forall k :: k in keys <==> k in declared || (k != "" && k in Names(segs[..n]))
    {
      NamesSnoc(segs[..n], segs[n]);
      assert segs[..n + 1] == segs[..n] + [segs[n]];
      keys := Add(keys, PlaceholderName(segs[n]));
    }
    assert segs[..|segs|] == segs;
  }

  /** placeholderKeys. */
  method PlaceholderKeys(spec: Spec, pattern: string) returns (keys: seq<string>)
    ensures forall k :: k in keys <==> k != "" && (k in spec || k in Names(Segments(pattern)))
    ensures NoRepeats(keys)
  {
    var declared := DeclaredKeys(spec);
    var segs := SplitPath(pattern);
    keys := AddNames(declared, segs);
  }

  function Names(segs: seq<string>): set<string> {
    set i | 0 <= i < |segs| :: PlaceholderName(segs[i])
  }

  lemma NamesSnoc(segs: seq<string>, seg: string)
    ensures Names(segs + [seg]) == Names(segs) + {PlaceholderName(seg)}
  {
    var all := segs + [seg];
    forall n | n in Names(segs) ensures n in Names(all) {
      var i :| 0 <= i < |segs| && n == PlaceholderName(segs[i]);
      assert PlaceholderName(all[i]) == n;
    }
    assert PlaceholderName(all[|segs|]) == PlaceholderName(seg);
  }

  predicate CallerSupplies(chain: seq<Source>) {
    exists i | 0 <= i < |chain| :: chain[i].at.Header? || chain[i].at.Query?
  }

  /** bindFailureIsClientError. */
  method BindFailureIsClientError(spec: Spec, binding: map<string, string>, keys: seq<string>) returns (clientError: bool)
    ensures clientError <==>
      && (exists k :: k in keys && k !in binding)
      && (forall k :: k in keys && k !in binding ==> k in spec && CallerSupplies(spec[k]))
  {
    var absent := 0;
    for i := 0 to |keys|
      invariant absent > 0 <==> exists k :: k in keys[..i] && k !in binding
      invariant absent >= 0
      invariant forall k :: k in keys[..i] && k !in binding ==> k in spec && CallerSupplies(spec[k])
    {
      var key := keys[i];
      assert keys[..i + 1] == keys[..i] + [key];
      assert key in keys;
      if key !in binding {
        absent := absent + 1;
        if !(key in spec && CallerSupplies(spec[key])) { return false; }
      }
    }
    assert keys[..|keys|] == keys;
    return absent > 0;
  }

  // ------------------------------------------------------------ what stays unbound

  /** The segment that matches a trailing slash and nothing after it. */
  const END: string := "{$}"

  predicate EndsInEnd(pattern: string) {
    var ps := Segments(pattern);
    ps != [] && ps[|ps| - 1] == END
  }

  predicate EndsInCatchAll(pattern: string) {
    var ps := Segments(pattern);
    ps != [] && CatchAll(ps[|ps| - 1])
  }

  /** A pattern ending in a slash matches everything below it. */
  predicate Subtree(pattern: string) {
    pattern != "" && pattern[|pattern| - 1] == '/' && !EndsInEnd(pattern) && !EndsInCatchAll(pattern)
  }

  /** How many segments a path the router matches to the pattern has. */
  predicate Aligned(pattern: string, uri: string) {
    var ps, us := |Segments(pattern)|, |Segments(uri)|;
    if EndsInEnd(pattern) then us == ps - 1
    else if EndsInCatchAll(pattern) then ps - 1 <= us
    else if Subtree(pattern) then ps <= us
    else us == ps
  }

  /** The path has the segments the pattern names one by one: the pattern does not end in
      {$}, and if it ends in a slash the path goes no deeper. */
  predicate Named(pattern: string, uri: string) {
    !EndsInEnd(pattern) && (Subtree(pattern) ==> |Segments(uri)| == |Segments(pattern)|)
  }

  lemma NameIsNeedle(seg: string)
    requires PlaceholderName(seg) != ""
    ensures seg == Needle(PlaceholderName(seg)) && !CatchAll(seg)
  {
  }

  lemma {:induction false} FirstIndex(ps: seq<string>, needle: string, at: nat) returns (i: nat)
    requires at < |ps| && ps[at] == needle
    ensures i <= at && ps[i] == needle && forall j :: 0 <= j < i ==> ps[j] != needle
  {
    if ps[0] == needle { return 0; }
    var k := FirstIndex(ps[1..], needle, at - 1);
    return k + 1;
  }

  lemma PathKeyBound(pattern: string, uri: string, key: string, at: nat)
    requires var ps := Segments(pattern);
      at < |ps| && key != "" && key == PlaceholderName(ps[at])
      && |Fixed(ps)| <= |Segments(uri)| && (Fixed(ps) == ps ==> |ps| == |Segments(uri)|)
    ensures PathParam(pattern, uri, key).Some?
  {
    var ps := Segments(pattern);
    NameIsNeedle(ps[at]);
    NonEmptyOnly(Split('/', uri));
    var i := FirstIndex(Fixed(ps), Needle(key), at);
    MatchPrefixFinds(Fixed(ps), Segments(uri), Needle(key), i);
  }

  lemma OtherLengthBindsNothing(pattern: string, uri: string, key: string)
    requires !EndsInCatchAll(pattern) && |Segments(uri)| != |Segments(pattern)|
    ensures PathParam(pattern, uri, key).None?
  {
  }

  lemma EndIsNoCatchAll(pattern: string)
    requires EndsInEnd(pattern)
    ensures !EndsInCatchAll(pattern)
  {
    assert !CatchAll(END);
  }

  /** On a matched route a placeholder of the pattern that the operation declares no chain for
      is bound if and only if the path has the segments the pattern names. Under a pattern
      that ends in {$} it never has, under one that ends in a slash it has unless it goes
      deeper, and under every other it has. */
  lemma PathKeyBoundIff(r: Request, pattern: string, spec: Spec, key: string)
    requires Aligned(pattern, r.escapedPath)
    requires key !in spec && key != "" && key in Names(Segments(pattern))
    ensures ResolveKey(r, pattern, spec, key).Some? <==> Named(pattern, r.escapedPath)
  {
    if EndsInEnd(pattern) { EndIsNoCatchAll(pattern); }
    if !Named(pattern, r.escapedPath) {
      OtherLengthBindsNothing(pattern, r.escapedPath, key);
    } else {
      var at := IndexOfName(Segments(pattern), key);
      PathKeyBound(pattern, r.escapedPath, key, at);
    }
  }

  lemma IndexOfName(ps: seq<string>, key: string) returns (at: nat)
    requires key in Names(ps)
    ensures at < |ps| && key == PlaceholderName(ps[at])
  {
    at :| 0 <= at < |ps| && key == PlaceholderName(ps[at]);
  }

  /** So where the path has the segments the pattern names, the key of a failed binding is one
      the operation declares a chain for. */
  lemma UnboundIsDeclared(r: Request, pattern: string, spec: Spec, key: string)
    requires Aligned(pattern, r.escapedPath) && Named(pattern, r.escapedPath)
    requires key != "" && (key in spec || key in Names(Segments(pattern)))
    requires ResolveKey(r, pattern, spec, key).None?
    ensures key in spec
  {
    if key !in spec { PathKeyBoundIff(r, pattern, spec, key); }
  }

  /** Where it fails: /s/{id}/ matches /s/7/f, and id stays unbound though no chain is
      declared for it. */
  lemma DeeperPathBindsNothing(r: Request)
    requires r.escapedPath == "/s/7/f"
    ensures Aligned("/s/{id}/", r.escapedPath) && "id" in Names(Segments("/s/{id}/"))
    ensures ResolveKey(r, "/s/{id}/", map[], "id").None?
  {
    PatternSegments();
    UriSegments();
    IdSegment();
    IsAName(["s", "{id}"], 1);
    assert Subtree("/s/{id}/");
    OtherLengthBindsNothing("/s/{id}/", r.escapedPath, "id");
  }

  lemma IdSegment()
    ensures !CatchAll("{id}") && "{id}" != END && PlaceholderName("{id}") == "id"
  {
  }

  lemma IsAName(ps: seq<string>, i: nat)
    requires i < |ps|
    ensures PlaceholderName(ps[i]) in Names(ps)
  {
  }

  lemma UriSegments()
    ensures |Segments("/s/7/f")| == 3
  {
    var us := ["s", "7", "f"];
    assert Join('/', us) == "s/7/f" by { assert us[1..] == ["7", "f"] && ["7", "f"][1..] == ["f"]; }
    SegmentsOfPath(us);
    assert "/" + "s/7/f" == "/s/7/f";
  }

  lemma PatternSegments()
    ensures Segments("/s/{id}/") == ["s", "{id}"]
  {
    var pieces := ["", "s", "{id}", ""];
    SplitOfJoin('/', pieces);
    assert Join('/', pieces) == "/s/{id}/" by {
      assert pieces[1..] == ["s", "{id}", ""] && ["s", "{id}", ""][1..] == ["{id}", ""] && ["{id}", ""][1..] == [""];
    }
    assert NonEmpty(["{id}", ""]) == ["{id}"] by { assert ["{id}", ""][1..] == [""] && NonEmpty([""]) == []; }
    assert NonEmpty(["s", "{id}", ""]) == ["s", "{id}"] by { assert ["s", "{id}", ""][1..] == ["{id}", ""]; }
    assert NonEmpty(pieces) == ["s", "{id}"] by { assert pieces[1..] == ["s", "{id}", ""]; }
  }
}
