/** Which generator codegen runs: the spec's own, except under a plain source. */
module FunctionGenerator {
  import opened FunctionModel
  import opened FunctionInvariant

  lemma DispatchGenerator(spec: Spec, st: Status, adaptor: Adaptor, env: Env)
    ensures var g := Dispatch(spec, st, adaptor, env).status.generator;
      g != st.generator ==> Resolves(spec) && g == if spec.generator.Some? then spec.generator else adaptor.generator
  {
  }

  /** A pass changes the generator only of a function that leaves its source to codegen, and
      then to the spec's own, or else to the adaptor's default. */
  lemma GeneratorIsTheSpecs(spec: Spec, st: Status, env: Env)
    ensures var g := Reconcile(spec, st, env).status.generator;
      g != st.generator ==>
        Resolves(spec) && env.adaptor.Some? && g == if spec.generator.Some? then spec.generator else env.adaptor.value.generator
  {
    if env.adaptor.Some? {
      var noted := NoteAdaptor(Begin(spec, st), env.adaptor.value);
      assert Regress(spec, noted, env).generator == st.generator;
      DispatchGenerator(spec, Regress(spec, noted, env), env.adaptor.value, env);
    }
  }

  // ------------------------------------------------------- where it is not the spec's

  /** What the cluster answers while everything succeeds. */
  const SMOOTH: Env := Env(true, 1, true, Some(Adaptor(1, true, None)), true, true, Missing, Generated("repository", "revision", "path"),
    true, true, Built(Some("image")), true, Answer(Some("url")), true, true)

  const FIRST: Spec := Spec(1, None, None, Some("a"), "1")
  const PLAIN: Source := Source("repository", "branch", "path", false)

  /** The first spec has its code generated by a. */
  const GENERATED: Status := Status(1, SourceAvailable, Some("a"), Some(Source("repository", "revision", "path", false)), None, "", "1", "a", Some(1), false)

  lemma FirstIsGenerated()
    ensures Run(Created(FIRST), [Pass(SMOOTH), Pass(SMOOTH), Pass(SMOOTH)]) == World(FIRST, GENERATED)
  {
    var e := Pass(SMOOTH);
    var st1 := NEW_STATUS.(observed := 1, state := OpenAPIValid, adaptorGeneration := Some(1));
    var st2 := st1.(state := BuildValid, generator := Some("a"));
    assert Reconcile(FIRST, NEW_STATUS, SMOOTH).status == st1;
    assert Reconcile(FIRST, st1, SMOOTH).status == st2;
    assert Reconcile(FIRST, st2, SMOOTH).status == GENERATED;
    assert [e, e, e][1..] == [e, e] && [e, e][1..] == [e] && [e][1..] == [];
    assert Run(World(FIRST, st2), [e]) == World(FIRST, GENERATED);
    assert Run(World(FIRST, st1), [e, e]) == World(FIRST, GENERATED);
  }

  /** A later spec names b, and a plain source. */
  const LATER: Spec := Spec(2, None, Some(PLAIN), Some("b"), "2")
  const DEPLOYED: Status := GENERATED.(observed := 2, state := FunctionDeployed, executable := Some("image"), url := "url")

  lemma LaterIsBuilt()
    ensures var st1 := GENERATED.(observed := 2, state := OpenAPIValid);
      var st2 := st1.(state := SourceAvailable);
      var st3 := st2.(state := ExecutableAvailable, executable := Some("image"));
      && Reconcile(LATER, GENERATED, SMOOTH).status == st1
      && Reconcile(LATER, st1, SMOOTH).status == st2
      && Reconcile(LATER, st2, SMOOTH).status == st3
      && Reconcile(LATER, st3, SMOOTH).status == DEPLOYED
  {
  }

  lemma LaterIsDeployed() returns (events: seq<Event>)
    ensures Run(Created(FIRST), events) == World(LATER, DEPLOYED)
  {
    FirstIsGenerated();
    LaterIsBuilt();
    var e := Pass(SMOOTH);
    var w := World(FIRST, GENERATED);
    events := [e, e, e];
    events, w := Extend(events, w, Edit(None, Some(PLAIN), Some("b"), "2"));
    events, w := Extend(events, w, e);
    events, w := Extend(events, w, e);
    events, w := Extend(events, w, e);
    events, w := Extend(events, w, e);
  }

  /** Where it is not: a plain source keeps OpenAPIValid from resolving the generator the spec
      names, so when its inputs drift, codegen runs the one an earlier spec had. */
  lemma PlainSourceKeepsOldGenerator()
    ensures exists events :: var w := Run(Created(FIRST), events);
      && w.status.state.Ready? && w.spec.generator == Some("b")
      && var st := Regress(w.spec, NoteAdaptor(Begin(w.spec, w.status), Adaptor(1, true, None)), SMOOTH);
      EntersCodegen(w.spec, st) && st.generator == Some("a")
  {
    var events := LaterIsDeployed();
    var st := DEPLOYED.(state := Ready, ready := true);
    assert Reconcile(LATER, DEPLOYED, SMOOTH).status == st;
    var w := World(LATER, DEPLOYED);
    events, w := Extend(events, w, Pass(SMOOTH));
    assert Regress(LATER, NoteAdaptor(Begin(LATER, st), Adaptor(1, true, None)), SMOOTH) == st.(state := BuildValid, ready := false);
  }

  lemma Extend(events: seq<Event>, w: World, e: Event) returns (events': seq<Event>, w': World)
    requires w == Run(Created(FIRST), events)
    ensures w' == Step(w, e) == Run(Created(FIRST), events')
  {
    RunSnoc(Created(FIRST), events, e);
    events', w' := events + [e], Step(w, e);
  }

  lemma {:induction false} RunSnoc(w: World, events: seq<Event>, e: Event)
    ensures Run(w, events + [e]) == Step(Run(w, events), e)
    decreases |events|
  {
    if events == [] {
      assert Run(Step(w, e), []) == Step(w, e);
    } else {
      assert (events + [e])[1..] == events[1..] + [e];
      RunSnoc(Step(w, events[0]), events[1..], e);
    }
  }
}
