/** A function left alone: with its spec and adaptor frozen and every Job and build
    succeeding, exactly when its reconciles come to rest in Ready. */
module FunctionSettles {
  import opened FunctionModel
  import opened FunctionInvariant

  /** The frozen surroundings: the adaptor, the image the build yields, and what a lookup of
      the image builder shows. */
  datatype Surroundings = Frozen(adaptor: Adaptor, image: string, kpack: KPack)

  /** Codegen may still be entered: always where a generator is resolved, and under a plain
      source only once codegen has recorded its inputs. */
  predicate MayCodegen(spec: Spec, st: Status) {
    spec.executable.None? && (spec.source.None? || spec.source.value.regenerate || st.recordedApi != "")
  }

  /** An environment in which everything the function needs succeeds: a generator, a git
      secret and codegen only where codegen may be entered, a builder and a build only without
      a spec executable. Job results may differ between passes. */
  predicate Good(f: Surroundings, spec: Spec, codegen: bool, env: Env) {
    && env.hostFound && 0 < env.domains && env.adaptorResolved && env.adaptor == Some(f.adaptor) && env.secretsOk
    && (Resolves(spec) ==> spec.generator.Some? || (f.adaptor.parses && f.adaptor.generator.Some?))
    && (codegen ==> env.gitSecret && env.codegen.Generated? && env.codegen.revision != "" && f.adaptor.parses)
    && (spec.executable.None? ==>
          && env.kpack == f.kpack && (f.kpack == Missing || f.kpack == Latest(f.image))
          && env.builderOk && env.buildAccountOk && env.build == Built(Some(f.image)))
    && env.accountOk && env.deploy.Answer? && DecodeUrl(env.deploy.url).Some?
    && env.observable && env.written
  }

  /** Without spec executable or source, a build needs a revision that codegen pinned. */
  predicate PinnedOk(spec: Spec, st: Status) {
    (spec.executable.None? && spec.source.None? && (st.state.SourceAvailable? || HasExecutable(st.state)))
    ==> Pinned(st.source)
  }

  predicate Buildable(spec: Spec, st: Status) {
    st.observed == spec.generation ==> PinnedOk(spec, st)
  }

  /** Asked to regenerate on every pass, or given an executable that keeps codegen from ever
      catching up with the drift of a source's inputs. */
  predicate Restless(spec: Spec, st: Status) {
    spec.source.Some? && (spec.source.value.regenerate || (spec.executable.Some? && Drifted(spec, st)))
  }

  // ------------------------------------------------------------ measure

  predicate Outdated(f: Surroundings, spec: Spec, st: Status) {
    st.observed < spec.generation || st.adaptorGeneration != Some(f.adaptor.generation)
  }

  predicate StaleImage(f: Surroundings, spec: Spec, st: Status) {
    spec.executable.None? && st.executable != Some(f.image)
  }

  predicate StaleInputs(spec: Spec, st: Status) {
    spec.source.Some? && Drifted(spec, st)
  }

  predicate MissingSource(spec: Spec, st: Status) { spec.source.Some? && st.source.None? }

  function Rank(st: Status): nat {
    match st.state
    case Empty => 7
    case Pending => 7
    case OpenAPIValid => 6
    case BuildValid => 5
    case SourceAvailable => 4
    case ExecutableAvailable => 3
    case FunctionDeployed => 2
    case Ready => if st.ready then 0 else 1
  }

  function One(b: bool): nat { if b then 1 else 0 }

  /** Drift first, then a missing source, then how far the state is from Ready. */
  function Measure(f: Surroundings, spec: Spec, st: Status): (m: nat)
    ensures m <= 33
  {
    8 * (One(Outdated(f, spec, st)) + One(StaleImage(f, spec, st)) + One(StaleInputs(spec, st)))
    + 2 * One(MissingSource(spec, st)) + Rank(st)
  }

  /** At rest: nothing to notice, nothing to repair. */
  predicate Settled(f: Surroundings, spec: Spec, st: Status) {
    && st.state.Ready? && st.ready && !Outdated(f, spec, st)
    && !(StaleImage(f, spec, st) && st.source.Some? && f.kpack.Latest? && f.image != "")
    && (spec.source.Some? ==> SkipCodegen(spec, st) && st.source.Some?)
  }

  /** What rest means: the spec's own executable is served, or the image builder's latest; and
      there is a URL to serve it at. */
  lemma SettledServes(f: Surroundings, spec: Spec, st: Status)
    requires Inv(spec, st) && Settled(f, spec, st)
    ensures st.url != "" && st.executable.Some?
    ensures spec.executable.Some? ==> st.executable == spec.executable
    ensures spec.executable.None? && st.source.Some? && f.kpack.Latest? && f.image != "" ==> st.executable == Some(f.image)
    ensures spec.source.Some? && st.recordedApi != "" ==> st.recordedApi == spec.api && Some(st.recordedGenerator) == st.generator
  {
  }

  // ------------------------------------------------------------ one pass

  lemma GoodPass(f: Surroundings, spec: Spec, st: Status, env: Env)
    requires Inv(spec, st) && Good(f, spec, MayCodegen(spec, st), env)
    ensures var st1 := Regress(spec, NoteAdaptor(Begin(spec, st), f.adaptor), env);
      && Dispatch(spec, st1, f.adaptor, env).Next?
      && (MayCodegen(spec, Dispatch(spec, st1, f.adaptor, env).status) ==> MayCodegen(spec, st))
      && Reconcile(spec, st, env) == Next(Dispatch(spec, st1, f.adaptor, env).status.(observed := spec.generation))
  {
    KeepReconcile(spec, st, env);
  }

  /** A pass over a Ready status that nothing outdates. */
  lemma ReadyPass(f: Surroundings, spec: Spec, st: Status, env: Env)
    requires Inv(spec, st) && Good(f, spec, MayCodegen(spec, st), env) && st.state.Ready? && !Outdated(f, spec, st)
    ensures Reconcile(spec, st, env) == Next(st) <==> Settled(f, spec, st)
    ensures !Restless(spec, st) && Buildable(spec, st) && Reconcile(spec, st, env) != Next(st) ==>
      Measure(f, spec, Reconcile(spec, st, env).status) < Measure(f, spec, st)
  {
    GoodPass(f, spec, st, env);
  }

  /** A pass over any other status that nothing outdates: one state forward. */
  lemma ForwardPass(f: Surroundings, spec: Spec, st: Status, env: Env)
    requires Inv(spec, st) && Good(f, spec, MayCodegen(spec, st), env) && !st.state.Ready? && !Outdated(f, spec, st)
    requires Buildable(spec, st) && !Restless(spec, st)
    ensures Measure(f, spec, Reconcile(spec, st, env).status) < Measure(f, spec, st)
  {
  }

  /** A pass that catches up with a new spec. */
  lemma NewSpecPass(f: Surroundings, spec: Spec, st: Status, env: Env)
    requires Inv(spec, st) && Good(f, spec, MayCodegen(spec, st), env) && st.observed < spec.generation && !Restless(spec, st)
    ensures Measure(f, spec, Reconcile(spec, st, env).status) < Measure(f, spec, st)
  {
    GoodPass(f, spec, st, env);
  }

  /** A pass that catches up with a new adaptor. */
  lemma NewAdaptorPass(f: Surroundings, spec: Spec, st: Status, env: Env)
    requires Inv(spec, st) && Good(f, spec, MayCodegen(spec, st), env) && st.observed == spec.generation && !Restless(spec, st)
    requires st.adaptorGeneration != Some(f.adaptor.generation)
    ensures Measure(f, spec, Reconcile(spec, st, env).status) < Measure(f, spec, st)
  {
    GoodPass(f, spec, st, env);
  }

  lemma KeepPinned(spec: Spec, st: Status, adaptor: Adaptor, env: Env)
    requires PinnedOk(spec, st)
    requires StatusOk(st)
    requires Resolves(spec) && env.codegen.Generated? ==> env.codegen.revision != ""
    ensures PinnedOk(spec, Dispatch(spec, st, adaptor, env).status)
  {
  }

  lemma KeepBuildable(spec: Spec, st: Status, env: Env)
    requires Inv(spec, st) && Buildable(spec, st)
    requires Resolves(spec) && env.codegen.Generated? ==> env.codegen.revision != ""
    ensures Buildable(spec, Reconcile(spec, st, env).status)
  {
    KeepReconcile(spec, st, env);
    BegunOk(spec, st, env);
    assert PinnedOk(spec, Begin(spec, st));
    if env.hostFound && env.adaptorResolved && env.adaptor.Some? {
      var st1 := Regress(spec, NoteAdaptor(Begin(spec, st), env.adaptor.value), env);
      KeepDispatch(spec, st1, env.adaptor.value, env);
      KeepPinned(spec, st1, env.adaptor.value, env);
    }
  }

  lemma KeepRestless(f: Surroundings, spec: Spec, st: Status, env: Env)
    requires Inv(spec, st) && Good(f, spec, MayCodegen(spec, st), env)
    ensures Restless(spec, Reconcile(spec, st, env).status) <==> Restless(spec, st)
  {
    GoodPass(f, spec, st, env);
  }

  /** A pass in good surroundings: at rest nothing changes, and otherwise the measure falls. */
  lemma Progress(f: Surroundings, spec: Spec, st: Status, env: Env)
    requires Inv(spec, st) && Good(f, spec, MayCodegen(spec, st), env) && Buildable(spec, st) && !Restless(spec, st)
    ensures if Settled(f, spec, st) then Reconcile(spec, st, env).status == st
      else Measure(f, spec, Reconcile(spec, st, env).status) < Measure(f, spec, st)
  {
    if st.observed < spec.generation { NewSpecPass(f, spec, st, env); }
    else if Outdated(f, spec, st) { NewAdaptorPass(f, spec, st, env); }
    else if st.state.Ready? { ReadyPass(f, spec, st, env); GoodPass(f, spec, st, env); }
    else { ForwardPass(f, spec, st, env); }
  }

  // ------------------------------------------------------------ runs

  function Passes(spec: Spec, st: Status, envs: seq<Env>): Status
    decreases |envs|
  {
    if envs == [] then st
    else Passes(spec, Reconcile(spec, st, envs[0]).status, envs[1..])
  }

  predicate AllGood(f: Surroundings, spec: Spec, st: Status, envs: seq<Env>) {
    forall i :: 0 <= i < |envs| ==> Good(f, spec, MayCodegen(spec, st), envs[i])
  }

  lemma {:induction false} StaysSettled(f: Surroundings, spec: Spec, st: Status, envs: seq<Env>)
    requires Inv(spec, st) && AllGood(f, spec, st, envs) && Settled(f, spec, st)
    ensures Passes(spec, st, envs) == st
    decreases |envs|
  {
    if envs != [] {
      ReadyPass(f, spec, st, envs[0]);
      StaysSettled(f, spec, st, envs[1..]);
    }
  }

  /** Unless it is restless, a function comes to rest within its measure, at most 33 passes,
      and then every pass leaves its status exactly as it is. */
  lemma {:induction false} Settles(f: Surroundings, spec: Spec, st: Status, envs: seq<Env>)
    requires Inv(spec, st) && Buildable(spec, st) && AllGood(f, spec, st, envs)
    requires !Restless(spec, st) && Measure(f, spec, st) <= |envs|
    ensures Settled(f, spec, Passes(spec, st, envs))
    decreases |envs|
  {
    if envs == [] {
      assert Measure(f, spec, st) == 0;
    } else if Settled(f, spec, st) {
      StaysSettled(f, spec, st, envs);
    } else {
      var env := envs[0];
      Progress(f, spec, st, env);
      KeepReconcile(spec, st, env);
      KeepBuildable(spec, st, env);
      KeepRestless(f, spec, st, env);
      GoodPass(f, spec, st, env);
      Settles(f, spec, Reconcile(spec, st, env).status, envs[1..]);
    }
  }

  /** A restless one never does. */
  lemma {:induction false} NeverSettles(f: Surroundings, spec: Spec, st: Status, envs: seq<Env>)
    requires Inv(spec, st) && AllGood(f, spec, st, envs) && Restless(spec, st)
    ensures !Settled(f, spec, Passes(spec, st, envs))
    decreases |envs|
  {
    if envs != [] {
      KeepReconcile(spec, st, envs[0]);
      KeepRestless(f, spec, st, envs[0]);
      GoodPass(f, spec, st, envs[0]);
      NeverSettles(f, spec, Reconcile(spec, st, envs[0]).status, envs[1..]);
    }
  }

  /** The restless round: with both an executable and a drifted source, Ready goes back to
      deploying the same executable, and three passes return the status it began with. */
  lemma RestlessRound(f: Surroundings, spec: Spec, st: Status, env: Env)
    requires Inv(spec, st) && Good(f, spec, MayCodegen(spec, st), env) && st.state.Ready? && st.ready && !Outdated(f, spec, st)
    requires Restless(spec, st) && spec.executable.Some? && st.executable == spec.executable
    requires env.deploy == Answer(Some(st.url))
    ensures Passes(spec, st, [env]).state.ExecutableAvailable?
    ensures Passes(spec, st, [env, env, env]) == st
  {
    var st1 := st.(state := ExecutableAvailable, ready := false);
    var st2 := st1.(state := FunctionDeployed);
    assert Reconcile(spec, st, env) == Next(st1);
    assert Reconcile(spec, st1, env) == Next(st2);
    assert Reconcile(spec, st2, env) == Next(st);
    assert [env, env, env][1..] == [env, env] && [env, env][1..] == [env] && [env][1..] == [];
    assert Passes(spec, st2, [env]) == Passes(spec, st, []) == st;
    assert Passes(spec, st1, [env, env]) == st;
  }

  /** A build without a source to build from: from SourceAvailable, with no spec source and no
      pinned revision, no pass moves the function on. */
  lemma StuckWithoutRevision(f: Surroundings, spec: Spec, st: Status, env: Env)
    requires Inv(spec, st) && Good(f, spec, MayCodegen(spec, st), env) && !Outdated(f, spec, st)
    requires st.state.SourceAvailable? && !Buildable(spec, st)
    ensures Reconcile(spec, st, env) == Next(st)
  {
  }

  /** What the cluster answers while codegen succeeds without a revision. */
  function NoRevision(adaptor: Adaptor): Env {
    Env(true, 1, true, Some(adaptor), true, true, Missing, Generated("repository", "", "path"),
        true, true, Building, true, DeployRunning, true, true)
  }

  /** And every function that needs codegen can be brought there, by three passes from its
      creation in which codegen succeeds and reports an empty revision. */
  lemma ReachesStuck(spec: Spec, generation: nat)
    requires 0 < spec.generation && spec.executable.None? && spec.source.None? && spec.generator.Some?
    ensures var env := NoRevision(Adaptor(generation, true, None));
      var w := Run(Created(spec), [Pass(env), Pass(env), Pass(env)]);
      w.spec == spec && w.status.observed == spec.generation
      && w.status.state.SourceAvailable? && !Buildable(w.spec, w.status)
  {
    var adaptor := Adaptor(generation, true, None);
    var env := NoRevision(adaptor);
    var st1 := NEW_STATUS.(observed := spec.generation, state := OpenAPIValid, adaptorGeneration := Some(generation));
    var st2 := st1.(state := BuildValid, generator := spec.generator);
    var st3 := RecordInputs(spec, st2.(source := Some(Source("repository", "", "path", false)))).(state := SourceAvailable);
    assert Reconcile(spec, NEW_STATUS, env).status == st1;
    assert Reconcile(spec, st1, env).status == st2;
    assert Reconcile(spec, st2, env).status == st3;
    var e := Pass(env);
    assert [e, e, e][1..] == [e, e] && [e, e][1..] == [e] && [e][1..] == [];
    assert Run(World(spec, st2), [e]) == World(spec, st3);
    assert Run(World(spec, st1), [e, e]) == World(spec, st3);
  }

  /** Codegen that never reports an empty revision never leaves a function in that place. */
  lemma {:induction false} AlwaysBuildable(w: World, events: seq<Event>)
    requires Inv(w.spec, w.status) && Buildable(w.spec, w.status)
    requires forall i :: 0 <= i < |events| && events[i].Pass? && events[i].env.codegen.Generated? ==> events[i].env.codegen.revision != ""
    ensures Inv(Run(w, events).spec, Run(w, events).status)
    ensures Buildable(Run(w, events).spec, Run(w, events).status)
    decreases |events|
  {
    if events != [] {
      if events[0].Pass? {
        KeepReconcile(w.spec, w.status, events[0].env);
        KeepBuildable(w.spec, w.status, events[0].env);
      }
      AlwaysBuildable(Step(w, events[0]), events[1..]);
    }
  }
}
