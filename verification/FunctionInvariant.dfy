/** What holds of a function's status in every run, and that a function left alone settles. */
module FunctionInvariant {
  import opened FunctionModel

  predicate HasExecutable(s: State) { s.ExecutableAvailable? || s.FunctionDeployed? || s.Ready? }

  predicate HasUrl(s: State) { s.FunctionDeployed? || s.Ready? }

  predicate PastResolution(s: State) { s.BuildValid? || s.SourceAvailable? || HasExecutable(s) }

  /** What a status says by itself. */
  predicate StatusOk(st: Status) {
    && (HasExecutable(st.state) ==> st.executable.Some?)
    && (HasUrl(st.state) ==> st.url != "")
    && (st.ready ==> st.state.Ready?)
    && (st.recordedApi != "" ==> st.generator.Some?)
  }

  /** Past its resolution a function that needs a generator has one, and it is the spec's own
      if the spec names one. */
  predicate GeneratorOk(spec: Spec, st: Status) {
    PastResolution(st.state) && Resolves(spec) ==>
      st.generator.Some? && (spec.generator.Some? ==> st.generator == spec.generator)
  }

  /** A function whose spec names an executable has that one. */
  predicate ExecutableOk(spec: Spec, st: Status) {
    HasExecutable(st.state) && spec.executable.Some? ==> st.executable == spec.executable
  }

  /** What a status says about the spec it was last brought in line with. */
  predicate SpecOk(spec: Spec, st: Status) { GeneratorOk(spec, st) && ExecutableOk(spec, st) && !st.state.Empty? }

  predicate Inv(spec: Spec, st: Status) {
    StatusOk(st) && st.observed <= spec.generation && (st.observed == spec.generation ==> SpecOk(spec, st))
  }

  /** Codegen is entered only with a resolved generator. */
  predicate EntersCodegen(spec: Spec, st: Status) {
    st.state.BuildValid? && spec.executable.None? && !SkipCodegen(spec, st)
  }

  lemma BegunOk(spec: Spec, st: Status, env: Env)
    requires Inv(spec, st)
    ensures StatusOk(Begin(spec, st)) && SpecOk(spec, Begin(spec, st))
  {
  }

  /** The panics there are: a host without a domain, and a build without an image. */
  predicate Faulty(spec: Spec, env: Env) {
    env.domains == 0 || (spec.executable.None? && env.build == Built(None))
  }

  lemma KeepBuildValid(spec: Spec, st: Status, adaptor: Adaptor, env: Env)
    requires StatusOk(st) && SpecOk(spec, st) && st.state.BuildValid?
    ensures EntersCodegen(spec, st) ==> st.generator.Some?
    ensures HandleBuildValid(spec, st, adaptor, env).Panic? ==> env.domains == 0
    ensures var st' := HandleBuildValid(spec, st, adaptor, env).status;
      StatusOk(st') && SpecOk(spec, st')
  {
  }

  lemma KeepOpenAPIValid(spec: Spec, st: Status, adaptor: Adaptor)
    requires StatusOk(st) && SpecOk(spec, st) && st.state.OpenAPIValid? && !st.ready
    ensures HandleOpenAPIValid(spec, st, adaptor).Next?
    ensures var st' := HandleOpenAPIValid(spec, st, adaptor).status; StatusOk(st') && SpecOk(spec, st')
  {
  }

  lemma KeepSourceAvailable(spec: Spec, st: Status, env: Env)
    requires StatusOk(st) && SpecOk(spec, st) && st.state.SourceAvailable? && !st.ready
    ensures HandleSourceAvailable(spec, st, env).Panic? ==> spec.executable.None? && env.build == Built(None)
    ensures var st' := HandleSourceAvailable(spec, st, env).status; StatusOk(st') && SpecOk(spec, st')
  {
  }

  lemma KeepDispatch(spec: Spec, st: Status, adaptor: Adaptor, env: Env)
    requires StatusOk(st) && SpecOk(spec, st) && !st.ready
    ensures EntersCodegen(spec, st) ==> st.generator.Some?
    ensures Dispatch(spec, st, adaptor, env).Panic? ==> Faulty(spec, env)
    ensures var st' := Dispatch(spec, st, adaptor, env).status;
      StatusOk(st') && SpecOk(spec, st')
  {
    match st.state
    case OpenAPIValid => KeepOpenAPIValid(spec, st, adaptor);
    case BuildValid => KeepBuildValid(spec, st, adaptor, env);
    case SourceAvailable => KeepSourceAvailable(spec, st, env);
    case _ =>
  }

  /** One reconcile keeps the invariant, and panics only at a faulty answer of the cluster. */
  lemma KeepReconcile(spec: Spec, st: Status, env: Env)
    requires Inv(spec, st)
    ensures Inv(spec, Reconcile(spec, st, env).status)
    ensures Reconcile(spec, st, env).Panic? ==> Faulty(spec, env)
  {
    BegunOk(spec, st, env);
    if env.hostFound && env.adaptorResolved && env.adaptor.Some? {
      var noted := NoteAdaptor(Begin(spec, st), env.adaptor.value);
      KeepDispatch(spec, Regress(spec, noted, env), env.adaptor.value, env);
    }
  }

  lemma {:induction false} KeepRun(w: World, events: seq<Event>)
    requires Inv(w.spec, w.status)
    ensures Inv(Run(w, events).spec, Run(w, events).status)
    decreases |events|
  {
    if events != [] {
      if events[0].Pass? { KeepReconcile(w.spec, w.status, events[0].env); }
      KeepRun(Step(w, events[0]), events[1..]);
    }
  }

  /** In every run from creation, whatever the spec, the adaptor, the image builder and the
      Jobs do, whichever status writes are lost and whichever passes panic: a function past
      its build has an executable, the current spec's own if it names one, and one past its
      deployment a URL; the Ready condition is True only in Ready; and the next pass panics only if the host has no domain or a build
      reports success without an image, never for want of a generator. */
  lemma PipelineIsSound(spec: Spec, events: seq<Event>, env: Env)
    requires 0 < spec.generation
    ensures var w := Run(Created(spec), events);
      && (HasExecutable(w.status.state) ==> w.status.executable.Some?)
      && (HasUrl(w.status.state) ==> w.status.url != "")
      && (w.status.ready ==> w.status.state.Ready?)
      && (w.status.observed == w.spec.generation && HasExecutable(w.status.state) && w.spec.executable.Some? ==>
            w.status.executable == w.spec.executable)
      && (Reconcile(w.spec, w.status, env).Panic? ==> Faulty(w.spec, env))
  {
    KeepRun(Created(spec), events);
    var w := Run(Created(spec), events);
    KeepReconcile(w.spec, w.status, env);
  }

  /** And wherever a pass of a run takes the codegen branch, its generator is resolved; and
      where the spec names one and leaves the source to codegen, it is the spec's. */
  lemma CodegenHasGenerator(spec: Spec, events: seq<Event>, env: Env)
    requires 0 < spec.generation
    ensures var w := Run(Created(spec), events);
      env.adaptor.Some? ==>
        var st := Regress(w.spec, NoteAdaptor(Begin(w.spec, w.status), env.adaptor.value), env);
        EntersCodegen(w.spec, st) ==>
          st.generator.Some? && (Resolves(w.spec) && w.spec.generator.Some? ==> st.generator == w.spec.generator)
  {
    KeepRun(Created(spec), events);
    var w := Run(Created(spec), events);
    BegunOk(w.spec, w.status, env);
    if env.adaptor.Some? {
      KeepDispatch(w.spec, Regress(w.spec, NoteAdaptor(Begin(w.spec, w.status), env.adaptor.value), env), env.adaptor.value, env);
    }
  }

  /** A newer spec or another adaptor starts a function over: after a pass that gets to the
      adaptor it is no longer deployed. */
  lemma ChangesStartOver(spec: Spec, st: Status, env: Env)
    requires Inv(spec, st) && env.hostFound && env.adaptorResolved && env.adaptor.Some? && env.written
    requires st.observed < spec.generation
      || (st.adaptorGeneration.Some? && st.adaptorGeneration.value != env.adaptor.value.generation)
    ensures var st' := Reconcile(spec, st, env).status;
      && !HasUrl(st'.state) && !st'.ready && st'.observed == spec.generation
      && st'.adaptorGeneration == Some(env.adaptor.value.generation)
  {
  }
}
