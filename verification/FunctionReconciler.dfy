/** The reconciler itself, updating a function's status in place, state by state. Each handler
    says where it can leave to, what it keeps and what it does not touch. */
module FunctionReconciler {
  import opened FunctionModel
  import opened FunctionInvariant
  import opened FunctionSettles

  /** What a handler keeps: the parts of the invariant it can rely on again. */
  predicate Sound(spec: Spec, st: Status) { StatusOk(st) && SpecOk(spec, st) }

  /** What no handler touches. */
  predicate SameElsewhere(a: Status, b: Status) {
    a.observed == b.observed && a.adaptorGeneration == b.adaptorGeneration
  }

  class KDexFunction {
    const spec: Spec
    var status: Status

    constructor (spec: Spec, status: Status)
      ensures this.spec == spec && this.status == status
    {
      this.spec, this.status := spec, status;
    }

    /** Reconcile, with the deferred status write. It takes the pass the model takes and keeps
        the invariant; in good surroundings a function that is not restless either is at rest
        and stays exactly as it is, or comes nearer to it. */
    method Reconcile(env: Env) returns (panicked: bool)
      requires Inv(spec, status)
      modifies this
      ensures FunctionModel.Reconcile(spec, old(status), env) == if panicked then Panic(status) else Next(status)
      ensures Inv(spec, status)
      ensures panicked ==> Faulty(spec, env)
      ensures forall f :: Good(f, spec, MayCodegen(spec, old(status)), env) && Buildable(spec, old(status)) && !Restless(spec, old(status)) ==>
        if Settled(f, spec, old(status)) then status == old(status) else Measure(f, spec, status) < Measure(f, spec, old(status))
    {
      ghost var before := status;
      KeepReconcile(spec, status, env);
      var observed := status;
      panicked := Pass(env);
      status := status.(observed := spec.generation);
      if !env.written { status := observed; }
      forall f | Good(f, spec, MayCodegen(spec, before), env) && Buildable(spec, before) && !Restless(spec, before)
        ensures if Settled(f, spec, before) then status == before else Measure(f, spec, status) < Measure(f, spec, before)
      {
        Progress(f, spec, before, env);
      }
    }

    /** Everything up to the deferred write. */
    method Pass(env: Env) returns (panicked: bool)
      requires Inv(spec, status)
      modifies this
      ensures Body(spec, old(status), env) == if panicked then Panic(status) else Next(status)
    {
      BegunOk(spec, status, env);
      if status.observed < spec.generation { status := status.(state := Pending); }
      status := status.(ready := false);
      if !env.hostFound || !env.adaptorResolved || env.adaptor.None? { return false; }
      var adaptor := env.adaptor.value;
      if status.adaptorGeneration.Some? && status.adaptorGeneration.value != adaptor.generation {
        status := status.(state := OpenAPIValid);
      }
      status := status.(adaptorGeneration := Some(adaptor.generation));
      if !env.secretsOk { return false; }
      if spec.executable.None? && status.source.Some? {
        if env.kpack.LookupFailed? { return false; }
        if env.kpack.Latest? && env.kpack.image != "" && status.state.Ready?
           && status.executable.Some? && status.executable.value != env.kpack.image {
          status := status.(state := SourceAvailable);
        }
      }
      if status.state.Ready? && spec.source.Some? && !SkipCodegen(spec, status) {
        status := status.(state := BuildValid);
      }
      panicked := Handle(adaptor, env);
    }

    /** The dispatch on the state. */
    method Handle(adaptor: Adaptor, env: Env) returns (panicked: bool)
      requires Sound(spec, status) && !status.ready
      modifies this
      ensures Dispatch(spec, old(status), adaptor, env) == if panicked then Panic(status) else Next(status)
    {
      match status.state
      case Pending =>
        if env.domains == 0 { return true; }
        status := status.(state := OpenAPIValid);
        return false;
      case OpenAPIValid => OnOpenAPIValid(adaptor); return false;
      case BuildValid => panicked := OnBuildValid(adaptor, env);
      case SourceAvailable => panicked := OnSourceAvailable(env);
      case ExecutableAvailable => OnExecutableAvailable(env); return false;
      case FunctionDeployed =>
        if env.observable { status := status.(state := Ready, ready := true); }
        return false;
      case Ready => OnReady(env); return false;
    }

    /** Leaves for the executable, the source or codegen, and for codegen only with a generator:
        the spec's own, or else the adaptor's default; where there is one it always leaves. */
    method OnOpenAPIValid(adaptor: Adaptor)
      requires Sound(spec, status) && status.state.OpenAPIValid? && !status.ready
      modifies this
      ensures Next(status) == HandleOpenAPIValid(spec, old(status), adaptor)
      ensures Sound(spec, status) && SameElsewhere(status, old(status)) && !status.ready
      ensures status.source == old(status.source) && status.url == old(status.url)
      ensures status.recordedApi == old(status.recordedApi) && status.recordedGenerator == old(status.recordedGenerator)
      ensures status.state.ExecutableAvailable? <==> spec.executable.Some?
      ensures status.state.BuildValid? ==>
        Resolves(spec) && status.generator.Some? && status.generator == if spec.generator.Some? then spec.generator else adaptor.generator
      ensures !status.state.BuildValid? ==> status.generator == old(status.generator)
      ensures status.executable == if spec.executable.Some? then spec.executable else old(status.executable)
      ensures status.state in {OpenAPIValid, BuildValid, SourceAvailable, ExecutableAvailable}
      ensures Resolves(spec) ==> spec.generator.Some? || (adaptor.parses && adaptor.generator.Some?) ==> Rank(status) < Rank(old(status))
    {
      if spec.executable.Some? {
        status := status.(executable := spec.executable, state := ExecutableAvailable);
        return;
      } else if spec.source.Some? && !Regenerate(spec.source) {
        status := status.(state := SourceAvailable);
        return;
      }
      if spec.generator.Some? {
        status := status.(generator := spec.generator);
      } else {
        if !adaptor.parses || adaptor.generator.None? { return; }
        status := status.(generator := adaptor.generator);
      }
      status := status.(state := BuildValid);
    }

    /** Never touches the generator or the URL, nor a revision codegen pinned unless codegen
        ran; leaves for SourceAvailable only with a source and with nothing drifted; and panics
        only for want of a domain. */
    method OnBuildValid(adaptor: Adaptor, env: Env) returns (panicked: bool)
      requires Sound(spec, status) && status.state.BuildValid? && !status.ready
      modifies this
      ensures HandleBuildValid(spec, old(status), adaptor, env) == if panicked then Panic(status) else Next(status)
      ensures Sound(spec, status) && SameElsewhere(status, old(status)) && !status.ready
      ensures status.generator == old(status.generator) && status.url == old(status.url)
      ensures status.state in {BuildValid, SourceAvailable, ExecutableAvailable}
      ensures status.state.ExecutableAvailable? <==> spec.executable.Some?
      ensures status.state.SourceAvailable? ==> status.source.Some? && !Drifted(spec, status)
      ensures EntersCodegen(spec, old(status)) && status.state.SourceAvailable? ==> env.codegen.Generated?
      ensures status.state.SourceAvailable? && EntersCodegen(spec, old(status)) ==>
        && status.source == Some(Source(env.codegen.repository, env.codegen.revision, env.codegen.path, false))
        && status.recordedApi == spec.api && Some(status.recordedGenerator) == status.generator
      ensures status.state.SourceAvailable? && !EntersCodegen(spec, old(status)) ==>
        && status.source == (if Pinned(old(status.source)) then old(status.source) else spec.source)
        && status.recordedApi == old(status.recordedApi) && status.recordedGenerator == old(status.recordedGenerator)
      ensures status.executable == if spec.executable.Some? then spec.executable else old(status.executable)
      ensures Pinned(old(status.source)) && status.source != old(status.source) ==> EntersCodegen(spec, old(status)) && env.codegen.Generated?
      ensures panicked ==> env.domains == 0 && status == old(status)
      ensures env.gitSecret && 0 < env.domains && env.codegen.Generated? && adaptor.parses ==> Rank(status) < Rank(old(status))
    {
      if spec.executable.Some? {
        status := status.(executable := spec.executable, state := ExecutableAvailable);
        return false;
      }
      if SkipCodegen(spec, status) {
        if status.source.None? || status.source.value.revision == "" { status := status.(source := spec.source); }
      } else {
        if !env.gitSecret { return false; }
        if env.domains == 0 { return true; }
        if !env.codegen.Generated? { return false; }
        status := status.(source := Some(Source(env.codegen.repository, env.codegen.revision, env.codegen.path, false)));
        status := status.(recordedApi := spec.api);
        if status.generator.Some? { status := status.(recordedGenerator := status.generator.value); }
        if !adaptor.parses { return false; }
      }
      status := status.(state := SourceAvailable);
      return false;
    }

    /** Changes nothing but the executable, and leaves only with one: the spec's own, or the
        image of a build that had a source. */
    method OnSourceAvailable(env: Env) returns (panicked: bool)
      requires Sound(spec, status) && status.state.SourceAvailable? && !status.ready
      modifies this
      ensures HandleSourceAvailable(spec, old(status), env) == if panicked then Panic(status) else Next(status)
      ensures Sound(spec, status)
      ensures status == old(status).(state := status.state, executable := status.executable)
      ensures status.state.SourceAvailable? ==> status == old(status)
      ensures !status.state.SourceAvailable? ==>
        && status.state.ExecutableAvailable?
        && status.executable == (if spec.executable.Some? then spec.executable else env.build.image)
        && (spec.executable.None? ==> spec.source.Some? || Pinned(status.source))
      ensures panicked ==> spec.executable.None? && env.build == Built(None) && status == old(status)
      ensures PinnedOk(spec, old(status)) && env.builderOk && env.buildAccountOk && env.build.Built? && env.build.image.Some? ==>
        Rank(status) < Rank(old(status))
    {
      if spec.executable.Some? {
        status := status.(executable := spec.executable);
      } else {
        var hasSource := spec.source.Some? || (status.source.Some? && status.source.value.revision != "");
        if !hasSource { return false; }
        if !env.builderOk || !env.buildAccountOk { return false; }
        if !env.build.Built? { return false; }
        if env.build.image.None? { return true; }
        status := status.(executable := env.build.image);
      }
      status := status.(state := ExecutableAvailable);
      return false;
    }

    /** Deploys only a function with an executable, whose URL then is the deployer's answer and
        alone changes. A status left without one is repaired from the spec, or goes back. */
    method OnExecutableAvailable(env: Env)
      requires status.state.ExecutableAvailable? && !status.ready
      modifies this
      ensures Next(status) == HandleExecutableAvailable(spec, old(status), env)
      ensures Sound(spec, old(status)) ==> Sound(spec, status)
      ensures status == old(status).(state := status.state, url := status.url, executable := status.executable)
      ensures old(status.executable).None? ==>
        && status.executable == spec.executable && status.url == old(status.url)
        && status.state == if spec.executable.Some? then ExecutableAvailable else OpenAPIValid
      ensures old(status.executable).Some? ==>
        && status.executable == old(status.executable)
        && (status == old(status) || (status.state.FunctionDeployed? && status.url != "" && env.deploy == Answer(Some(status.url))))
      ensures old(status.executable).Some? && env.accountOk && env.deploy.Answer? && DecodeUrl(env.deploy.url).Some? ==>
        Rank(status) < Rank(old(status))
    {
      if status.executable.None? {
        if spec.executable.Some? {
          status := status.(executable := spec.executable);
          return;
        }
        status := status.(state := OpenAPIValid);
        return;
      }
      if !env.accountOk || !env.deploy.Answer? { return; }
      var url := DecodeUrl(env.deploy.url);
      if url.None? { return; }
      status := status.(url := url.value);
      status := status.(state := FunctionDeployed);
    }

    /** Stays in Ready, and changes nothing but a missing source and the Ready condition, which
        is True exactly when the source was recorded and the deployment is there. A status left
        without an executable goes back to SourceAvailable as it is. */
    method OnReady(env: Env)
      requires status.state.Ready? && !status.ready
      modifies this
      ensures Next(status) == HandleReady(spec, old(status), env)
      ensures Sound(spec, old(status)) ==> Sound(spec, status)
      ensures status == old(status).(state := status.state, source := status.source, ready := status.ready)
      ensures old(status.executable).None? ==> status == old(status).(state := SourceAvailable)
      ensures old(status.executable).Some? ==>
        && status.state.Ready? && !MissingSource(spec, status)
        && status.source == (if MissingSource(spec, old(status)) then spec.source else old(status.source))
        && (status.ready <==> !MissingSource(spec, old(status)) && env.observable)
    {
      if status.executable.None? {
        status := status.(state := SourceAvailable);
        return;
      }
      if spec.source.Some? && status.source.None? {
        status := status.(source := spec.source);
        return;
      }
      if !env.observable { return; }
      status := status.(ready := true);
    }
  }
}
