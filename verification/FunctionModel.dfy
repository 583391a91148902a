/** The build and deploy pipeline of an origin-backed function: its specification, the
    status a reconcile reads and writes, everything the cluster answers during one, and
    what the reconcile makes of them. */
module FunctionModel {

  datatype Option<+T> = None | Some(value: T)

  /** revision "" is none: the build then follows the branch. */
  datatype Source = Source(repository: string, revision: string, path: string, regenerate: bool)

  /** The origin part of a function's spec. Executables and generators are named by their
      image; api is the hash of spec.api. */
  datatype Spec = Spec(generation: nat, executable: Option<string>, source: Option<Source>, generator: Option<string>, api: string)

  datatype State = Empty | Pending | OpenAPIValid | BuildValid | SourceAvailable | ExecutableAvailable | FunctionDeployed | Ready

  /** recordedApi and recordedGenerator are the codegen-input attributes, "" when unset; ready
      is whether the Ready condition is True. */
  datatype Status = Status(
    observed: nat, state: State,
    generator: Option<string>, source: Option<Source>, executable: Option<string>, url: string,
    recordedApi: string, recordedGenerator: string, adaptorGeneration: Option<nat>,
    ready: bool)

  /** parses: the adaptor's default builder/generator pair is well formed. */
  datatype Adaptor = Adaptor(generation: nat, parses: bool, generator: Option<string>)

  datatype KPack = Missing | LookupFailed | Latest(image: string)
  datatype Codegen = CodegenRefused | CodegenRunning | NoPod | Exhausted | Garbled | Generated(repository: string, revision: string, path: string)
  datatype Build = ImmutableChanged | BuildRefused | BuildFailed | Building | Built(image: Option<string>)
  datatype Deploy = DeployRefused | DeployRunning | NoDeployPod | DeployExhausted | Answer(url: Option<string>)

  /** Everything one reconcile asks the cluster. domains: how many the host routes. Built(None)
      is an image builder that reports success and no image; Answer(None) a termination
      message that does not parse. written: the status update went through. */
  datatype Env = Env(
    hostFound: bool, domains: nat, adaptorResolved: bool, adaptor: Option<Adaptor>, secretsOk: bool, gitSecret: bool,
    kpack: KPack, codegen: Codegen,
    builderOk: bool, buildAccountOk: bool, build: Build,
    accountOk: bool, deploy: Deploy, observable: bool,
    written: bool)

  /** What a pass over a status comes to: a return, or a panic, with the status as it then
      is. The deferred write runs either way. */
  datatype Pass = Next(status: Status) | Panic(status: Status)

  // ------------------------------------------------------------ codegen inputs

  predicate Regenerate(source: Option<Source>) { source.Some? && source.value.regenerate }

  /** A pass past OpenAPIValid resolves a generator. */
  predicate Resolves(spec: Spec) {
    spec.executable.None? && (spec.source.None? || spec.source.value.regenerate)
  }

  /** The recorded inputs of the last codegen differ from the current ones. */
  predicate Drifted(spec: Spec, st: Status) {
    && st.recordedApi != ""
    && (spec.api != st.recordedApi || (if st.generator.Some? then st.generator.value else "") != st.recordedGenerator)
  }

  predicate SkipCodegen(spec: Spec, st: Status) {
    spec.source.Some? && !spec.source.value.regenerate && !Drifted(spec, st)
  }

  function RecordInputs(spec: Spec, st: Status): Status {
    st.(recordedApi := spec.api,
        recordedGenerator := if st.generator.Some? then st.generator.value else st.recordedGenerator)
  }

  // ------------------------------------------------------------ handlers

  /** The schema URL names the host's first domain. */
  function HandlePending(st: Status, env: Env): Pass {
    if env.domains == 0 then Panic(st) else Next(st.(state := OpenAPIValid))
  }

  function TakeExecutable(spec: Spec, st: Status): Status {
    st.(executable := spec.executable, state := ExecutableAvailable)
  }

  function HandleOpenAPIValid(spec: Spec, st: Status, adaptor: Adaptor): Pass {
    if spec.executable.Some? then Next(TakeExecutable(spec, st))
    else if spec.source.Some? && !spec.source.value.regenerate then Next(st.(state := SourceAvailable))
    else if spec.generator.Some? then Next(st.(generator := spec.generator, state := BuildValid))
    else if !adaptor.parses || adaptor.generator.None? then Next(st)
    else Next(st.(generator := adaptor.generator, state := BuildValid))
  }

  /** Runs codegen unless it can be skipped; the generator is dereferenced, and the first
      domain read, before the Job is looked at. */
  function HandleBuildValid(spec: Spec, st: Status, adaptor: Adaptor, env: Env): Pass {
    if spec.executable.Some? then Next(TakeExecutable(spec, st))
    else if SkipCodegen(spec, st) then
      Next(st.(source := if st.source.None? || st.source.value.revision == "" then spec.source else st.source, state := SourceAvailable))
    else if !env.gitSecret then Next(st)
    else if st.generator.None? || env.domains == 0 then Panic(st)
    else if !env.codegen.Generated? then Next(st)
    else
      var found := Source(env.codegen.repository, env.codegen.revision, env.codegen.path, false);
      var recorded := RecordInputs(spec, st.(source := Some(found)));
      if !adaptor.parses then Next(recorded) else Next(recorded.(state := SourceAvailable))
  }

  predicate Pinned(source: Option<Source>) { source.Some? && source.value.revision != "" }

  function HandleSourceAvailable(spec: Spec, st: Status, env: Env): Pass {
    if spec.executable.Some? then Next(TakeExecutable(spec, st))
    else if spec.source.None? && !Pinned(st.source) then Next(st)
    else if !env.builderOk || !env.buildAccountOk || !env.build.Built? then Next(st)
    else if env.build.image.None? then Panic(st)
    else Next(st.(executable := env.build.image, state := ExecutableAvailable))
  }

  /** decodeDeployerURL: no answer, and an empty URL, are failures. */
  function DecodeUrl(answer: Option<string>): (url: Option<string>)
    ensures url.Some? ==> url.value != ""
  {
    if answer.None? || answer.value == "" then None else answer
  }

  function HandleExecutableAvailable(spec: Spec, st: Status, env: Env): Pass {
    if st.executable.None? then
      if spec.executable.Some? then Next(st.(executable := spec.executable)) else Next(st.(state := OpenAPIValid))
    else if !env.accountOk || !env.deploy.Answer? || DecodeUrl(env.deploy.url).None? then Next(st)
    else Next(st.(url := DecodeUrl(env.deploy.url).value, state := FunctionDeployed))
  }

  function HandleFunctionDeployed(st: Status, env: Env): Pass {
    if !env.observable then Next(st) else Next(st.(state := Ready, ready := true))
  }

  function HandleReady(spec: Spec, st: Status, env: Env): Pass {
    if st.executable.None? then Next(st.(state := SourceAvailable))
    else if spec.source.Some? && st.source.None? then Next(st.(source := spec.source))
    else if !env.observable then Next(st)
    else Next(st.(ready := true))
  }

  // ------------------------------------------------------------ one reconcile

  function Dispatch(spec: Spec, st: Status, adaptor: Adaptor, env: Env): Pass {
    match st.state
    case Empty => Next(st.(ready := true))
    case Pending => HandlePending(st, env)
    case OpenAPIValid => HandleOpenAPIValid(spec, st, adaptor)
    case BuildValid => HandleBuildValid(spec, st, adaptor, env)
    case SourceAvailable => HandleSourceAvailable(spec, st, env)
    case ExecutableAvailable => HandleExecutableAvailable(spec, st, env)
    case FunctionDeployed => HandleFunctionDeployed(st, env)
    case Ready => HandleReady(spec, st, env)
  }

  /** A newer spec starts over; the Ready condition is unknown while reconciling. */
  function Begin(spec: Spec, st: Status): Status {
    (if st.observed < spec.generation then st.(state := Pending) else st).(ready := false)
  }

  /** A changed adaptor sends the function back to OpenAPIValid. */
  function NoteAdaptor(st: Status, adaptor: Adaptor): Status {
    (if st.adaptorGeneration.Some? && st.adaptorGeneration.value != adaptor.generation then st.(state := OpenAPIValid) else st)
    .(adaptorGeneration := Some(adaptor.generation))
  }

  /** The two regressions out of Ready: an image newer than the deployed one, and codegen
      inputs that drifted. */
  function Regress(spec: Spec, st: Status, env: Env): Status {
    var st1 :=
      if spec.executable.None? && st.source.Some? && env.kpack.Latest? && env.kpack.image != "" && st.state.Ready?
         && st.executable.Some? && st.executable.value != env.kpack.image
      then st.(state := SourceAvailable) else st;
    if st1.state.Ready? && spec.source.Some? && !SkipCodegen(spec, st1) then st1.(state := BuildValid) else st1
  }

  /** The pass over the status, before it is written. */
  function Body(spec: Spec, st: Status, env: Env): Pass {
    var begun := Begin(spec, st);
    if !env.hostFound || !env.adaptorResolved || env.adaptor.None? then Next(begun)
    else
      var adaptor := env.adaptor.value;
      var noted := NoteAdaptor(begun, adaptor);
      if !env.secretsOk then Next(noted)
      else if spec.executable.None? && noted.source.Some? && env.kpack.LookupFailed? then Next(noted)
      else Dispatch(spec, Regress(spec, noted, env), adaptor, env)
  }

  /** The status after one reconcile; a conflict on the write leaves the stored one. */
  function Reconcile(spec: Spec, st: Status, env: Env): Pass {
    var pass := Body(spec, st, env);
    var st' := if env.written then pass.status.(observed := spec.generation) else st;
    if pass.Panic? then Panic(st') else Next(st')
  }

  // ------------------------------------------------------------ runs

  datatype World = World(spec: Spec, status: Status)

  datatype Event = Edit(executable: Option<string>, source: Option<Source>, generator: Option<string>, api: string) | Pass(env: Env)

  function Step(w: World, e: Event): World {
    match e
    case Edit(executable, source, generator, api) =>
      w.(spec := Spec(w.spec.generation + 1, executable, source, generator, api))
    case Pass(env) => w.(status := Reconcile(w.spec, w.status, env).status)
  }

  function Run(w: World, events: seq<Event>): World
    decreases |events|
  {
    if events == [] then w else Run(Step(w, events[0]), events[1..])
  }

  const NEW_STATUS: Status := Status(0, Empty, None, None, None, "", "", "", None, false)

  function Created(spec: Spec): World { World(spec, NEW_STATUS) }
}
