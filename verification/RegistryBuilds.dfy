/** Exchanger builds racing on one stored registry: a fast read, then an optimistic
    transaction of WATCH, GET and EXEC with at most sixteen attempts, or, in memory, one
    locked update. Every command is a step of its own. */
module RegistryBuilds {
  import opened ClientRegistry

  const UPDATE_ATTEMPTS: nat := 16

  /** What the registry key holds. Corrupt is a value the decoder refuses. */
  datatype Stored = Absent | Good(reg: Registry) | Corrupt

  datatype Phase =
    | Fast
    | Watch(attempt: nat)
    | Read(attempt: nat, watched: nat)
    | Exec(attempt: nat, watched: nat, merged: Registry)
    | Built(registry: Registry, at: nat)
    | Failed

  /** One build: its configured clients, the ids of them it records, the clock it read once,
      and the length of the log when it began. unanswered and lost are history: whether a
      command of it was not answered, and how many of its attempts were aborted. */
  datatype Build = Build(clients: set<string>, ids: set<string>, now: int, began: nat, phase: Phase, unanswered: bool, lost: nat)

  /** One merge that reached the store. */
  datatype Entry = Entry(build: nat, ids: set<string>, now: int)

  /** version counts the writes to the key; EXEC aborts when it moved since WATCH. */
  datatype State = State(stored: Stored, version: nat, builds: map<nat, Build>, log: seq<Entry>)

  /** How a command goes: answered; carried out and its reply lost; not carried out; or
      aborted by the server. */
  datatype Outcome = Answered | ReplyLost | Refused | Aborted

  datatype Action =
    | Begin(build: nat, clients: set<string>, now: int)
    | Command(build: nat, outcome: Outcome)
    | LockedUpdate(build: nat)

  function Contents(stored: Stored): Registry {
    if stored.Good? then stored.reg else map[]
  }

  function At(s: State, n: nat, b: Build, phase: Phase): State {
    s.(builds := s.builds[n := b.(phase := phase)])
  }

  /** A command that was not carried out, or not answered, ends the build. */
  function GiveUp(s: State, n: nat, b: Build): State {
    At(s, n, b.(unanswered := true), Failed)
  }

  /** The write of a merge. */
  function Commit(s: State, n: nat, b: Build, merged: Registry, phase: Phase): State {
    At(s, n, b, phase).(stored := Good(merged), version := s.version + 1, log := s.log + [Entry(n, b.ids, b.now)])
  }

  function DoFast(s: State, n: nat, b: Build, o: Outcome): State {
    if !o.Answered? then GiveUp(s, n, b)
    else if s.stored.Corrupt? then At(s, n, b, Failed)
    else
      var merged := Merged(Contents(s.stored), b.ids, b.now);
      if s.stored.Good? && merged == s.stored.reg then At(s, n, b, Built(merged, |s.log|))
      else At(s, n, b, Watch(0))
  }

  /** GET after WATCH, and the update function on what it returned. */
  function DoRead(s: State, n: nat, b: Build, o: Outcome): State
    requires b.phase.Read?
  {
    if !o.Answered? then GiveUp(s, n, b)
    else if s.stored.Corrupt? then At(s, n, b, Failed)
    else
      var merged := Merged(Contents(s.stored), b.ids, b.now);
      if s.stored.Good? && merged == s.stored.reg then At(s, n, b, Built(merged, |s.log|))
      else At(s, n, b, Exec(b.phase.attempt, b.phase.watched, merged))
  }

  function DoExec(s: State, n: nat, b: Build, o: Outcome): State
    requires b.phase.Exec?
  {
    if o.Refused? then GiveUp(s, n, b)
    else if o.Aborted? || s.version != b.phase.watched then
      if o.ReplyLost? then GiveUp(s, n, b)
      else
        At(s, n, b.(lost := b.lost + 1),
           if b.phase.attempt + 1 >= UPDATE_ATTEMPTS then Failed else Watch(b.phase.attempt + 1))
    else if o.Answered? then Commit(s, n, b, b.phase.merged, Built(b.phase.merged, |s.log| + 1))
    else Commit(s, n, b.(unanswered := true), b.phase.merged, Failed)
  }

  /** The in-memory Update: the read, the merge and the write under one lock. */
  function DoLocked(s: State, n: nat, b: Build): State {
    if s.stored.Corrupt? then At(s, n, b, Failed)
    else
      var merged := Merged(Contents(s.stored), b.ids, b.now);
      if s.stored.Good? && merged == s.stored.reg then At(s, n, b, Built(merged, |s.log|))
      else Commit(s, n, b, merged, Built(merged, |s.log| + 1))
  }

  /** One step; an action that is not enabled changes nothing. */
  function Apply(s: State, a: Action): State {
    match a
    case Begin(n, clients, now) =>
      if n in s.builds then s else s.(builds := s.builds[n := Build(clients, Tracked(clients), now, |s.log|, Fast, false, 0)])
    case LockedUpdate(n) =>
      if n in s.builds && s.builds[n].phase.Watch? then DoLocked(s, n, s.builds[n]) else s
    case Command(n, o) =>
      if n !in s.builds then s
      else
        var b := s.builds[n];
        match b.phase
        case Fast => DoFast(s, n, b, o)
        case Watch(attempt) => if o.Answered? then At(s, n, b, Read(attempt, s.version)) else GiveUp(s, n, b)
        case Read(_, _) => DoRead(s, n, b, o)
        case Exec(_, _, _) => DoExec(s, n, b, o)
        case Built(_, _) => s
        case Failed => s
  }

  function Run(s: State, acts: seq<Action>): State
    decreases |acts|
  {
    if acts == [] then s else Run(Apply(s, acts[0]), acts[1..])
  }

  function Start(initial: Stored): State { State(initial, 0, map[], []) }

  /** The merges of a log, one after another, with nothing in between. */
  function Sequential(first: Registry, log: seq<Entry>): Registry {
    if log == [] then first
    else
      var last := log[|log| - 1];
      Merged(Sequential(first, log[..|log| - 1]), last.ids, last.now)
  }

  // ------------------------------------------------------------ invariant

  ghost predicate BuildOk(first: Stored, stored: Stored, version: nat, log: seq<Entry>, b: Build) {
    && b.began <= |log| && b.ids == Tracked(b.clients) && b.lost <= UPDATE_ATTEMPTS && (b.phase.Fast? ==> b.lost == 0)
    && match b.phase
       case Fast => true
       case Failed => b.unanswered || first.Corrupt? || b.lost == UPDATE_ATTEMPTS
       case Watch(attempt) => attempt < UPDATE_ATTEMPTS && b.lost == attempt
       case Read(attempt, watched) => attempt < UPDATE_ATTEMPTS && b.lost == attempt && watched <= version
       case Exec(attempt, watched, merged) =>
         && attempt < UPDATE_ATTEMPTS && b.lost == attempt && watched <= version
         && (watched == version ==> !stored.Corrupt? && merged == Merged(Contents(stored), b.ids, b.now))
       case Built(registry, at) =>
         && b.began <= at <= |log| && !first.Corrupt?
         && registry == Sequential(Contents(first), log[..at])
         && PresentIds(registry) == b.ids
  }

  /** A log entry is its build's own, made while it ran. */
  predicate EntryOk(builds: map<nat, Build>, e: Entry, i: nat) {
    && e.build in builds
    && var b := builds[e.build];
    && b.ids == e.ids && b.now == e.now && b.began <= i
    && (b.phase.Failed? || (b.phase.Built? && b.phase.at == i + 1))
  }

  ghost predicate BuildsOk(first: Stored, s: State) {
    forall n {:trigger s.builds[n]} :: n in s.builds ==> BuildOk(first, s.stored, s.version, s.log, s.builds[n])
  }

  predicate StoreOk(first: Stored, stored: Stored, log: seq<Entry>) {
    && (log == [] ==> stored == first)
    && (log != [] ==> !first.Corrupt? && stored == Good(Sequential(Contents(first), log)))
  }

  predicate LogOk(builds: map<nat, Build>, log: seq<Entry>) {
    && (forall i {:trigger log[i]} :: 0 <= i < |log| ==> EntryOk(builds, log[i], i))
    && (forall i, j :: 0 <= i < j < |log| ==> log[i].build != log[j].build)
  }

  ghost predicate Inv(first: Stored, s: State) {
    StoreOk(first, s.stored, s.log) && LogOk(s.builds, s.log) && BuildsOk(first, s)
  }

  /** A build that moves on without writing, having written nothing so far. */
  lemma KeepAt(first: Stored, s: State, n: nat, b: Build)
    requires Inv(first, s)
    requires n in s.builds ==> !s.builds[n].phase.Built? && !s.builds[n].phase.Failed?
    requires BuildOk(first, s.stored, s.version, s.log, b)
    ensures Inv(first, s.(builds := s.builds[n := b]))
  {
  }

  lemma SequentialSnoc(first: Registry, log: seq<Entry>, e: Entry)
    ensures Sequential(first, log + [e]) == Merged(Sequential(first, log), e.ids, e.now)
  {
    assert (log + [e])[..|log|] == log;
  }

  /** A write of the merge of what the store holds. */
  lemma KeepCommit(first: Stored, s: State, n: nat, b: Build, phase: Phase)
    requires Inv(first, s) && n in s.builds && !s.stored.Corrupt?
    requires !s.builds[n].phase.Built? && !s.builds[n].phase.Failed?
    requires b.ids == s.builds[n].ids && b.now == s.builds[n].now && b.clients == s.builds[n].clients && b.began == s.builds[n].began
    requires b.lost == s.builds[n].lost
    requires var merged := Merged(Contents(s.stored), b.ids, b.now);
      (phase == Failed && b.unanswered) || phase == Built(merged, |s.log| + 1)
    ensures Inv(first, Commit(s, n, b, Merged(Contents(s.stored), b.ids, b.now), phase))
  {
    var merged := Merged(Contents(s.stored), b.ids, b.now);
    var e := Entry(n, b.ids, b.now);
    var s' := Commit(s, n, b, merged, phase);
    SequentialSnoc(Contents(first), s.log, e);
    MergeKeeps(Contents(s.stored), b.ids, b.now, b.now);
    forall i | 0 <= i < |s'.log| ensures EntryOk(s'.builds, s'.log[i], i) {
      if i < |s.log| { assert EntryOk(s.builds, s.log[i], i); }
    }
    forall m | m in s'.builds ensures BuildOk(first, s'.stored, s'.version, s'.log, s'.builds[m]) {
      if m != n { LaterBuildOk(first, s, s', s.builds[m], e); }
      else { assert s'.log[..|s.log| + 1] == s'.log; }
    }
  }

  /** A write leaves every other build's part as it was. */
  lemma LaterBuildOk(first: Stored, s: State, s': State, b: Build, e: Entry)
    requires BuildOk(first, s.stored, s.version, s.log, b)
    requires s'.version == s.version + 1 && s'.log == s.log + [e]
    ensures BuildOk(first, s'.stored, s'.version, s'.log, b)
  {
    if b.phase.Built? { assert s'.log[..b.phase.at] == s.log[..b.phase.at]; }
  }

  /** An answer from a read that found the configuration already reflected. */
  lemma UnchangedRead(first: Stored, s: State, b: Build)
    requires StoreOk(first, s.stored, s.log) && b.began <= |s.log| && b.ids == Tracked(b.clients) && b.lost <= UPDATE_ATTEMPTS && s.stored.Good?
    requires Merged(s.stored.reg, b.ids, b.now) == s.stored.reg
    ensures BuildOk(first, s.stored, s.version, s.log, b.(phase := Built(s.stored.reg, |s.log|)))
  {
    UnchangedIffReflected(s.stored.reg, b.ids, b.now);
    assert s.log[..|s.log|] == s.log;
  }

  lemma KeepExec(first: Stored, s: State, n: nat, o: Outcome)
    requires Inv(first, s) && n in s.builds && s.builds[n].phase.Exec?
    ensures Inv(first, DoExec(s, n, s.builds[n], o))
  {
    var b := s.builds[n];
    assert BuildOk(first, s.stored, s.version, s.log, b);
    if o.Refused? || ((o.Aborted? || s.version != b.phase.watched) && o.ReplyLost?) {
      KeepAt(first, s, n, b.(unanswered := true, phase := Failed));
    } else if o.Aborted? || s.version != b.phase.watched {
      KeepAt(first, s, n, b.(lost := b.lost + 1, phase := if b.phase.attempt + 1 >= UPDATE_ATTEMPTS then Failed else Watch(b.phase.attempt + 1)));
    } else if o.Answered? {
      KeepCommit(first, s, n, b, Built(b.phase.merged, |s.log| + 1));
    } else {
      KeepCommit(first, s, n, b.(unanswered := true), Failed);
    }
  }

  lemma KeepCommand(first: Stored, s: State, n: nat, o: Outcome)
    requires Inv(first, s) && n in s.builds
    ensures Inv(first, Apply(s, Command(n, o)))
  {
    var b := s.builds[n];
    assert BuildOk(first, s.stored, s.version, s.log, b);
    var reading := b.phase.Fast? || b.phase.Read?;
    if reading && o.Answered? && s.stored.Good? && Merged(s.stored.reg, b.ids, b.now) == s.stored.reg {
      UnchangedRead(first, s, b);
      KeepAt(first, s, n, b.(phase := Built(s.stored.reg, |s.log|)));
    } else if b.phase.Exec? {
      KeepExec(first, s, n, o);
    } else if !b.phase.Built? && !b.phase.Failed? {
      KeepAt(first, s, n, Apply(s, Command(n, o)).builds[n]);
    }
  }

  lemma KeepApply(first: Stored, s: State, a: Action)
    requires Inv(first, s)
    ensures Inv(first, Apply(s, a))
  {
    match a
    case Begin(n, clients, now) =>
      if n !in s.builds { KeepAt(first, s, n, Build(clients, Tracked(clients), now, |s.log|, Fast, false, 0)); }
    case Command(n, o) =>
      if n in s.builds { KeepCommand(first, s, n, o); }
    case LockedUpdate(n) =>
      if n in s.builds && s.builds[n].phase.Watch? {
        var b := s.builds[n];
        assert BuildOk(first, s.stored, s.version, s.log, b);
        if s.stored.Corrupt? {
          KeepAt(first, s, n, b.(phase := Failed));
        } else if s.stored.Good? && Merged(s.stored.reg, b.ids, b.now) == s.stored.reg {
          UnchangedRead(first, s, b);
          KeepAt(first, s, n, b.(phase := Built(s.stored.reg, |s.log|)));
        } else {
          KeepCommit(first, s, n, b, Built(Merged(Contents(s.stored), b.ids, b.now), |s.log| + 1));
        }
      }
  }

  lemma {:induction false} KeepRun(first: Stored, s: State, acts: seq<Action>)
    requires Inv(first, s)
    ensures Inv(first, Run(s, acts))
    decreases |acts|
  {
    if acts != [] {
      KeepApply(first, s, acts[0]);
      KeepRun(first, Apply(s, acts[0]), acts[1..]);
    }
  }

  // ------------------------------------------------------------ theorems

  /** In every interleaving: the store is the merges that reached it, one after another;
      each of them is one build's own, and no build's twice; and a build that succeeds
      returns exactly the sequential registry at one point of its own run, in which the
      present ids are its configuration. Over an unreadable store nothing succeeds and
      nothing is written. */
  lemma BuildsAreSequential(first: Stored, acts: seq<Action>)
    ensures var s := Run(Start(first), acts);
      && s.stored == (if s.log == [] then first else Good(Sequential(Contents(first), s.log)))
      && (first.Corrupt? ==> s.log == [])
      && LogOk(s.builds, s.log)
      && forall n :: n in s.builds && s.builds[n].phase.Built? ==>
           var b := s.builds[n];
           && !first.Corrupt? && b.began <= b.phase.at <= |s.log|
           && b.phase.registry == Sequential(Contents(first), s.log[..b.phase.at])
           && PresentIds(b.phase.registry) == Tracked(b.clients)
  {
    KeepRun(first, Start(first), acts);
  }

  /** A build fails only if one of its commands was not answered, the store is unreadable, or
      all sixteen of its attempts were aborted. */
  lemma FailuresHaveReasons(first: Stored, acts: seq<Action>, n: nat)
    requires n in Run(Start(first), acts).builds
    ensures var b := Run(Start(first), acts).builds[n];
      && b.lost <= UPDATE_ATTEMPTS
      && (b.phase.Failed? && !b.unanswered && !first.Corrupt? ==> b.lost == 16)
  {
    KeepRun(first, Start(first), acts);
    var s := Run(Start(first), acts);
    assert BuildOk(first, s.stored, s.version, s.log, s.builds[n]);
  }

  /** An attempt is lost only to the server's abort or to another build's write. */
  lemma LostOnlyToRivals(s: State, a: Action, n: nat)
    requires n in s.builds
    ensures var b, b' := s.builds[n], Apply(s, a).builds[n];
      b'.lost != b.lost ==>
        && b'.lost == b.lost + 1 && b.phase.Exec? && a.Command? && a.build == n
        && (a.outcome.Aborted? || s.version != b.phase.watched)
    ensures !s.builds[n].unanswered && Apply(s, a).builds[n].unanswered ==>
      a.Command? && a.build == n && !a.outcome.Answered?
  {
  }

  /** An undisturbed build over a readable store succeeds, with the merge of what it found. */
  lemma UndisturbedBuildSucceeds(s: State, n: nat, clients: set<string>, now: int)
    requires n !in s.builds && !s.stored.Corrupt?
    ensures var e := Command(n, Answered);
      var s' := Run(s, [Begin(n, clients, now)] + ([e] + ([e] + ([e] + ([e] + [])))));
      && n in s'.builds && s'.builds[n].phase.Built?
      && s'.builds[n].phase.registry == Merged(Contents(s.stored), Tracked(clients), now)
      && s'.stored == Good(Merged(Contents(s.stored), Tracked(clients), now))
  {
    var e := Command(n, Answered);
    RunCons(s, Begin(n, clients, now), [e] + ([e] + ([e] + ([e] + []))));
    var s1 := Apply(s, Begin(n, clients, now));
    RunCons(s1, e, [e] + ([e] + ([e] + [])));
    var s2 := Apply(s1, e);
    RunCons(s2, e, [e] + ([e] + []));
    var s3 := Apply(s2, e);
    RunCons(s3, e, [e] + []);
    var s4 := Apply(s3, e);
    RunCons(s4, e, []);
  }

  lemma RunCons(s: State, a: Action, rest: seq<Action>)
    ensures Run(s, [a] + rest) == Run(Apply(s, a), rest)
  {
    assert ([a] + rest)[1..] == rest;
  }

  lemma {:induction false} SequentialForgetsNothing(first: Registry, log: seq<Entry>, i: nat)
    requires i <= |log|
    ensures NothingForgotten(Sequential(first, log[..i]), Sequential(first, log))
    decreases |log|
  {
    if i == |log| {
      assert log[..i] == log;
    } else {
      var shorter := log[..|log| - 1];
      assert shorter[..i] == log[..i];
      SequentialForgetsNothing(first, shorter, i);
      MergeKeeps(Sequential(first, shorter), log[|log| - 1].ids, log[|log| - 1].now, 0);
    }
  }

  lemma {:induction false} RunSnoc(s: State, acts: seq<Action>, a: Action)
    ensures Run(s, acts + [a]) == Apply(Run(s, acts), a)
    decreases |acts|
  {
    if acts == [] {
      assert Run(Apply(s, a), []) == Apply(s, a);
    } else {
      assert (acts + [a])[1..] == acts[1..] + [a];
      RunSnoc(Apply(s, acts[0]), acts[1..], a);
    }
  }

  lemma LogGrowsStep(s: State, a: Action)
    ensures s.log <= Apply(s, a).log
  {
  }

  lemma {:induction false} LogGrows(s: State, acts: seq<Action>)
    ensures s.log <= Run(s, acts).log
    decreases |acts|
  {
    if acts != [] {
      LogGrowsStep(s, acts[0]);
      LogGrows(Apply(s, acts[0]), acts[1..]);
    }
  }

  /** The ids the store holds present are the configuration of the merge that reached it last. */
  lemma PresentIsLastMerged(first: Stored, s: State)
    requires Inv(first, s) && s.log != []
    ensures PresentIds(Contents(s.stored)) == s.log[|s.log| - 1].ids
  {
    var last := s.log[|s.log| - 1];
    MergeKeeps(Sequential(Contents(first), s.log[..|s.log| - 1]), last.ids, last.now, 0);
  }

  lemma StoredForgetsNothing(first: Stored, s: State, s': State)
    requires StoreOk(first, s.stored, s.log) && StoreOk(first, s'.stored, s'.log) && s.log <= s'.log
    ensures NothingForgotten(Contents(s.stored), Contents(s'.stored))
  {
    assert s'.log[..|s.log|] == s.log;
    SequentialForgetsNothing(Contents(first), s'.log, |s.log|);
    assert Contents(s.stored) == Sequential(Contents(first), s.log);
    assert Contents(s'.stored) == Sequential(Contents(first), s'.log);
  }

  /** Between any two points of a run, whatever the builds' clocks: no record is dropped and
      no cutoff goes back. And the ids the store holds present are the configuration of the
      merge that reached it last. */
  lemma NothingIsLost(first: Stored, before: seq<Action>, after: seq<Action>)
    ensures var s := Run(Start(first), before);
      var s' := Run(s, after);
      && NothingForgotten(Contents(s.stored), Contents(s'.stored))
      && (s'.log != [] ==> PresentIds(Contents(s'.stored)) == s'.log[|s'.log| - 1].ids)
  {
    var s := Run(Start(first), before);
    KeepRun(first, Start(first), before);
    KeepRun(first, s, after);
    LogGrows(s, after);
    StoredForgetsNothing(first, s, Run(s, after));
    if Run(s, after).log != [] { PresentIsLastMerged(first, Run(s, after)); }
  }
}
