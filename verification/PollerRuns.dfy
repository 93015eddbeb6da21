/**
 The file-drop folders over whole runs: files are dropped and sometimes withdrawn by their
 owner, the poller picks them up, dies, is started again, and the delivery queue goes on.
 */
module PollerRuns {
  import opened Wrappers
  import opened Bytes
  import opened FileWatch
  import opened Pollers
  import Jobs
  import Queue
  import QueueInvariant
  import Enqueue

  datatype State = State(
    files: Files,
    jobs: Jobs.JobTable,
    alive: bool,
    arrived: map<nat, File>,      // auxiliary: every file ever dropped, by inode
    withdrawn: set<nat>,          // auxiliary: those their owner took back from the inbox
    tries: map<nat, nat>          // auxiliary: how often this poller process has tried each file
  )

  datatype Step =
    | Drop(path: Path, file: File)
    | Withdraw(path: Path)
    | PickUp(pick: Pick)
    | Die
    | Restart
    | JobsMove(jobs: Jobs.JobTable)

  /** The queue may do what it likes with a job except lose it or change what is delivered, and to whom. */
  predicate PayloadsStay(jobs: Jobs.JobTable, jobs': Jobs.JobTable) {
    forall j :: j in jobs ==>
      && j in jobs' && jobs'[j].ciphertext == jobs[j].ciphertext && jobs'[j].digest == jobs[j].digest
      && jobs'[j].partner == jobs[j].partner && jobs'[j].toId == jobs[j].toId
  }

  function ProgressOf(s: State): Progress {
    Progress(s.files, s.jobs, s.alive)
  }

  ghost predicate Enabled(s: State, step: Step, config: Config) {
    match step
    case Drop(path, file) => path !in s.files.inbox && file.inode !in s.arrived
    case Withdraw(path) => path in s.files.inbox
    case PickUp(pick) => PickFits(ProgressOf(s), pick, config)
    case Die => s.alive
    case Restart => !s.alive
    case JobsMove(jobs) => PayloadsStay(s.jobs, jobs)
  }

  function Tried(tries: map<nat, nat>, inode: nat): nat {
    if inode in tries then tries[inode] else 0
  }

  ghost function Apply(s: State, step: Step, config: Config): State
    requires Enabled(s, step, config)
  {
    match step
    case Drop(path, file) =>
      s.(files := s.files.(inbox := s.files.inbox[path := file]), arrived := s.arrived[file.inode := file])
    case Withdraw(path) =>
      s.(files := s.files.(inbox := s.files.inbox - {path}), withdrawn := s.withdrawn + {s.files.inbox[path].inode})
    case PickUp(pick) =>
      var p, inode := AfterPick(ProgressOf(s), pick, config.max), s.files.inbox[pick.path].inode;
      s.(files := p.files, jobs := p.jobs, alive := p.alive, tries := s.tries[inode := Tried(s.tries, inode) + 1])
    case Die => s.(alive := false)
    case Restart => s.(alive := true, tries := map[], files := s.files.(counts := map[]))
    case JobsMove(jobs) => s.(jobs := jobs)
  }

  predicate Init(s: State) {
    && s.files == Files(map[], map[], map[], map[]) && s.alive
    && s.arrived == map[] && s.withdrawn == {} && s.tries == map[]
  }

  ghost predicate Run(states: seq<State>, steps: seq<Step>, config: Config) {
    && |states| == |steps| + 1
    && Init(states[0])
    && forall i :: 0 <= i < |steps| ==>
       Enabled(states[i], steps[i], config) && states[i + 1] == Apply(states[i], steps[i], config)
  }

  // ------------------------------------------------------------------
  // Invariant
  // ------------------------------------------------------------------

  function Inodes(dir: Directory): set<nat> {
    set p | p in dir :: dir[p].inode
  }

  /** A directory holds each file once, as it was dropped. */
  predicate Faithful(dir: Directory, arrived: map<nat, File>) {
    && (forall p :: p in dir ==> dir[p].inode in arrived && arrived[dir[p].inode] == dir[p])
    && (forall p, q :: p in dir && q in dir && dir[p].inode == dir[q].inode ==> p == q)
  }

  /** Every file is in exactly one place. */
  predicate PlaceInv(s: State) {
    && Faithful(s.files.inbox, s.arrived) && Faithful(s.files.processed, s.arrived)
    && Faithful(s.files.error, s.arrived)
    && (forall inode :: inode in s.arrived ==> s.arrived[inode].inode == inode)
    && Inodes(s.files.inbox) !! Inodes(s.files.processed) !! Inodes(s.files.error) !! s.withdrawn
    && Inodes(s.files.inbox) + Inodes(s.files.processed) + Inodes(s.files.error) + s.withdrawn == s.arrived.Keys
  }

  function Limit(max: int): nat {
    if max < 1 then 1 else max
  }

  predicate TryInv(s: State, max: int) {
    && (forall inode :: inode in s.tries ==> s.tries[inode] <= Limit(max))
    && (s.alive ==> forall p :: p in s.files.counts ==> s.files.counts[p] < Limit(max))
    && (s.alive ==> forall p :: p in s.files.inbox ==>
          Tried(s.tries, s.files.inbox[p].inode) <= Tries(s.files.counts, p))
    && s.tries.Keys <= s.arrived.Keys
  }

  ghost predicate JobInv(s: State, config: Config) {
    forall p :: p in s.files.processed ==>
      p.duns in config.partners && JobFor(s.jobs, s.files.processed[p].bytes, config.partners[p.duns], config.crypto)
  }

  /** Moving a file between directories keeps every directory faithful and their union. */
  lemma MoveKeepsPlaces(from: Directory, to: Directory, path: Path, target: Path, arrived: map<nat, File>)
    requires Faithful(from, arrived) && Faithful(to, arrived) && Inodes(from) !! Inodes(to)
    requires path in from && target !in to
    ensures var from', to' := from - {path}, to[target := from[path]];
      && Faithful(from', arrived) && Faithful(to', arrived)
      && Inodes(from') == Inodes(from) - {from[path].inode}
      && Inodes(to') == Inodes(to) + {from[path].inode}
  {
    RemoveKeepsPlaces(from, path, arrived);
    var to', inode := to[target := from[path]], from[path].inode;
    assert inode in Inodes(from);
    forall p | p in to ensures to[p].inode != inode {
      assert to[p].inode in Inodes(to);
    }
    forall i | i in Inodes(to) + {inode} ensures i in Inodes(to') {
      if i == inode {
        assert to'[target].inode == inode;
      } else {
        var p :| p in to && to[p].inode == i;
        assert to'[p].inode == i;
      }
    }
  }

  lemma RemoveKeepsPlaces(from: Directory, path: Path, arrived: map<nat, File>)
    requires Faithful(from, arrived) && path in from
    ensures Faithful(from - {path}, arrived) && Inodes(from - {path}) == Inodes(from) - {from[path].inode}
  {
    var from' := from - {path};
    forall i | i in Inodes(from) - {from[path].inode} ensures i in Inodes(from') {
      var p :| p in from && from[p].inode == i;
      assert from'[p].inode == i;
    }
  }

  lemma PlaceStep(s: State, step: Step, config: Config)
    requires Enabled(s, step, config) && PlaceInv(s)
    ensures PlaceInv(Apply(s, step, config))
  {
    match step
    case Drop(path, file) => DropPlaces(s, path, file, config);
    case Withdraw(path) =>
      RemoveKeepsPlaces(s.files.inbox, path, s.arrived);
      hide Faithful, Inodes;
      InodeOf(s.files.inbox, path);
    case PickUp(pick) => PickUpPlaces(s, pick.path, pick.pickup, config.max);
    case _ =>
  }

  lemma InodeOf(dir: Directory, path: Path)
    requires path in dir
    ensures dir[path].inode in Inodes(dir)
  {
  }

  lemma DropPlaces(s: State, path: Path, file: File, config: Config)
    requires Enabled(s, Drop(path, file), config) && PlaceInv(s)
    ensures PlaceInv(Apply(s, Drop(path, file), config))
  {
    AddKeepsPlaces(s.files.inbox, path, file, s.arrived);
    MoreArrivals(s.files.processed, file, s.arrived);
    MoreArrivals(s.files.error, file, s.arrived);
    hide Faithful, Inodes;
  }

  lemma AddKeepsPlaces(dir: Directory, path: Path, file: File, arrived: map<nat, File>)
    requires Faithful(dir, arrived) && path !in dir && file.inode !in arrived
    ensures Faithful(dir[path := file], arrived[file.inode := file])
    ensures Inodes(dir[path := file]) == Inodes(dir) + {file.inode}
  {
    var dir' := dir[path := file];
    forall i | i in Inodes(dir) + {file.inode} ensures i in Inodes(dir') {
      if i == file.inode {
        assert dir'[path].inode == i;
      } else {
        var p :| p in dir && dir[p].inode == i;
        assert dir'[p].inode == i;
      }
    }
  }

  lemma MoreArrivals(dir: Directory, file: File, arrived: map<nat, File>)
    requires Faithful(dir, arrived) && file.inode !in arrived
    ensures Faithful(dir, arrived[file.inode := file])
  {
  }

  lemma PickUpPlaces(s: State, path: Path, p: Pickup, max: int)
    requires PlaceInv(s) && path in s.files.inbox
    ensures PlaceInv(s.(files := AfterPickup(s.files, path, p, max)))
  {
    hide *;
    var f := s.files;
    var g := AfterPickup(f, path, p, max);
    PlaceInvIs(s);
    PlaceInvIs(s.(files := g));
    InodeOf(f.inbox, path);
    var x := f.inbox[path].inode;
    WhereTo(f, path, p, max);
    if g.processed != f.processed {
      ToPlaces(s, f.inbox, f.processed, path);
      Shifted(Inodes(f.inbox), Inodes(f.processed), Inodes(f.error), s.withdrawn, x);
    } else if g.error != f.error {
      ToPlaces(s, f.inbox, f.error, path);
      Shifted(Inodes(f.inbox), Inodes(f.error), Inodes(f.processed), s.withdrawn, x);
    }
  }

  lemma PlaceInvIs(s: State)
    ensures PlaceInv(s) <==>
      && Faithful(s.files.inbox, s.arrived) && Faithful(s.files.processed, s.arrived)
      && Faithful(s.files.error, s.arrived)
      && (forall inode :: inode in s.arrived ==> s.arrived[inode].inode == inode)
      && Inodes(s.files.inbox) !! Inodes(s.files.processed) !! Inodes(s.files.error) !! s.withdrawn
      && Inodes(s.files.inbox) + Inodes(s.files.processed) + Inodes(s.files.error) + s.withdrawn == s.arrived.Keys
  {
    hide Faithful, Inodes;
  }

  /** A pickup leaves all three directories alone, or moves the one file to one of the other two. */
  lemma WhereTo(f: Files, path: Path, p: Pickup, max: int)
    requires path in f.inbox
    ensures var g := AfterPickup(f, path, p, max);
      || (g.inbox == f.inbox && g.processed == f.processed && g.error == f.error)
      || (g.inbox == f.inbox - {path} && g.processed == f.processed[Target(f.processed, path) := f.inbox[path]]
          && g.error == f.error
          && g.processed != f.processed)
      || (g.inbox == f.inbox - {path} && g.error == f.error[Target(f.error, path) := f.inbox[path]]
          && g.processed == f.processed
          && g.error != f.error)
  {
    TargetIsFree(f.processed, path);
    TargetIsFree(f.error, path);
    hide Target;
    var g := AfterPickup(f, path, p, max);
    assert Target(f.processed, path) !in f.processed && Target(f.error, path) !in f.error;
    assert Target(f.processed, path) in f.processed[Target(f.processed, path) := f.inbox[path]];
    assert Target(f.error, path) in f.error[Target(f.error, path) := f.inbox[path]];
  }

  lemma Shifted(a: set<nat>, b: set<nat>, c: set<nat>, d: set<nat>, x: nat)
    requires a !! b !! c !! d && x in a
    ensures (a - {x}) !! (b + {x}) !! c !! d
    ensures (a - {x}) + (b + {x}) + c + d == a + b + c + d
  {
  }

  lemma ToPlaces(s: State, from: Directory, to: Directory, path: Path)
    requires Faithful(from, s.arrived) && Faithful(to, s.arrived) && Inodes(from) !! Inodes(to) && path in from
    ensures var from', to' := from - {path}, to[Target(to, path) := from[path]];
      && Faithful(from', s.arrived) && Faithful(to', s.arrived)
      && Inodes(from') == Inodes(from) - {from[path].inode}
      && Inodes(to') == Inodes(to) + {from[path].inode}
  {
    TargetIsFree(to, path);
    hide Target, Faithful, Inodes;
    MoveKeepsPlaces(from, to, path, Target(to, path), s.arrived);
  }

  lemma TryStep(s: State, step: Step, config: Config)
    requires Enabled(s, step, config) && PlaceInv(s) && TryInv(s, config.max)
    ensures TryInv(Apply(s, step, config), config.max)
  {
    hide Target, Enqueue.Carries, Inodes, AfterPickup;
    match step
    case Drop(path, file) =>
    case PickUp(pick) => PickUpTries(s, pick.path, pick.pickup, config.max);
    case _ =>
  }

  /** What a pickup does to inbox and counts. */
  lemma PickUpCounts(f: Files, path: Path, p: Pickup, max: int)
    requires path in f.inbox
    ensures var g := AfterPickup(f, path, p, max);
      && g.inbox.Keys <= f.inbox.Keys && (forall q :: q in g.inbox ==> g.inbox[q] == f.inbox[q])
      && (forall q :: q in f.inbox && q != path ==> q in g.inbox)
      && (forall q :: q != path ==> (q in g.counts <==> q in f.counts) && Tries(g.counts, q) == Tries(f.counts, q))
      && (path in g.counts && !Fatal(f, path, p, max) ==> g.counts[path] == Tries(f.counts, path) + 1 < max)
      && (path in g.inbox && !Fatal(f, path, p, max) ==> path in g.counts)
  {
    hide Target;
  }

  lemma PickUpTries(s: State, path: Path, p: Pickup, max: int)
    requires s.alive && path in s.files.inbox && PlaceInv(s) && TryInv(s, max)
    ensures var inode := s.files.inbox[path].inode;
      TryInv(s.(files := AfterPickup(s.files, path, p, max), alive := !Fatal(s.files, path, p, max),
                tries := s.tries[inode := Tried(s.tries, inode) + 1]), max)
  {
    hide *;
    PickUpCounts(s.files, path, p, max);
    PlaceIs(s);
    TryIs(s, max);
    var f, g, inode := s.files, AfterPickup(s.files, path, p, max), s.files.inbox[path].inode;
    var tries := s.tries[inode := Tried(s.tries, inode) + 1];
    var t := s.(files := g, alive := !Fatal(f, path, p, max), tries := tries);
    TryIs(t, max);
    LimitIs(max);
    TriesIs(f.counts, path);
    TriedIs(s.tries, inode);
    if t.alive {
      forall q | q in g.inbox ensures Tried(tries, g.inbox[q].inode) <= Tries(g.counts, q) {
        TriedIs(tries, g.inbox[q].inode);
        TriedIs(s.tries, g.inbox[q].inode);
        TriesIs(g.counts, q);
        TriesIs(f.counts, q);
        assert f.inbox[q].inode == inode ==> q == path;
      }
      forall q | q in g.counts ensures g.counts[q] < Limit(max) {
        TriesIs(g.counts, q);
        TriesIs(f.counts, q);
      }
    }
  }

  lemma PlaceIs(s: State)
    requires PlaceInv(s)
    ensures forall p :: p in s.files.inbox ==> s.files.inbox[p].inode in s.arrived
    ensures forall p, q ::
      p in s.files.inbox && q in s.files.inbox && s.files.inbox[p].inode == s.files.inbox[q].inode ==> p == q
  {
    hide Inodes;
  }

  lemma TryIs(s: State, max: int)
    ensures TryInv(s, max) <==>
      && (forall inode :: inode in s.tries ==> s.tries[inode] <= Limit(max))
      && (s.alive ==> forall p :: p in s.files.counts ==> s.files.counts[p] < Limit(max))
      && (s.alive ==> forall p :: p in s.files.inbox ==>
            Tried(s.tries, s.files.inbox[p].inode) <= Tries(s.files.counts, p))
      && s.tries.Keys <= s.arrived.Keys
  {
    hide Limit, Tried, Tries;
  }

  lemma LimitIs(max: int)
    ensures Limit(max) >= 1 && Limit(max) >= max
  {
  }

  lemma TriesIs(counts: map<Path, nat>, path: Path)
    ensures Tries(counts, path) == if path in counts then counts[path] else 0
  {
  }

  lemma TriedIs(tries: map<nat, nat>, inode: nat)
    ensures Tried(tries, inode) == if inode in tries then tries[inode] else 0
  {
  }

  lemma JobStep(s: State, step: Step, config: Config)
    requires Enabled(s, step, config) && JobInv(s, config)
    ensures JobInv(Apply(s, step, config), config)
  {
    hide *;
    var t := Apply(s, step, config);
    JobsGrow(s, step, config);
    ProcessedGrow(s, step, config);
    JobInvIs(s, config);
    JobInvIs(t, config);
    forall p | p in s.files.processed
      ensures JobFor(t.jobs, s.files.processed[p].bytes, config.partners[p.duns], config.crypto)
    {
      JobForStays(s.jobs, t.jobs, s.files.processed[p].bytes, config.partners[p.duns], config.crypto);
    }
  }

  lemma JobInvIs(s: State, config: Config)
    ensures JobInv(s, config) <==> forall p :: p in s.files.processed ==>
      p.duns in config.partners && JobFor(s.jobs, s.files.processed[p].bytes, config.partners[p.duns], config.crypto)
  {
    hide JobFor;
  }

  lemma JobsGrow(s: State, step: Step, config: Config)
    requires Enabled(s, step, config)
    ensures PayloadsStay(s.jobs, Apply(s, step, config).jobs)
  {
    hide AfterPickup, Fatal, Enqueue.Carries;
  }

  /** A file comes to processed only by a pickup that also added its job. */
  lemma ProcessedGrow(s: State, step: Step, config: Config)
    requires Enabled(s, step, config)
    ensures var t := Apply(s, step, config);
      forall p :: p in t.files.processed ==>
        || (p in s.files.processed && t.files.processed[p] == s.files.processed[p])
        || (p.duns in config.partners
            && JobFor(t.jobs, t.files.processed[p].bytes, config.partners[p.duns], config.crypto))
  {
    if step.PickUp? {
      TargetIsFree(s.files.processed, step.pick.path);
      PickLeaves(ProgressOf(s), step.pick, config);
    }
    hide Target, Enqueue.Carries, JobFor, WithJob, Fatal, JobsStay;
  }

  lemma JobForStays(
    jobs: Jobs.JobTable, jobs': Jobs.JobTable, payload: Bytes, partner: Enqueue.Partner, crypto: Enqueue.Crypto)
    requires JobFor(jobs, payload, partner, crypto) && PayloadsStay(jobs, jobs')
    ensures JobFor(jobs', payload, partner, crypto)
  {
    hide Enqueue.Carries;
    var j :| j in jobs && Enqueue.Carries(jobs[j], payload, partner, crypto);
    CarriesStays(jobs[j], jobs'[j], payload, partner, crypto);
  }

  lemma CarriesStays(a: Jobs.Job, b: Jobs.Job, payload: Bytes, partner: Enqueue.Partner, crypto: Enqueue.Crypto)
    requires Enqueue.Carries(a, payload, partner, crypto)
    requires b.ciphertext == a.ciphertext && b.digest == a.digest && b.partner == a.partner && b.toId == a.toId
    ensures Enqueue.Carries(b, payload, partner, crypto)
  {
  }

  ghost predicate Inv(s: State, config: Config) {
    PlaceInv(s) && TryInv(s, config.max) && JobInv(s, config)
  }

  lemma RunStart(states: seq<State>, steps: seq<Step>, config: Config)
    requires Run(states, steps, config)
    ensures |states| == |steps| + 1 && Init(states[0])
  {
    hide Enabled, Apply, Init;
  }

  lemma RunStep(states: seq<State>, steps: seq<Step>, config: Config, i: nat)
    requires Run(states, steps, config) && i < |steps|
    ensures |states| == |steps| + 1 && Enabled(states[i], steps[i], config)
    ensures states[i + 1] == Apply(states[i], steps[i], config)
  {
    hide Enabled, Apply;
  }

  lemma {:induction false} Invariant(states: seq<State>, steps: seq<Step>, config: Config, k: nat)
    requires Run(states, steps, config) && k < |states|
    ensures Inv(states[k], config)
  {
    hide *;
    RunStart(states, steps, config);
    InvIs(states[k], config);
    if k == 0 {
      InitInv(states[0], config);
    } else {
      Invariant(states, steps, config, k - 1);
      RunStep(states, steps, config, k - 1);
      InvIs(states[k - 1], config);
      PlaceStep(states[k - 1], steps[k - 1], config);
      TryStep(states[k - 1], steps[k - 1], config);
      JobStep(states[k - 1], steps[k - 1], config);
    }
  }

  lemma InvIs(s: State, config: Config)
    ensures Inv(s, config) <==> PlaceInv(s) && TryInv(s, config.max) && JobInv(s, config)
  {
    hide PlaceInv, TryInv, JobInv;
  }

  lemma InitInv(s: State, config: Config)
    requires Init(s)
    ensures Inv(s, config)
  {
  }

  // ------------------------------------------------------------------
  // Over whole runs
  // ------------------------------------------------------------------

  predicate In(dir: Directory, file: File) {
    exists p :: p in dir && dir[p] == file
  }

  /** No two names for the file, and no file that only has its inode. */
  predicate OnceAtMost(dir: Directory, file: File) {
    && (forall p :: p in dir && dir[p].inode == file.inode ==> dir[p] == file)
    && (forall p, q :: p in dir && q in dir && dir[p].inode == file.inode && dir[q].inode == file.inode ==> p == q)
  }

  /**
   In every reachable state, restarts and crashes between hand-over and rename included,
   every file ever dropped and not taken back is in exactly one of inbox, processed and
   error, under one name, with the bytes it was dropped with.
   */
  lemma FilesAreConserved(states: seq<State>, steps: seq<Step>, config: Config, k: nat, inode: nat)
    requires Run(states, steps, config) && k < |states| && inode in states[k].arrived && inode !in states[k].withdrawn
    ensures var f, file := states[k].files, states[k].arrived[inode];
      && (In(f.inbox, file) || In(f.processed, file) || In(f.error, file))
      && !(In(f.inbox, file) && In(f.processed, file)) && !(In(f.inbox, file) && In(f.error, file))
      && !(In(f.processed, file) && In(f.error, file))
      && OnceAtMost(f.inbox, file) && OnceAtMost(f.processed, file) && OnceAtMost(f.error, file)
  {
    Invariant(states, steps, config, k);
    var f, file := states[k].files, states[k].arrived[inode];
    hide Run, TryInv, JobInv;
    Found(f.inbox, states[k].arrived, inode);
    Found(f.processed, states[k].arrived, inode);
    Found(f.error, states[k].arrived, inode);
    hide In, Inodes, OnceAtMost;
  }

  lemma Found(dir: Directory, arrived: map<nat, File>, inode: nat)
    requires Faithful(dir, arrived) && inode in arrived && arrived[inode].inode == inode
    ensures In(dir, arrived[inode]) <==> inode in Inodes(dir)
    ensures OnceAtMost(dir, arrived[inode])
  {
    if inode in Inodes(dir) {
      var p :| p in dir && dir[p].inode == inode;
      assert dir[p] == arrived[inode];
    }
  }

  /** Nothing ever overwrites, renames or removes a processed or an error file. */
  lemma {:induction false} NothingIsOverwritten(
    states: seq<State>, steps: seq<Step>, config: Config, i: nat, k: nat, path: Path)
    requires Run(states, steps, config) && i <= k < |states|
    ensures path in states[i].files.processed ==>
      path in states[k].files.processed && states[k].files.processed[path] == states[i].files.processed[path]
    ensures path in states[i].files.error ==>
      path in states[k].files.error && states[k].files.error[path] == states[i].files.error[path]
  {
    hide *;
    RunStart(states, steps, config);
    if i < k {
      RunStep(states, steps, config, k - 1);
      NothingIsOverwritten(states, steps, config, i, k - 1, path);
      MovedIsKept(states[k - 1], steps[k - 1], config, path);
    }
  }

  lemma MovedIsKept(s: State, step: Step, config: Config, path: Path)
    requires Enabled(s, step, config)
    ensures var t := Apply(s, step, config);
      && (path in s.files.processed ==> path in t.files.processed && t.files.processed[path] == s.files.processed[path])
      && (path in s.files.error ==> path in t.files.error && t.files.error[path] == s.files.error[path])
  {
    if step.PickUp? {
      TargetIsFree(s.files.processed, step.pick.path);
      TargetIsFree(s.files.error, step.pick.path);
    }
    hide Target, Enqueue.Carries;
  }

  /** How often the poller process running at the end of the first `k` steps has picked the file up. */
  ghost function PickUps(states: seq<State>, steps: seq<Step>, inode: nat, k: nat): nat
    requires k <= |steps| <= |states|
  {
    if k == 0 || steps[k - 1].Restart? then 0
    else
      PickUps(states, steps, inode, k - 1)
      + if PicksUp(states[k - 1], steps[k - 1], inode) then 1 else 0
  }

  lemma {:induction false} PickUpsAreCounted(states: seq<State>, steps: seq<Step>, config: Config, inode: nat, k: nat)
    requires Run(states, steps, config) && k <= |steps|
    ensures PickUps(states, steps, inode, k) == Tried(states[k].tries, inode)
  {
    hide *;
    RunStart(states, steps, config);
    if k == 0 {
      NoPickUpsYet(states, steps, config, inode);
    } else {
      PickUpsAreCounted(states, steps, config, inode, k - 1);
      RunStep(states, steps, config, k - 1);
      PickUpsNext(states, steps, inode, k);
      CountStep(states[k - 1], steps[k - 1], config, inode);
    }
  }

  lemma NoPickUpsYet(states: seq<State>, steps: seq<Step>, config: Config, inode: nat)
    requires Run(states, steps, config)
    ensures PickUps(states, steps, inode, 0) == Tried(states[0].tries, inode) == 0
  {
    hide Apply, Enabled;
  }

  predicate PicksUp(s: State, step: Step, inode: nat) {
    step.PickUp? && step.pick.path in s.files.inbox && s.files.inbox[step.pick.path].inode == inode
  }

  lemma PickUpsNext(states: seq<State>, steps: seq<Step>, inode: nat, k: nat)
    requires 0 < k <= |steps| <= |states|
    ensures PickUps(states, steps, inode, k) ==
      if steps[k - 1].Restart? then 0
      else PickUps(states, steps, inode, k - 1) + if PicksUp(states[k - 1], steps[k - 1], inode) then 1 else 0
  {
  }

  lemma CountStep(s: State, step: Step, config: Config, inode: nat)
    requires Enabled(s, step, config)
    ensures Tried(Apply(s, step, config).tries, inode) ==
      if step.Restart? then 0 else Tried(s.tries, inode) + if PicksUp(s, step, inode) then 1 else 0
  {
    hide AfterPickup, Fatal, Enqueue.Carries, PayloadsStay;
  }

  /** In one poller process's lifetime a file is picked up at most max(1, max_pickup_attempts) times. */
  lemma TriesAreBounded(states: seq<State>, steps: seq<Step>, config: Config, inode: nat, k: nat)
    requires Run(states, steps, config) && k <= |steps|
    ensures PickUps(states, steps, inode, k) <= Limit(config.max)
  {
    hide *;
    RunStart(states, steps, config);
    Invariant(states, steps, config, k);
    InvIs(states[k], config);
    PickUpsAreCounted(states, steps, config, inode, k);
    TryIs(states[k], config.max);
    TriedIs(states[k].tries, inode);
    LimitIs(config.max);
  }

  /** Every processed file has a job that carries an encryption of its bytes to its folder's partner. */
  lemma ProcessedFilesHaveJobs(states: seq<State>, steps: seq<Step>, config: Config, k: nat, path: Path)
    requires Run(states, steps, config) && k < |states| && path in states[k].files.processed
    ensures path.duns in config.partners
    ensures JobFor(states[k].jobs, states[k].files.processed[path].bytes, config.partners[path.duns], config.crypto)
  {
    hide Run, PlaceInv, TryInv, JobFor;
    Invariant(states, steps, config, k);
    assert JobInv(states[k], config);
  }

  /** The delivery queue's steps are all of the kind the poller counts on. */
  lemma QueueKeepsPayloads(s: Queue.State, step: Queue.Step, schedule: Queue.Schedule)
    requires Queue.Enabled(s, step)
    ensures PayloadsStay(s.jobs, Queue.Apply(s, step, schedule).jobs)
  {
    hide *;
    QueueInvariant.JobsMoveBy(s, step, schedule);
    UnchangedKeepPayloads(s.jobs, Queue.Apply(s, step, schedule).jobs);
    match step
    case Commit(w) => ClaimsKeepPayloads(s.jobs, Queue.BatchIds(s.workers[w].batch));
    case Conclude(w, known, attempt) =>
      var claim := s.workers[w].batch[0];
      var c := Queue.ConclusionOf(claim.job, known, attempt, schedule, s.now);
      ConclusionsKeepPayloads(s.jobs, claim.id, c);
    case _ =>
  }

  lemma UnchangedKeepPayloads(jobs: Jobs.JobTable, jobs': Jobs.JobTable)
    ensures (forall j :: j in jobs ==> j in jobs' && jobs'[j] == jobs[j]) ==> PayloadsStay(jobs, jobs')
  {
  }

  lemma ClaimsKeepPayloads(jobs: Jobs.JobTable, ids: set<Jobs.JobId>)
    ensures PayloadsStay(jobs, Jobs.ClaimAll(jobs, ids))
  {
  }

  lemma ConclusionsKeepPayloads(jobs: Jobs.JobTable, id: Jobs.JobId, c: Jobs.Conclusion)
    ensures PayloadsStay(jobs, Jobs.ConcludeJob(jobs, id, c))
  {
  }

  function CycleSteps(picks: seq<Pick>): seq<Step> {
    if picks == [] then [] else CycleSteps(picks[..|picks| - 1]) + [PickUp(picks[|picks| - 1])]
  }

  /**
   What a poll cycle does is a stretch of a run: any run can go on with a cycle's pickups, one
   step for each, and ends with the folders, counts and jobs as the cycle leaves them.
   */
  lemma {:induction false} CycleExtendsRun(
    states: seq<State>, steps: seq<Step>, picks: seq<Pick>, after: Progress, config: Config
  ) returns (more: seq<State>)
    requires Run(states, steps, config) && |states| == |steps| + 1
    requires Picked(ProgressOf(states[|steps|]), picks, config) == Some(after)
    ensures Run(states + more, steps + CycleSteps(picks), config)
    ensures |more| == |picks| && ProgressOf((states + more)[|steps| + |picks|]) == after
    decreases |picks|
  {
    hide *;
    CycleStepsUnfold(picks);
    if picks == [] {
      more := [];
      PickedNone(ProgressOf(states[|steps|]), config);
      assert states + more == states && steps + CycleSteps(picks) == steps;
    } else {
      var init, last := picks[..|picks| - 1], picks[|picks| - 1];
      PickedUnfold(ProgressOf(states[|steps|]), picks, config);
      var before := Picked(ProgressOf(states[|steps|]), init, config).value;
      var rest := CycleExtendsRun(states, steps, init, before, config);
      RunStart(states + rest, steps + CycleSteps(init), config);
      var s := (states + rest)[|steps| + |init|];
      PickUpIs(s, last, config);
      var t := Apply(s, PickUp(last), config);
      RunMore(states + rest, steps + CycleSteps(init), PickUp(last), config);
      more := rest + [t];
      assert states + more == states + rest + [t];
      assert steps + CycleSteps(picks) == steps + CycleSteps(init) + [PickUp(last)];
    }
  }

  lemma CycleStepsUnfold(picks: seq<Pick>)
    ensures picks == [] ==> CycleSteps(picks) == []
    ensures picks != [] ==> CycleSteps(picks) == CycleSteps(picks[..|picks| - 1]) + [PickUp(picks[|picks| - 1])]
  {
  }

  lemma PickUpIs(s: State, pick: Pick, config: Config)
    requires PickFits(ProgressOf(s), pick, config) && pick.path in ProgressOf(s).files.inbox
    ensures Enabled(s, PickUp(pick), config)
    ensures ProgressOf(Apply(s, PickUp(pick), config)) == AfterPick(ProgressOf(s), pick, config.max)
  {
    hide PickFits, AfterPickup, Fatal, WithJob;
  }

  lemma RunMore(states: seq<State>, steps: seq<Step>, step: Step, config: Config)
    requires Run(states, steps, config) && |states| == |steps| + 1 && Enabled(states[|steps|], step, config)
    ensures Run(states + [Apply(states[|steps|], step, config)], steps + [step], config)
  {
    hide Enabled, Apply, Init;
  }
}
