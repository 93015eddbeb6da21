/**
 The file-drop poller (app/poller.py): pick up each stable file of each known partner, hand
 its bytes to the delivery queue, and move it out of the inbox.
 */
module Pollers {
  import opened Wrappers
  import opened Bytes
  import opened FileWatch
  import Decimal
  import Messages
  import Jobs
  import Enqueue

  type Directory = map<Path, File>

  /** The partner folders and the poller's in-memory failure counts. */
  datatype Files = Files(inbox: Directory, processed: Directory, error: Directory, counts: map<Path, nat>)

  function NamesIn(dir: Directory, duns: Bytes): set<Name> {
    set p | p in dir && p.duns == duns :: p.name
  }

  function Tries(counts: map<Path, nat>, path: Path): nat {
    if path in counts then counts[path] else 0
  }

  function Target(dir: Directory, path: Path): Path {
    Path(path.duns, Destination(NamesIn(dir, path.duns), path.name))
  }

  function ToProcessed(f: Files, path: Path): Files
    requires path in f.inbox
  {
    f.(inbox := f.inbox - {path}, processed := f.processed[Target(f.processed, path) := f.inbox[path]])
  }

  function ToError(f: Files, path: Path): Files
    requires path in f.inbox
  {
    f.(inbox := f.inbox - {path}, error := f.error[Target(f.error, path) := f.inbox[path]])
  }

  /**
   How one pickup ended: whether the payload reached the queue, and whether the rename, if
   one was due, was possible.
   */
  datatype Pickup = Pickup(enqueued: bool, movable: bool)

  function AfterPickup(f: Files, path: Path, p: Pickup, max: int): Files
    requires path in f.inbox
  {
    if p.enqueued then
      var cleared := f.(counts := f.counts - {path});
      if p.movable then ToProcessed(cleared, path) else cleared
    else
      var counted := f.(counts := f.counts[path := Tries(f.counts, path) + 1]);
      if Tries(f.counts, path) + 1 >= max && p.movable
      then ToError(counted, path).(counts := f.counts - {path})
      else counted
  }

  /**
   Where a pickup leaves its file: in processed once handed over, in error at the attempt that
   reaches the limit, if the rename is possible, and otherwise in the inbox, with one more
   failure counted if it was not handed over.
   */
  lemma PickupLeaves(f: Files, path: Path, p: Pickup, max: int)
    requires path in f.inbox
    ensures var g := AfterPickup(f, path, p, max);
      var exhausted := Tries(f.counts, path) + 1 >= max;
      && (path in g.inbox <==> !p.movable || (!p.enqueued && !exhausted))
      && (g.processed != f.processed <==> p.movable && p.enqueued)
      && (g.error != f.error <==> p.movable && !p.enqueued && exhausted)
      && Tries(g.counts, path) ==
         if p.enqueued || (p.movable && exhausted) then 0 else Tries(f.counts, path) + 1
  {
    TargetIsFree(f.processed, path);
    TargetIsFree(f.error, path);
    hide Target;
    assert Target(f.processed, path) !in f.processed && Target(f.error, path) !in f.error;
  }

  /** A rename that is due and fails is caught by nobody: it ends the poller. */
  predicate Fatal(f: Files, path: Path, p: Pickup, max: int) {
    !p.movable && (p.enqueued || Tries(f.counts, path) + 1 >= max)
  }

  /** What a pickup finds and leaves: folders and counts, the jobs, and whether the poller goes on. */
  datatype Progress = Progress(files: Files, jobs: Jobs.JobTable, alive: bool)

  /** A pickup: of which file, how it ended, and the job it added, if any; the poller may not have been told of that. */
  datatype Pick = Pick(path: Path, pickup: Pickup, added: Option<(Jobs.JobId, Jobs.Job)>)

  /** Partners by DUNS, gpg, and max_pickup_attempts. */
  datatype Config = Config(partners: map<Bytes, Enqueue.Partner>, crypto: Enqueue.Crypto, max: int)

  /** The pickup is one that can come next: a job added is new and carries the file's bytes to the folder's partner. */
  ghost predicate PickFits(p: Progress, pick: Pick, config: Config) {
    && p.alive && pick.path in p.files.inbox && pick.path.duns in config.partners
    && (pick.pickup.enqueued ==> pick.added.Some?)
    && (pick.added.Some? ==>
          && pick.added.value.0 !in p.jobs
          && Enqueue.Carries(
               pick.added.value.1, p.files.inbox[pick.path].bytes, config.partners[pick.path.duns], config.crypto))
  }

  function WithJob(jobs: Jobs.JobTable, added: Option<(Jobs.JobId, Jobs.Job)>): Jobs.JobTable {
    match added
    case None => jobs
    case Some((id, job)) => jobs[id := job]
  }

  function AfterPick(p: Progress, pick: Pick, max: int): Progress
    requires pick.path in p.files.inbox
  {
    Progress(AfterPickup(p.files, pick.path, pick.pickup, max), WithJob(p.jobs, pick.added),
             !Fatal(p.files, pick.path, pick.pickup, max))
  }

  /** Pickups one after another. */
  ghost function Picked(p: Progress, picks: seq<Pick>, config: Config): Option<Progress> {
    if picks == [] then Some(p)
    else
      var last := picks[|picks| - 1];
      match Picked(p, picks[..|picks| - 1], config)
      case Some(q) => if PickFits(q, last, config) then Some(AfterPick(q, last, config.max)) else None
      case None => None
  }

  /** The messages and the refnum counters. */
  datatype Tables = Tables(rows: Messages.Table, next: map<Bytes, nat>)

  /** Every pickup handed its payload over and moved its file. */
  predicate AllMoved(picks: seq<Pick>) {
    forall i :: 0 <= i < |picks| ==> picks[i].pickup == Pickup(true, true)
  }

  /** The file is in the directory, under some name of the partner's folder. */
  predicate IsIn(dir: Directory, duns: Bytes, file: File) {
    exists p :: p in dir && p.duns == duns && dir[p] == file
  }

  predicate IsPicked(picks: seq<Pick>, path: Path) {
    exists i :: 0 <= i < |picks| && picks[i].path == path
  }

  predicate DistinctPaths(picks: seq<Pick>) {
    forall i, k :: 0 <= i < k < |picks| ==> picks[i].path != picks[k].path
  }

  lemma PickedNone(p: Progress, config: Config)
    ensures Picked(p, [], config) == Some(p)
  {
  }

  /** The last pickup, taken off. */
  lemma PickedUnfold(p: Progress, picks: seq<Pick>, config: Config)
    requires picks != [] && Picked(p, picks, config).Some?
    ensures var init, last := picks[..|picks| - 1], picks[|picks| - 1];
      && Picked(p, init, config).Some? && PickFits(Picked(p, init, config).value, last, config)
      && last.path in Picked(p, init, config).value.files.inbox
      && Picked(p, picks, config) == Some(AfterPick(Picked(p, init, config).value, last, config.max))
  {
    var init, last := picks[..|picks| - 1], picks[|picks| - 1];
    assert PickFits(Picked(p, init, config).value, last, config);
    hide AfterPick, Enqueue.Carries;
  }

  lemma {:induction false} PickedOneMore(p: Progress, picks: seq<Pick>, q: Progress, next: Pick, config: Config)
    requires Picked(p, picks, config) == Some(q) && PickFits(q, next, config)
    ensures next.path in q.files.inbox
    ensures Picked(p, picks + [next], config) == Some(AfterPick(q, next, config.max))
  {
    assert (picks + [next])[..|picks|] == picks;
    assert next.path in q.files.inbox;
    hide AfterPick, PickFits;
  }

  lemma {:induction false} PickedMore(p: Progress, first: seq<Pick>, q: Progress, second: seq<Pick>, config: Config)
    requires Picked(p, first, config) == Some(q)
    ensures Picked(p, first + second, config) == Picked(q, second, config)
    decreases |second|
  {
    hide AfterPick, Enqueue.Carries;
    if second == [] {
      assert first + second == first;
    } else {
      var init := second[..|second| - 1];
      assert (first + second)[..|first + second| - 1] == first + init;
      PickedMore(p, first, q, init, config);
    }
  }

  /** What a pickup leaves alone. */
  lemma PickLeaves(p: Progress, pick: Pick, config: Config)
    requires PickFits(p, pick, config)
    ensures pick.path in p.files.inbox
    ensures var q := AfterPick(p, pick, config.max);
      && (forall path :: path in q.files.inbox ==> path in p.files.inbox && q.files.inbox[path] == p.files.inbox[path])
      && (forall path :: path in p.files.inbox && path != pick.path ==> path in q.files.inbox)
      && JobsStay(p.jobs, q.jobs)
      && (pick.pickup.enqueued ==>
            && pick.path.duns in config.partners
            && JobFor(q.jobs, p.files.inbox[pick.path].bytes, config.partners[pick.path.duns], config.crypto))
  {
    hide Target, Enqueue.Carries, Fatal;
    if pick.added.Some? {
      assert WithJob(p.jobs, pick.added)[pick.added.value.0] == pick.added.value.1;
    }
  }

  /**
   Pickups only ever take files out of the inbox, and none that is not picked; they only add
   jobs, and every file handed over has a job that carries its bytes to its partner.
   */
  lemma {:induction false} PickedKeeps(p: Progress, picks: seq<Pick>, config: Config)
    requires Picked(p, picks, config).Some?
    ensures var q := Picked(p, picks, config).value;
      && (forall path :: path in q.files.inbox ==> path in p.files.inbox && q.files.inbox[path] == p.files.inbox[path])
      && (forall path :: path in p.files.inbox && !IsPicked(picks, path) ==> path in q.files.inbox)
      && JobsStay(p.jobs, q.jobs) && Delivered(picks, p.files.inbox, q.jobs, config)
    decreases |picks|
  {
    hide *;
    if picks == [] {
      PickedNone(p, config);
      NothingDelivered(p.files.inbox, p.jobs, config);
    } else {
      var init, last := picks[..|picks| - 1], picks[|picks| - 1];
      PickedUnfold(p, picks, config);
      PickedKeeps(p, init, config);
      var q, r := Picked(p, init, config).value, Picked(p, picks, config).value;
      PickLeaves(q, last, config);
      JobsStayTransitive(p.jobs, q.jobs, r.jobs);
      DeliveredMore(init, last, p.files.inbox, q.jobs, r.jobs, config);
      assert picks == init + [last];
      forall path | path in p.files.inbox && !IsPicked(picks, path) ensures path in r.files.inbox {
        PickedByOne(init, last, path);
      }
    }
  }

  lemma PickedByOne(picks: seq<Pick>, last: Pick, path: Path)
    ensures IsPicked(picks + [last], path) <==> IsPicked(picks, path) || last.path == path
  {
    var all := picks + [last];
    if IsPicked(picks, path) {
      var i :| 0 <= i < |picks| && picks[i].path == path;
      assert all[i].path == path;
    } else if last.path == path {
      assert all[|picks|].path == path;
    }
  }

  lemma TargetIsFree(dir: Directory, path: Path)
    ensures Target(dir, path) !in dir && Target(dir, path).duns == path.duns
  {
    DestinationIsFree(NamesIn(dir, path.duns), path.name);
    hide Destination, Numbered;
  }

  /** If every pickup moved its file, each file picked has left the inbox for processed. */
  lemma {:induction false} MovedAreProcessed(p: Progress, picks: seq<Pick>, config: Config)
    requires Picked(p, picks, config).Some? && AllMoved(picks)
    ensures var q := Picked(p, picks, config).value;
      forall path :: IsPicked(picks, path) ==>
        && path in p.files.inbox && path !in q.files.inbox
        && IsIn(q.files.processed, path.duns, p.files.inbox[path])
    decreases |picks|
  {
    hide *;
    if picks == [] {
      NothingPicked();
    } else {
      var init, last := picks[..|picks| - 1], picks[|picks| - 1];
      PickedUnfold(p, picks, config);
      AllMovedBut(picks);
      MovedAreProcessed(p, init, config);
      PickedKeeps(p, init, config);
      var q, r := Picked(p, init, config).value, Picked(p, picks, config).value;
      MoveProcesses(q, last, config.max);
      assert picks == init + [last];
      forall path | IsPicked(picks, path)
        ensures path in p.files.inbox && path !in r.files.inbox
        ensures IsIn(r.files.processed, path.duns, p.files.inbox[path])
      {
        PickedByOne(init, last, path);
        if path != last.path {
          StaysIn(q.files.processed, r.files.processed, path.duns, p.files.inbox[path]);
        }
      }
    }
  }

  lemma NothingPicked()
    ensures forall path :: !IsPicked([], path)
  {
  }

  lemma AllMovedBut(picks: seq<Pick>)
    requires picks != [] && AllMoved(picks)
    ensures AllMoved(picks[..|picks| - 1]) && picks[|picks| - 1].pickup == Pickup(true, true)
  {
  }

  lemma MoveProcesses(p: Progress, pick: Pick, max: int)
    requires pick.path in p.files.inbox && pick.pickup == Pickup(true, true)
    ensures var f, g := p.files, AfterPick(p, pick, max).files;
      && g.inbox == f.inbox - {pick.path} && IsIn(g.processed, pick.path.duns, f.inbox[pick.path])
      && forall q :: q in f.processed ==> q in g.processed && g.processed[q] == f.processed[q]
  {
    TargetIsFree(p.files.processed, pick.path);
    hide Target, WithJob, Fatal;
    assert Target(p.files.processed, pick.path) in AfterPick(p, pick, max).files.processed;
  }

  lemma StaysIn(dir: Directory, dir': Directory, duns: Bytes, file: File)
    requires forall q :: q in dir ==> q in dir' && dir'[q] == dir[q]
    ensures IsIn(dir, duns, file) ==> IsIn(dir', duns, file)
  {
  }

  /** Every enqueued pick has a job that carries its file's bytes to its partner. */
  ghost predicate Delivered(picks: seq<Pick>, inbox: Directory, jobs: Jobs.JobTable, config: Config) {
    forall i :: 0 <= i < |picks| && picks[i].pickup.enqueued ==>
      && picks[i].path in inbox && picks[i].path.duns in config.partners
      && JobFor(jobs, inbox[picks[i].path].bytes, config.partners[picks[i].path.duns], config.crypto)
  }

  lemma NothingDelivered(inbox: Directory, jobs: Jobs.JobTable, config: Config)
    ensures Delivered([], inbox, jobs, config) && JobsStay(jobs, jobs)
  {
  }

  lemma DeliveredMore(
    picks: seq<Pick>, next: Pick, inbox: Directory, jobs: Jobs.JobTable, jobs': Jobs.JobTable, config: Config)
    requires Delivered(picks, inbox, jobs, config) && JobsStay(jobs, jobs')
    requires next.pickup.enqueued ==>
      && next.path in inbox && next.path.duns in config.partners
      && JobFor(jobs', inbox[next.path].bytes, config.partners[next.path.duns], config.crypto)
    ensures Delivered(picks + [next], inbox, jobs', config)
  {
    hide Enqueue.Carries;
    forall i | 0 <= i < |picks| && picks[i].pickup.enqueued
      ensures JobFor(jobs', inbox[picks[i].path].bytes, config.partners[picks[i].path.duns], config.crypto)
    {
      var bytes, partner := inbox[picks[i].path].bytes, config.partners[picks[i].path.duns];
      var j :| j in jobs && Enqueue.Carries(jobs[j], bytes, partner, config.crypto);
      assert j in jobs' && jobs'[j] == jobs[j];
    }
    hide JobFor;
  }

  function Entries(inbox: Directory, duns: Bytes): map<Name, File> {
    map p | p in inbox && p.duns == duns :: p.name := inbox[p]
  }

  ghost predicate JobFor(jobs: Jobs.JobTable, bytes: Bytes, partner: Enqueue.Partner, crypto: Enqueue.Crypto) {
    exists j :: j in jobs && Enqueue.Carries(jobs[j], bytes, partner, crypto)
  }

  predicate JobsStay(jobs: Jobs.JobTable, jobs': Jobs.JobTable) {
    forall j :: j in jobs ==> j in jobs' && jobs'[j] == jobs[j]
  }

  // ------------------------------------------------------------------
  // Counters
  // ------------------------------------------------------------------

  class AttemptTracker {
    const maxAttempts: int
    var counts: map<Path, nat>

    constructor (maxAttempts: int)
      ensures this.maxAttempts == maxAttempts && counts == map[]
    {
      this.maxAttempts := maxAttempts;
      counts := map[];
    }

    method RecordFailure(path: Path) returns (count: nat)
      modifies this
      ensures count == Tries(old(counts), path) + 1 && counts == old(counts)[path := count]
    {
      count := (if path in counts then counts[path] else 0) + 1;
      counts := counts[path := count];
    }

    method Exhausted(path: Path) returns (b: bool)
      ensures b == (Tries(counts, path) >= maxAttempts)
    {
      b := (if path in counts then counts[path] else 0) >= maxAttempts;
    }

    method Clear(path: Path)
      modifies this
      ensures counts == old(counts) - {path}
    {
      counts := counts - {path};
    }
  }

  /** The number a partner's counter hands out next. */
  function UpcomingIn(next: map<Bytes, nat>, partner: Bytes): nat {
    if partner in next then next[partner] else 1
  }

  /** The counters of exactly these partners have moved on by one. */
  ghost predicate CountedOn(next: map<Bytes, nat>, next': map<Bytes, nat>, partners: set<Bytes>) {
    forall name :: UpcomingIn(next', name) == UpcomingIn(next, name) + if name in partners then 1 else 0
  }

  /** Refnums the gateway assigns itself: a counter for each partner (app/tracking/repository.py:375-399). */
  class RefnumRepository {
    var next: map<Bytes, nat>

    constructor ()
      ensures next == map[]
    {
      next := map[];
    }

    function Upcoming(partner: Bytes): nat
      reads this
    {
      UpcomingIn(next, partner)
    }

    /** The counter goes up and its old value is handed out, so no value is handed out twice. */
    method NextRefnum(partner: Bytes) returns (refnum: Bytes)
      modifies this
      ensures refnum == Decimal.Of(old(Upcoming(partner))) && Upcoming(partner) == old(Upcoming(partner)) + 1
      ensures forall other :: other != partner ==> Upcoming(other) == old(Upcoming(other))
      ensures CountedOn(old(next), next, {partner})
      ensures forall n: nat :: n < old(Upcoming(partner)) ==> refnum != Decimal.Of(n)
    {
      next := next[partner := if partner in next then next[partner] + 1 else 2];
      refnum := Decimal.Of(next[partner] - 1);
      forall n: nat | n < next[partner] - 1 ensures refnum != Decimal.Of(n) {
        if refnum == Decimal.Of(n) {
          Decimal.Injective(n, next[partner] - 1);
        }
      }
    }
  }

  // ------------------------------------------------------------------
  // The file system
  // ------------------------------------------------------------------

  class FileSystem {
    var inbox: Directory
    var processed: Directory
    var error: Directory

    constructor (inbox: Directory, processed: Directory, error: Directory)
      ensures this.inbox == inbox && this.processed == processed && this.error == error
    {
      this.inbox, this.processed, this.error := inbox, processed, error;
    }

    method MoveToProcessed(path: Path, movable: bool) returns (moved: bool)
      requires path in inbox
      modifies this
      ensures moved == movable
      ensures inbox == if moved then old(inbox) - {path} else old(inbox)
      ensures processed ==
        if moved then old(processed)[Target(old(processed), path) := old(inbox)[path]] else old(processed)
      ensures error == old(error)
    {
      if movable {
        var name := UniqueDestination(NamesIn(processed, path.duns), path.name);
        processed := processed[Path(path.duns, name) := inbox[path]];
        inbox := inbox - {path};
      }
      moved := movable;
    }

    method MoveToError(path: Path, movable: bool) returns (moved: bool)
      requires path in inbox
      modifies this
      ensures moved == movable
      ensures inbox == if moved then old(inbox) - {path} else old(inbox)
      ensures error == if moved then old(error)[Target(old(error), path) := old(inbox)[path]] else old(error)
      ensures processed == old(processed)
    {
      if movable {
        var name := UniqueDestination(NamesIn(error, path.duns), path.name);
        error := error[Path(path.duns, name) := inbox[path]];
        inbox := inbox - {path};
      }
      moved := movable;
    }
  }

  // ------------------------------------------------------------------
  // The poller
  // ------------------------------------------------------------------

  /** The oracles of one pickup: what fails, and what the database and gpg choose. */
  datatype Chance = Chance(
    unreadable: bool, refnum: Fault, message: Fault, job: Fault, unmovable: bool, nonce: nat, now: Jobs.Time
  )

  datatype World = World(
    chance: Path -> Chance, freshMessage: Messages.Table -> Messages.MessageId, freshJob: Jobs.JobTable -> Jobs.JobId
  )

  ghost predicate Sensible(world: World) {
    (forall rows :: world.freshMessage(rows) !in rows) && (forall jobs :: world.freshJob(jobs) !in jobs)
  }

  datatype Settings = Settings(
    partners: map<Bytes, Enqueue.Partner>,   // by DUNS
    self: Bytes, quietPeriod: int, crypto: Enqueue.Crypto
  )

  class Poller {
    const files: FileSystem
    const attempts: AttemptTracker
    const refnums: RefnumRepository
    const tracker: Messages.MessageTracker
    const jobs: Jobs.OutboundJobRepository
    const settings: Settings
    var unknownWarned: set<Bytes>

    constructor (
      files: FileSystem, attempts: AttemptTracker, refnums: RefnumRepository,
      tracker: Messages.MessageTracker, jobs: Jobs.OutboundJobRepository, settings: Settings
    )
      ensures this.files == files && this.attempts == attempts && this.refnums == refnums
      ensures this.tracker == tracker && this.jobs == jobs && this.settings == settings && unknownWarned == {}
    {
      this.files, this.attempts, this.refnums := files, attempts, refnums;
      this.tracker, this.jobs, this.settings := tracker, jobs, settings;
      unknownWarned := {};
    }

    ghost function View(): Files
      reads files, attempts
    {
      Files(files.inbox, files.processed, files.error, attempts.counts)
    }

    ghost function Now(): Progress
      reads files, attempts, jobs
    {
      Progress(View(), jobs.jobs, true)
    }

    ghost function Rules(): Config {
      Config(settings.partners, settings.crypto, attempts.maxAttempts)
    }

    ghost predicate Ready(world: World)
      reads tracker
    {
      Messages.KeysUnique(tracker.rows) && Sensible(world)
    }

    /** The refnum a pickup gives its message: the partner's next number, or none. */
    function RefnumFor(next: map<Bytes, nat>, partner: Enqueue.Partner): Option<Bytes> {
      if partner.useRefnum then Some(Decimal.Of(UpcomingIn(next, partner.name))) else None
    }

    /** What encrypting a file of the partner's gives. */
    function CipherOf(file: File, partner: Enqueue.Partner, nonce: nat): Option<Bytes> {
      settings.crypto.encrypt(file.bytes, partner.name, nonce)
    }

    /**
     Exactly when a payload reaches the queue and the poller is told so: the file can be read
     and encrypted, no call raises, and no outbound message of the partner's has its digest or
     its refnum.
     */
    ghost predicate Accepted(
      file: File, partner: Enqueue.Partner, chance: Chance, rows: Messages.Table, next: map<Bytes, nat>
    ) {
      && !chance.unreadable && (partner.useRefnum ==> chance.refnum == Fine)
      && chance.message == Fine && chance.job == Fine
      && CipherOf(file, partner, chance.nonce).Some?
      && Enqueue.Unsent(rows, partner.name, settings.crypto.hash(CipherOf(file, partner, chance.nonce).value),
                        RefnumFor(next, partner))
    }

    /** The message row of a payload that reached the queue, added to the table. */
    ghost predicate RowAdded(
      rows: Messages.Table, rows': Messages.Table, partner: Bytes, digest: Bytes, refnum: Option<Bytes>
    ) {
      exists m ::
        && m !in rows && m in rows' && rows' == rows[m := rows'[m]]
        && rows'[m].direction == Messages.Outbound && rows'[m].partner == partner
        && rows'[m].digest == digest && rows'[m].refnum == refnum
    }

    /** What such a payload leaves beside its job: its message, and the partner's counter moved on if it was used. */
    ghost predicate Recorded(
      file: File, partner: Enqueue.Partner, chance: Chance,
      rows: Messages.Table, next: map<Bytes, nat>, rows': Messages.Table, next': map<Bytes, nat>
    ) {
      && CipherOf(file, partner, chance.nonce).Some?
      && RowAdded(rows, rows', partner.name, settings.crypto.hash(CipherOf(file, partner, chance.nonce).value),
                  RefnumFor(next, partner))
      && CountedOn(next, next', if partner.useRefnum then {partner.name} else {})
    }

    lemma RecordedBy(
      file: File, partner: Enqueue.Partner, chance: Chance, rows: Messages.Table, next: map<Bytes, nat>,
      m: Messages.MessageId, rows': Messages.Table, next': map<Bytes, nat>)
      requires CipherOf(file, partner, chance.nonce).Some?
      requires m !in rows && m in rows' && rows' == rows[m := rows'[m]]
      requires rows'[m].direction == Messages.Outbound && rows'[m].partner == partner.name
      requires rows'[m].digest == settings.crypto.hash(CipherOf(file, partner, chance.nonce).value)
      requires rows'[m].refnum == RefnumFor(next, partner)
      requires CountedOn(next, next', if partner.useRefnum then {partner.name} else {})
      ensures Recorded(file, partner, chance, rows, next, rows', next')
    {
      hide CipherOf, RefnumFor, CountedOn;
    }

    /**
     Read, number and enqueue: everything the pickup's try block does. It comes to its end,
     or anything in it raises.
     */
    method HandOver(path: Path, partner: Enqueue.Partner, world: World)
      returns (enqueued: bool, ghost added: Option<(Jobs.JobId, Jobs.Job)>)
      requires Ready(world) && path in files.inbox
      modifies refnums, tracker, jobs
      ensures Ready(world)
      ensures jobs.jobs == WithJob(old(jobs.jobs), added)
      ensures enqueued <==>
        Accepted(files.inbox[path], partner, world.chance(path), old(tracker.rows), old(refnums.next))
      ensures enqueued ==>
        && added.Some?
        && Recorded(files.inbox[path], partner, world.chance(path),
                    old(tracker.rows), old(refnums.next), tracker.rows, refnums.next)
      ensures added.Some? ==>
        && added.value.0 !in old(jobs.jobs)
        && Enqueue.Carries(added.value.1, files.inbox[path].bytes, partner, settings.crypto)
        && Enqueue.Addressed(added.value.1, partner, RefnumFor(old(refnums.next), partner), settings.self)
    {
      var chance := world.chance(path);
      added := None;
      if chance.unreadable {
        return false, None;
      }
      var payload := files.inbox[path].bytes;
      var refnum: Option<Bytes> := None;
      if partner.useRefnum {
        if chance.refnum == RaisesBefore {
          return false, None;
        }
        var number := refnums.NextRefnum(partner.name);
        if chance.refnum == RaisesAfter {
          return false, None;
        }
        refnum := Some(number);
      }
      var db := Enqueue.Db(
        world.freshMessage(tracker.rows), world.freshJob(jobs.jobs), chance.message, chance.job, chance.now);
      hide Enqueue.Carries, Enqueue.OrderFor, Enqueue.Enqueued, Enqueue.Unsent, Enqueue.Addressed, Messages.KeysUnique;
      var r := Enqueue.EnqueueOutbound(
        payload, partner, refnum, settings.self, settings.crypto, chance.nonce, db, tracker, jobs);
      enqueued := r.Ok?;
      if jobs.jobs != old(jobs.jobs) {
        added := Some((db.jobId, jobs.jobs[db.jobId]));
      } else if r.Ok? {
        assert false;
      }
      if r.Ok? {
        RecordedBy(files.inbox[path], partner, chance, old(tracker.rows), old(refnums.next), db.messageId,
                   tracker.rows, refnums.next);
      }
    }

    /**
     One file. Whatever happens, folders, counts, jobs and the poller itself end as the
     pickup says; a job is added whenever the payload was handed over, and it carries the
     file's bytes under the partner's next refnum; and the payload is handed over exactly
     when nothing stands against it.
     */
    method ProcessFile(path: Path, world: World) returns (alive: bool, ghost pick: Pick)
      requires Ready(world) && path in files.inbox && path.duns in settings.partners
      modifies files, attempts, refnums, tracker, jobs
      ensures Ready(world)
      ensures pick.path == path
      ensures PickFits(old(Now()), pick, Rules())
      ensures AfterPick(old(Now()), pick, attempts.maxAttempts) == Now().(alive := alive)
      ensures AnsweredBy(pick, old(files.inbox)[path], old(Tabled()), Tabled(), world)
      ensures old(Smooth(world)) ==> Smooth(world) && alive && pick.pickup == Pickup(true, true)
    {
      hide Ready, Enqueue.Carries, Target, Fatal, WithJob, Accepted, Recorded, Enqueue.Addressed, RefnumFor, SmoothIn;
      ghost var added;
      var enqueued;
      enqueued, added := HandOver(path, settings.partners[path.duns], world);
      var movable := !world.chance(path).unmovable;
      pick := Pick(path, Pickup(enqueued, movable), added);
      FatalIs(View(), path, pick.pickup, attempts.maxAttempts);
      SmoothMeans(files.inbox, old(tracker.rows), old(refnums.next), path, world);
      alive := true;
      if !enqueued {
        var count := attempts.RecordFailure(path);
        var exhausted := attempts.Exhausted(path);
        if exhausted {
          alive := files.MoveToError(path, movable);
          if alive {
            attempts.Clear(path);
            assert attempts.counts == old(attempts.counts) - {path};
          }
        }
      } else {
        SmoothOn(files.inbox, old(tracker.rows), old(refnums.next), path, world, tracker.rows, refnums.next);
        attempts.Clear(path);
        alive := files.MoveToProcessed(path, movable);
      }
    }

    // ------------------------------------------------------------------
    // When nothing stands against any file
    // ------------------------------------------------------------------

    predicate Ours(inbox: Directory, path: Path) {
      path in inbox && path.duns in settings.partners
    }

    function Cipher(inbox: Directory, path: Path, world: World): Option<Bytes>
      requires Ours(inbox, path)
    {
      CipherOf(inbox[path], settings.partners[path.duns], world.chance(path).nonce)
    }

    predicate Untroubled(chance: Chance) {
      && !chance.unreadable && !chance.unmovable
      && chance.refnum == Fine && chance.message == Fine && chance.job == Fine
    }

    function DigestOf(cipher: Option<Bytes>): Option<Bytes> {
      match cipher case None => None case Some(c) => Some(settings.crypto.hash(c))
    }

    /** Every file of a known partner can be encrypted, and no two ciphertexts have the same digest. */
    ghost predicate Encryptable(inbox: Directory, world: World) {
      && (forall p :: Ours(inbox, p) ==> Cipher(inbox, p, world).Some?)
      && (forall p, q :: Ours(inbox, p) && Ours(inbox, q) && p != q ==>
            DigestOf(Cipher(inbox, p, world)) != DigestOf(Cipher(inbox, q, world)))
    }

    /** No outbound message has the digest of a file to come. */
    ghost predicate DigestsClear(inbox: Directory, rows: Messages.Table, world: World) {
      forall m, p :: m in rows && rows[m].direction == Messages.Outbound && Ours(inbox, p) ==>
        Some(rows[m].digest) != DigestOf(Cipher(inbox, p, world))
    }

    /** No outbound message has a refnum that its partner's counter has yet to hand out. */
    ghost predicate RefnumsClear(rows: Messages.Table, next: map<Bytes, nat>) {
      forall m, d, n: nat ::
        m in rows && rows[m].direction == Messages.Outbound && d in settings.partners
        && settings.partners[d].useRefnum && settings.partners[d].name == rows[m].partner
        && n >= UpcomingIn(next, rows[m].partner) ==>
          rows[m].refnum != Some(Decimal.Of(n))
    }

    ghost predicate SmoothIn(inbox: Directory, rows: Messages.Table, next: map<Bytes, nat>, world: World) {
      && (forall path :: Untroubled(world.chance(path)))
      && Encryptable(inbox, world) && DigestsClear(inbox, rows, world) && RefnumsClear(rows, next)
    }

    /** No call will raise, every file can be encrypted, and no key will clash. */
    ghost predicate Smooth(world: World)
      reads files, tracker, refnums
    {
      SmoothIn(files.inbox, tracker.rows, refnums.next, world)
    }

    lemma SmoothMeans(inbox: Directory, rows: Messages.Table, next: map<Bytes, nat>, path: Path, world: World)
      requires Ours(inbox, path)
      ensures SmoothIn(inbox, rows, next, world) ==>
        && Accepted(inbox[path], settings.partners[path.duns], world.chance(path), rows, next)
        && !world.chance(path).unmovable
    {
      hide Decimal.Of;
      if SmoothIn(inbox, rows, next, world) {
        assert Untroubled(world.chance(path));
      }
    }

    lemma SmoothOn(
      inbox: Directory, rows: Messages.Table, next: map<Bytes, nat>, path: Path, world: World,
      rows': Messages.Table, next': map<Bytes, nat>)
      requires Ours(inbox, path)
      requires Recorded(inbox[path], settings.partners[path.duns], world.chance(path), rows, next, rows', next')
      ensures SmoothIn(inbox, rows, next, world) ==> SmoothIn(inbox - {path}, rows', next', world)
    {
      if SmoothIn(inbox, rows, next, world) {
        RefnumsStayClear(inbox[path], settings.partners[path.duns], world.chance(path), rows, next, rows', next');
        DigestsStayClear(inbox, rows, next, path, world, rows', next');
        EncryptableLess(inbox, path, world);
        hide Encryptable, Recorded, RefnumsClear, DigestsClear, CipherOf;
      }
    }

    lemma EncryptableLess(inbox: Directory, path: Path, world: World)
      requires Encryptable(inbox, world)
      ensures Encryptable(inbox - {path}, world)
    {
      hide CipherOf, DigestOf;
      forall p | Ours(inbox - {path}, p)
        ensures Ours(inbox, p) && Cipher(inbox - {path}, p, world) == Cipher(inbox, p, world)
      {
      }
    }

    lemma RefnumsStayClear(
      file: File, partner: Enqueue.Partner, chance: Chance,
      rows: Messages.Table, next: map<Bytes, nat>, rows': Messages.Table, next': map<Bytes, nat>)
      requires Recorded(file, partner, chance, rows, next, rows', next') && RefnumsClear(rows, next)
      ensures RefnumsClear(rows', next')
    {
      hide Decimal.Of, CipherOf;
      forall m, d, n: nat |
        m in rows' && rows'[m].direction == Messages.Outbound && d in settings.partners
        && settings.partners[d].useRefnum && settings.partners[d].name == rows'[m].partner
        && n >= UpcomingIn(next', rows'[m].partner)
        ensures rows'[m].refnum != Some(Decimal.Of(n))
      {
        if m !in rows && partner.useRefnum && Decimal.Of(UpcomingIn(next, partner.name)) == Decimal.Of(n) {
          Decimal.Injective(UpcomingIn(next, partner.name), n);
        }
      }
    }

    lemma DigestsStayClear(
      inbox: Directory, rows: Messages.Table, next: map<Bytes, nat>, path: Path, world: World,
      rows': Messages.Table, next': map<Bytes, nat>)
      requires Ours(inbox, path) && Encryptable(inbox, world) && DigestsClear(inbox, rows, world)
      requires Recorded(inbox[path], settings.partners[path.duns], world.chance(path), rows, next, rows', next')
      ensures DigestsClear(inbox - {path}, rows', world)
    {
      hide RefnumFor;
      forall m, p | m in rows' && rows'[m].direction == Messages.Outbound && Ours(inbox - {path}, p)
        ensures Some(rows'[m].digest) != DigestOf(Cipher(inbox - {path}, p, world))
      {
        assert Ours(inbox, p) && Cipher(inbox - {path}, p, world) == Cipher(inbox, p, world);
        if m !in rows {
          assert Some(rows'[m].digest) == DigestOf(Cipher(inbox, path, world));
        }
      }
    }

    lemma FatalIs(f: Files, path: Path, p: Pickup, max: int)
      ensures Fatal(f, path, p, max) <==> !p.movable && (p.enqueued || Tries(f.counts, path) + 1 >= max)
    {
    }

    /** The files of `inbox` a folder's poll is to pick. */
    predicate Picks(inbox: Directory, path: Path, now: int) {
      path in inbox && Stable(path.name, inbox[path], settings.quietPeriod, now)
    }

    method StableFiles(duns: Bytes, now: int) returns (names: seq<Name>)
      ensures forall i :: 0 <= i < |names| ==> Picks(files.inbox, Path(duns, names[i]), now)
      ensures forall path :: Picks(files.inbox, path, now) && path.duns == duns ==>
        exists k :: 0 <= k < |names| && names[k] == path.name
      ensures forall i, k :: 0 <= i < k < |names| ==> names[i] != names[k]
      ensures Sorted(names)
    {
      names := ListStableFiles(Entries(files.inbox, duns), settings.quietPeriod, now);
      hide Stable, Below, Sorted;
      forall i | 0 <= i < |names| ensures Picks(files.inbox, Path(duns, names[i]), now) {
        assert names[i] in names;
      }
      forall path | Picks(files.inbox, path, now) && path.duns == duns
        ensures exists k :: 0 <= k < |names| && names[k] == path.name
      {
        assert path.name in Entries(files.inbox, duns);
      }
      forall i, k | 0 <= i < k < |names| ensures names[i] != names[k] {
        SortedDistinct(names, i, k);
      }
    }

    /**
     One partner's folder: the stable files, in order, each once; unless a failing rename
     ends the poller, all of them.
     */
    method PollFolder(duns: Bytes, now: int, world: World)
      returns (alive: bool, ghost picks: seq<Pick>, ghost tables: seq<Tables>)
      requires Ready(world) && duns in settings.partners
      modifies files, attempts, refnums, tracker, jobs
      ensures Ready(world)
      ensures Picked(old(Now()), picks, Rules()) == Some(Now().(alive := alive))
      ensures DistinctPaths(picks)
      ensures forall i :: 0 <= i < |picks| ==> picks[i].path.duns == duns && Picks(old(files.inbox), picks[i].path, now)
      ensures alive ==> forall path :: Picks(old(files.inbox), path, now) && path.duns == duns ==> IsPicked(picks, path)
      ensures Answered(picks, old(files.inbox), tables, world)
      ensures |tables| == |picks| + 1 && tables[0] == old(Tabled()) && tables[|picks|] == Tabled()
      ensures old(Smooth(world)) ==> Smooth(world) && alive && AllMoved(picks)
    {
      hide *;
      var names := StableFiles(duns, now);
      ghost var start := Now();
      NowIs();
      picks, alive, tables := [], true, [Tabled()];
      PickedNone(start, Rules());
      AnsweredNone(start.files.inbox, Tabled(), world);
      var i := 0;
      while i < |names| && alive
        invariant i <= |names| && Ready(world)
        invariant Picked(start, picks, Rules()) == Some(Now().(alive := alive))
        invariant |picks| == i && forall k :: 0 <= k < i ==> picks[k].path == Path(duns, names[k])
        invariant Answered(picks, start.files.inbox, tables, world)
        invariant |tables| == |picks| + 1 && tables[0] == old(Tabled()) && tables[|picks|] == Tabled()
        invariant old(Smooth(world)) ==> Smooth(world) && alive && AllMoved(picks)
      {
        var path := Path(duns, names[i]);
        ghost var before := Now();
        NowIs();
        NotYetPicked(start, picks, path, before, Rules());
        PicksIs(start.files.inbox, path, now);
        ghost var next;
        alive, next := ProcessFile(path, world);
        PickedOneMore(start, picks, before, next, Rules());
        NowIs();
        AnsweredMore(picks, next, start.files.inbox, tables, Tabled(), world);
        tables := tables + [Tabled()];
        picks := picks + [next];
        i := i + 1;
      }
      AllDistinct(picks);
      if alive {
        forall path | Picks(start.files.inbox, path, now) && path.duns == duns ensures IsPicked(picks, path) {
          var k :| 0 <= k < |names| && names[k] == path.name;
          ThatIsPicked(picks, k, path);
        }
      }
    }

    /** The tables a pickup reads and writes beside the jobs. */
    ghost function Tabled(): Tables
      reads tracker, refnums
    {
      Tables(tracker.rows, refnums.next)
    }

    /** The pickup ends as the file, its partner and the tables say it must. */
    ghost predicate AnsweredBy(pick: Pick, file: File, before: Tables, after: Tables, world: World)
      requires pick.path.duns in settings.partners
    {
      var partner, chance := settings.partners[pick.path.duns], world.chance(pick.path);
      && pick.pickup.movable == !chance.unmovable
      && (pick.pickup.enqueued <==> Accepted(file, partner, chance, before.rows, before.next))
      && (pick.pickup.enqueued ==> Recorded(file, partner, chance, before.rows, before.next, after.rows, after.next))
      && (pick.added.Some? ==>
            Enqueue.Addressed(pick.added.value.1, partner, RefnumFor(before.next, partner), settings.self))
    }

    /** All pickups do, each from the tables the one before has left. */
    ghost predicate Answered(picks: seq<Pick>, inbox: Directory, tables: seq<Tables>, world: World) {
      && |tables| == |picks| + 1
      && forall i :: 0 <= i < |picks| ==>
           && picks[i].path in inbox && picks[i].path.duns in settings.partners
           && AnsweredBy(picks[i], inbox[picks[i].path], tables[i], tables[i + 1], world)
    }

    lemma PickedAreThere(picks: seq<Pick>, inbox: Directory, now: int)
      ensures (forall i :: 0 <= i < |picks| ==> Picks(inbox, picks[i].path, now)) ==>
        forall i :: 0 <= i < |picks| ==> picks[i].path in inbox
    {
      hide Stable;
    }

    lemma AnsweredNone(inbox: Directory, tables: Tables, world: World)
      ensures Answered([], inbox, [tables], world) && AllMoved([])
    {
    }

    lemma AnsweredMore(
      picks: seq<Pick>, next: Pick, inbox: Directory, tables: seq<Tables>, after: Tables, world: World)
      requires Answered(picks, inbox, tables, world)
      ensures |tables| == |picks| + 1
      requires next.path in inbox && next.path.duns in settings.partners
      requires AnsweredBy(next, inbox[next.path], tables[|tables| - 1], after, world)
      ensures Answered(picks + [next], inbox, tables + [after], world)
      ensures AllMoved(picks) && next.pickup == Pickup(true, true) ==> AllMoved(picks + [next])
    {
      hide AnsweredBy;
    }

    lemma AnsweredBoth(
      picks: seq<Pick>, more: seq<Pick>, inbox: Directory, current: Directory,
      tables: seq<Tables>, further: seq<Tables>, world: World)
      requires Answered(picks, inbox, tables, world) && Answered(more, current, further, world)
      requires forall i :: 0 <= i < |more| ==>
        more[i].path in inbox && more[i].path in current && inbox[more[i].path] == current[more[i].path]
      requires |tables| == |picks| + 1 && |further| == |more| + 1 && tables[|picks|] == further[0]
      ensures Answered(picks + more, inbox, tables + further[1..], world)
      ensures (tables + further[1..])[0] == tables[0] && (tables + further[1..])[|picks + more|] == further[|more|]
      ensures AllMoved(picks) && AllMoved(more) ==> AllMoved(picks + more)
    {
      hide AnsweredBy;
      var both, all := picks + more, tables + further[1..];
      forall i | 0 <= i < |both|
        ensures both[i].path in inbox && both[i].path.duns in settings.partners
        ensures AnsweredBy(both[i], inbox[both[i].path], all[i], all[i + 1], world)
      {
        if i >= |picks| {
          var k := i - |picks|;
          assert both[i] == more[k] && all[i] == further[k] && all[i + 1] == further[k + 1];
        } else {
          assert both[i] == picks[i] && all[i] == tables[i] && all[i + 1] == tables[i + 1];
        }
      }
    }

    /** What the picks so far say about the folders visited so far. */
    ghost predicate Covers(picks: seq<Pick>, inbox: Directory, visited: set<Bytes>, now: int, all: bool) {
      && DistinctPaths(picks)
      && (forall i :: 0 <= i < |picks| ==>
            && picks[i].path.duns in visited && picks[i].path.duns in settings.partners
            && Picks(inbox, picks[i].path, now))
      && (all ==> forall path :: Picks(inbox, path, now) && path.duns in visited && path.duns in settings.partners ==>
            IsPicked(picks, path))
    }

    lemma CoversMore(
      picks: seq<Pick>, more: seq<Pick>, inbox: Directory, current: Directory, visited: set<Bytes>, duns: Bytes,
      now: int, all: bool)
      requires Covers(picks, inbox, visited, now, true) && duns !in visited && duns in settings.partners
      requires forall path: Path :: path.duns == duns ==>
        (path in current <==> path in inbox) && (path in inbox ==> current[path] == inbox[path])
      requires DistinctPaths(more)
      requires forall i :: 0 <= i < |more| ==>
        more[i].path.duns == duns && Picks(current, more[i].path, now)
      requires all ==> forall path :: Picks(current, path, now) && path.duns == duns ==> IsPicked(more, path)
      ensures Covers(picks + more, inbox, visited + {duns}, now, all)
    {
      hide Stable;
      var both := picks + more;
      if all {
        forall path | Picks(inbox, path, now) && path.duns in visited + {duns} && path.duns in settings.partners
          ensures IsPicked(both, path)
        {
          if path.duns == duns {
            assert Picks(current, path, now);
            var i :| 0 <= i < |more| && more[i].path == path;
            assert both[|picks| + i].path == path;
          } else {
            assert IsPicked(picks, path);
            var i :| 0 <= i < |picks| && picks[i].path == path;
            assert both[i].path == path;
          }
        }
      }
    }

    /** A folder not visited yet is as it was. */
    lemma UnvisitedStays(
      p: Progress, picks: seq<Pick>, config: Config, q: Progress, visited: set<Bytes>, now: int, duns: Bytes)
      requires Picked(p, picks, config) == Some(q) && Covers(picks, p.files.inbox, visited, now, true)
      requires duns !in visited
      ensures forall path: Path :: path.duns == duns ==>
        && (path in q.files.inbox <==> path in p.files.inbox)
        && (path in p.files.inbox ==> q.files.inbox[path] == p.files.inbox[path])
    {
      hide AfterPick, PickFits, Stable;
      forall path: Path | path.duns == duns
        ensures path in q.files.inbox <==> path in p.files.inbox
        ensures path in p.files.inbox ==> q.files.inbox[path] == p.files.inbox[path]
      {
        NotYetPicked(p, picks, path, q, config);
      }
    }

    lemma CoversNone(inbox: Directory, visited: set<Bytes>, duns: Bytes, now: int, picks: seq<Pick>)
      ensures Covers([], inbox, {}, now, true)
      ensures Covers(picks, inbox, visited, now, true) && duns !in settings.partners ==>
        Covers(picks, inbox, visited + {duns}, now, true)
    {
      hide Stable;
    }

    /**
     Each folder visited is marked if unknown and unmarked if known; exactly the newly
     marked ones have been warned about, once.
     */
    ghost predicate Warnings(start: set<Bytes>, marked: set<Bytes>, warned: seq<Bytes>, visited: set<Bytes>) {
      && marked == start + (visited - settings.partners.Keys) - visited * settings.partners.Keys
      && (forall d :: d in warned <==> d in visited && d !in settings.partners && d !in start)
      && (forall i, k :: 0 <= i < k < |warned| ==> warned[i] != warned[k])
    }

    lemma WarningsNone(start: set<Bytes>)
      ensures Warnings(start, start, [], {})
    {
    }

    lemma WarningsMore(start: set<Bytes>, marked: set<Bytes>, warned: seq<Bytes>, visited: set<Bytes>, duns: Bytes)
      requires Warnings(start, marked, warned, visited) && duns !in visited
      ensures duns in settings.partners ==> Warnings(start, marked - {duns}, warned, visited + {duns})
      ensures duns !in settings.partners && duns in marked ==> Warnings(start, marked, warned, visited + {duns})
      ensures duns !in settings.partners && duns !in marked ==>
        Warnings(start, marked + {duns}, warned + [duns], visited + {duns})
    {
      if duns in settings.partners {
        assert marked - {duns} ==
          start + (visited + {duns} - settings.partners.Keys) - (visited + {duns}) * settings.partners.Keys;
      } else {
        assert marked + {duns} ==
          start + (visited + {duns} - settings.partners.Keys) - (visited + {duns}) * settings.partners.Keys;
        assert duns !in warned;
        if duns in marked {
          assert marked == marked + {duns};
        }
      }
    }

    /** A known partner's folder, after those visited before it. */
    method VisitFolder(
      duns: Bytes, now: int, world: World, ghost picks: seq<Pick>, ghost start: Progress, ghost visited: set<Bytes>,
      ghost before: seq<Tables>
    ) returns (alive: bool, ghost both: seq<Pick>, ghost tables: seq<Tables>)
      requires Ready(world) && duns in settings.partners && duns !in visited
      requires Picked(start, picks, Rules()) == Some(Now())
      requires Covers(picks, start.files.inbox, visited, now, true)
      requires Answered(picks, start.files.inbox, before, world)
      requires |before| == |picks| + 1 && before[|picks|] == Tabled()
      modifies files, attempts, refnums, tracker, jobs
      ensures Ready(world)
      ensures Answered(both, start.files.inbox, tables, world)
      ensures |tables| == |both| + 1 && tables[0] == before[0] && tables[|both|] == Tabled()
      ensures old(Smooth(world)) && AllMoved(picks) ==> Smooth(world) && alive && AllMoved(both)
      ensures Picked(start, both, Rules()) == Some(Now().(alive := alive))
      ensures Covers(both, start.files.inbox, visited + {duns}, now, alive)
    {
      hide *;
      ghost var here := Now();
      UnvisitedStays(start, picks, Rules(), here, visited, now, duns);
      NowIs();
      ghost var more, further;
      alive, more, further := PollFolder(duns, now, world);
      PickedMore(start, picks, here, more, Rules());
      CoversMore(picks, more, start.files.inbox, here.files.inbox, visited, duns, now, alive);
      PickedAreThere(more, here.files.inbox, now);
      AnsweredBoth(picks, more, start.files.inbox, here.files.inbox, before, further, world);
      both := picks + more;
      tables := before + further[1..];
    }

    /** Mark a folder as unknown, with a warning if it was not marked, or unmark it. */
    method Mark(
      duns: Bytes, warned: seq<Bytes>, ghost start: set<Bytes>, ghost visited: set<Bytes>
    ) returns (more: seq<Bytes>)
      requires Warnings(start, unknownWarned, warned, visited) && duns !in visited
      modifies this`unknownWarned
      ensures Warnings(start, unknownWarned, more, visited + {duns})
    {
      WarningsMore(start, unknownWarned, warned, visited, duns);
      hide *;
      more := warned;
      if duns in settings.partners {
        unknownWarned := unknownWarned - {duns};
      } else if duns !in unknownWarned {
        more := warned + [duns];
        unknownWarned := unknownWarned + {duns};
      }
    }

    /** A cycle: all folders were visited, or, if a failing rename ended the poller, some. */
    ghost predicate Polled(
      folders: set<Bytes>, now: int, alive: bool, picks: seq<Pick>, inbox: Directory,
      start: set<Bytes>, marked: set<Bytes>, warned: seq<Bytes>
    ) {
      exists visited ::
        && visited <= folders && (alive ==> visited == folders)
        && Covers(picks, inbox, visited, now, alive) && Warnings(start, marked, warned, visited)
    }

    lemma PolledBy(
      folders: set<Bytes>, rest: set<Bytes>, now: int, alive: bool, picks: seq<Pick>, inbox: Directory,
      start: set<Bytes>, marked: set<Bytes>, warned: seq<Bytes>)
      requires rest <= folders && (alive ==> rest == {})
      requires Covers(picks, inbox, folders - rest, now, alive) && Warnings(start, marked, warned, folders - rest)
      ensures Polled(folders, now, alive, picks, inbox, start, marked, warned)
    {
      hide Covers, Warnings;
      assert alive ==> folders - rest == folders;
    }

    /** A cycle under way: which folders it has visited, and what has come of that. */
    ghost predicate Polling(
      start: Progress, first: Tables, marked: set<Bytes>, picks: seq<Pick>, tables: seq<Tables>, warned: seq<Bytes>,
      visited: set<Bytes>, now: int, alive: bool, world: World
    )
      reads this, files, attempts, jobs, tracker, refnums
    {
      && Ready(world)
      && Picked(start, picks, Rules()) == Some(Now().(alive := alive))
      && Covers(picks, start.files.inbox, visited, now, alive)
      && Warnings(marked, unknownWarned, warned, visited)
      && Answered(picks, start.files.inbox, tables, world)
      && |tables| == |picks| + 1 && tables[0] == first && tables[|picks|] == Tabled()
      && (SmoothIn(start.files.inbox, first.rows, first.next, world) ==> Smooth(world) && alive && AllMoved(picks))
    }

    lemma PollingIs(
      start: Progress, first: Tables, marked: set<Bytes>, picks: seq<Pick>, tables: seq<Tables>, warned: seq<Bytes>,
      visited: set<Bytes>, now: int, alive: bool, world: World)
      ensures Polling(start, first, marked, picks, tables, warned, visited, now, alive, world) <==>
        && Ready(world)
        && Picked(start, picks, Rules()) == Some(Now().(alive := alive))
        && Covers(picks, start.files.inbox, visited, now, alive)
        && Warnings(marked, unknownWarned, warned, visited)
        && Answered(picks, start.files.inbox, tables, world)
        && |tables| == |picks| + 1 && tables[0] == first && tables[|picks|] == Tabled()
        && (SmoothIn(start.files.inbox, first.rows, first.next, world) ==> Smooth(world) && alive && AllMoved(picks))
    {
      hide Ready, Picked, Covers, Warnings, Answered, SmoothIn, Smooth, AllMoved, Now, Tabled, Rules;
    }

    lemma SmoothIs(world: World)
      ensures Smooth(world) <==> SmoothIn(files.inbox, tracker.rows, refnums.next, world)
      ensures Tabled() == Tables(tracker.rows, refnums.next)
    {
      hide SmoothIn;
    }

    /** The next folder of a cycle: mark or unmark it, and poll it if its partner is known. */
    method VisitNext(
      duns: Bytes, now: int, world: World, warned: seq<Bytes>, ghost start: Progress, ghost first: Tables,
      ghost marked: set<Bytes>, ghost picks: seq<Pick>, ghost tables: seq<Tables>, ghost visited: set<Bytes>
    ) returns (warned': seq<Bytes>, alive: bool, ghost picks': seq<Pick>, ghost tables': seq<Tables>)
      requires Polling(start, first, marked, picks, tables, warned, visited, now, true, world) && duns !in visited
      modifies this`unknownWarned, files, attempts, refnums, tracker, jobs
      ensures Polling(start, first, marked, picks', tables', warned', visited + {duns}, now, alive, world)
    {
      hide *;
      PollingIs(start, first, marked, picks, tables, warned, visited, now, true, world);
      NowIs();
      warned' := Mark(duns, warned, marked, visited);
      NowIs();
      alive, picks', tables' := true, picks, tables;
      if duns !in settings.partners {
        CoversNone(start.files.inbox, visited, duns, now, picks);
      } else {
        alive, picks', tables' := VisitFolder(duns, now, world, picks, start, visited, tables);
      }
      PollingIs(start, first, marked, picks', tables', warned', visited + {duns}, now, alive, world);
    }

    /**
     One poll cycle over the folders under the base directory. Each stable file of a known
     partner is picked exactly once, unless a failing rename ends the poller; files of
     unknown folders are not touched. An unknown folder is warned about when it is first
     seen unknown, and again only after it has been known in between.
     */
    method PollOnce(folders: set<Bytes>, now: int, world: World)
      returns (warned: seq<Bytes>, alive: bool, ghost picks: seq<Pick>, ghost tables: seq<Tables>)
      requires Ready(world)
      modifies this`unknownWarned, files, attempts, refnums, tracker, jobs
      ensures Ready(world)
      ensures Picked(old(Now()), picks, Rules()) == Some(Now().(alive := alive))
      ensures Polled(folders, now, alive, picks, old(files.inbox), old(unknownWarned), unknownWarned, warned)
      ensures JobsStay(old(jobs.jobs), jobs.jobs) && Delivered(picks, old(files.inbox), jobs.jobs, Rules())
      ensures Answered(picks, old(files.inbox), tables, world)
      ensures |tables| == |picks| + 1 && tables[0] == old(Tabled()) && tables[|picks|] == Tabled()
      ensures old(Smooth(world)) ==> Smooth(world) && alive && Served(old(files.inbox), Now().files, folders, now)
    {
      hide *;
      ghost var start, first, marked := Now(), Tabled(), unknownWarned;
      NowIs();
      SmoothIs(world);
      warned, alive, picks, tables := [], true, [], [first];
      PickedNone(start, Rules());
      AnsweredNone(start.files.inbox, first, world);
      CoversNone(start.files.inbox, {}, [], now, picks);
      WarningsNone(unknownWarned);
      var rest := folders;
      assert folders - rest == {};
      PollingIs(start, first, marked, picks, tables, warned, {}, now, alive, world);
      while rest != {} && alive
        invariant rest <= folders
        invariant Polling(start, first, marked, picks, tables, warned, folders - rest, now, alive, world)
        decreases |rest|
      {
        var duns := Least(rest);
        ghost var visited := folders - rest;
        rest := rest - {duns};
        assert folders - rest == visited + {duns};
        warned, alive, picks, tables :=
          VisitNext(duns, now, world, warned, start, first, marked, picks, tables, visited);
      }
      PollingIs(start, first, marked, picks, tables, warned, folders - rest, now, alive, world);
      PolledBy(folders, rest, now, alive, picks, start.files.inbox, marked, unknownWarned, warned);
      NowIs();
      PickedKeeps(start, picks, Rules());
      if old(Smooth(world)) {
        assert folders - rest == folders;
        AllProcessed(start, picks, Now(), folders, now);
      }
    }

    /** Every stable file of a known partner's folder has left the inbox and is in processed. */
    ghost predicate Served(inbox: Directory, after: Files, folders: set<Bytes>, now: int) {
      forall path ::
        Picks(inbox, path, now) && path.duns in folders && path.duns in settings.partners ==>
          path !in after.inbox && IsIn(after.processed, path.duns, inbox[path])
    }

    lemma AllProcessed(p: Progress, picks: seq<Pick>, q: Progress, folders: set<Bytes>, now: int)
      requires Picked(p, picks, Rules()) == Some(q) && AllMoved(picks)
      requires Covers(picks, p.files.inbox, folders, now, true)
      ensures Served(p.files.inbox, q.files, folders, now)
    {
      hide Stable, IsIn, Picked, AllMoved;
      MovedAreProcessed(p, picks, Rules());
    }

    lemma PicksIs(inbox: Directory, path: Path, now: int)
      ensures Picks(inbox, path, now) ==> path in inbox
    {
    }

    lemma NowIs()
      ensures Now() == Progress(Files(files.inbox, files.processed, files.error, attempts.counts), jobs.jobs, true)
      ensures Rules() == Config(settings.partners, settings.crypto, attempts.maxAttempts)
    {
    }
  }

  lemma NotYetPicked(p: Progress, picks: seq<Pick>, path: Path, q: Progress, config: Config)
    requires Picked(p, picks, config) == Some(q) && (forall i :: 0 <= i < |picks| ==> picks[i].path != path)
    ensures path in q.files.inbox <==> path in p.files.inbox
    ensures path in p.files.inbox ==> q.files.inbox[path] == p.files.inbox[path]
  {
    PickedKeeps(p, picks, config);
    hide Picked, Delivered, JobsStay;
  }

  lemma JobsStayTransitive(a: Jobs.JobTable, b: Jobs.JobTable, c: Jobs.JobTable)
    requires JobsStay(a, b) && JobsStay(b, c)
    ensures JobsStay(a, c)
  {
  }

  lemma AllDistinct(picks: seq<Pick>)
    ensures DistinctPaths(picks) <==> forall i, k :: 0 <= i < k < |picks| ==> picks[i].path != picks[k].path
  {
  }

  lemma ThatIsPicked(picks: seq<Pick>, i: nat, path: Path)
    requires i < |picks| && picks[i].path == path
    ensures IsPicked(picks, path)
  {
  }
}
