/** Handing a payload to the delivery queue (app/outbound/enqueue.py:12-80). */
module Enqueue {
  import opened Wrappers
  import opened Bytes
  import opened Jobs
  import opened Queue
  import opened QueueStretches
  import Messages
  import QueueInvariant
  import QueueRuns

  datatype Partner = Partner(name: Bytes, duns: Bytes, useRefnum: bool)

  /**
   gpg and sha-256 as oracles. Encrypting may raise; two encryptions of one payload
   differ in the session key, which `nonce` stands for.
   */
  datatype Crypto = Crypto(encrypt: (Bytes, Bytes, nat) -> Option<Bytes>, hash: Bytes -> Bytes)

  /** What the database does for one call: the keys it generates, and whether either insert raises. */
  datatype Db = Db(messageId: Messages.MessageId, jobId: JobId, message: Fault, job: Fault, now: Time)

  datatype EnqueueError = EncryptionFailed | MessageRefused | JobRefused

  /** The order a payload makes, if it can be encrypted. */
  function OrderFor(
    payload: Bytes, partner: Partner, refnum: Option<Bytes>, self: Bytes, crypto: Crypto, nonce: nat
  ): Option<Order> {
    match crypto.encrypt(payload, partner.name, nonce)
    case None => None
    case Some(ciphertext) =>
      Some(Order(partner.name, self, partner.duns, refnum, crypto.hash(ciphertext), ciphertext))
  }

  /** The job carries an encryption, to this partner, of the payload. */
  ghost predicate Carries(job: Job, payload: Bytes, partner: Partner, crypto: Crypto) {
    && job.partner == partner.name && job.toId == partner.duns
    && job.digest == crypto.hash(job.ciphertext)
    && exists nonce :: crypto.encrypt(payload, partner.name, nonce) == Some(job.ciphertext)
  }

  /** Both tables after a call, and its answer, for every failure. */
  predicate Enqueued(
    order: Option<Order>, db: Db, rows: Messages.Table, jobs: JobTable,
    rows': Messages.Table, jobs': JobTable, r: Result<JobId, EnqueueError>
  ) {
    if order.None? then r == Err(EncryptionFailed) && rows' == rows && jobs' == jobs
    else if db.message == RaisesBefore || Messages.Conflicts(rows, OrderRow(order.value)) then
      r == Err(MessageRefused) && rows' == rows && jobs' == jobs
    else
      && rows' == rows[db.messageId := OrderRow(order.value)]
      && if db.message == RaisesAfter then r == Err(MessageRefused) && jobs' == jobs
         else
           && r == (if db.job == Fine then Ok(db.jobId) else Err(JobRefused))
           && jobs' == if db.job == RaisesBefore then jobs
                       else jobs[db.jobId := OrderJob(order.value, db.messageId, db.now)]
  }

  /** A job was added and it carries the payload. */
  ghost predicate Added(jobs: JobTable, jobs': JobTable, j: JobId, payload: Bytes, partner: Partner, crypto: Crypto) {
    j !in jobs && j in jobs' && jobs' == jobs[j := jobs'[j]] && Carries(jobs'[j], payload, partner, crypto)
  }

  /** Who sends the job to whom, and under which refnum; and it has yet to be attempted. */
  predicate Addressed(job: Job, partner: Partner, refnum: Option<Bytes>, self: Bytes) {
    && job.partner == partner.name && job.fromId == self && job.toId == partner.duns && job.refnum == refnum
    && job.status == Queued && job.attemptCount == 0
  }

  /** The job's message: outbound, queued, with the same sender, addressee, refnum and digest. */
  predicate MessageShows(
    rows: Messages.Table, m: Messages.MessageId, job: Job, partner: Partner, refnum: Option<Bytes>, self: Bytes
  ) {
    && job.messageId == Some(m) && m in rows
    && var row := rows[m];
    && row.direction == Messages.Outbound && row.status == Messages.Queued
    && row.partner == partner.name && row.fromId == self && row.toId == partner.duns && row.refnum == refnum
    && row.digest == job.digest
  }

  /** No outbound message to the partner has this digest, or this refnum if there is one. */
  ghost predicate Unsent(rows: Messages.Table, partner: Bytes, digest: Bytes, refnum: Option<Bytes>) {
    forall m :: m in rows && rows[m].direction == Messages.Outbound && rows[m].partner == partner ==>
      rows[m].digest != digest && (refnum.Some? ==> rows[m].refnum != refnum)
  }

  /** Exactly when a call comes back: the payload can be encrypted, nothing raises, and no key clashes. */
  ghost predicate Succeeds(
    payload: Bytes, partner: Partner, refnum: Option<Bytes>, crypto: Crypto, nonce: nat, db: Db, rows: Messages.Table
  ) {
    && db.message == Fine && db.job == Fine
    && crypto.encrypt(payload, partner.name, nonce).Some?
    && Unsent(rows, partner.name, crypto.hash(crypto.encrypt(payload, partner.name, nonce).value), refnum)
  }

  lemma UnsentIs(rows: Messages.Table, row: Messages.Row)
    requires row.direction == Messages.Outbound
    ensures Messages.Conflicts(rows, row) <==> !Unsent(rows, row.partner, row.digest, row.refnum)
  {
    if !Unsent(rows, row.partner, row.digest, row.refnum) {
      var m :|
        && m in rows && rows[m].direction == Messages.Outbound && rows[m].partner == row.partner
        && (rows[m].digest == row.digest || (row.refnum.Some? && rows[m].refnum == row.refnum));
      assert Messages.SameKey(rows[m], row);
    }
  }

  /**
   Encrypt once, insert the message, insert the job that points at it. On success both
   rows exist and describe the same ciphertext. On failure there is at most a queued
   message that will never get a job, unless the job's insert raises after its commit:
   then the job is there and the caller does not know.
   */
  method EnqueueOutbound(
    payload: Bytes, partner: Partner, refnum: Option<Bytes>, self: Bytes, crypto: Crypto, nonce: nat, db: Db,
    tracker: Messages.MessageTracker, jobs: OutboundJobRepository
  ) returns (r: Result<JobId, EnqueueError>)
    requires db.messageId !in tracker.rows && db.jobId !in jobs.jobs && Messages.KeysUnique(tracker.rows)
    modifies tracker, jobs
    ensures Messages.KeysUnique(tracker.rows)
    ensures Enqueued(OrderFor(payload, partner, refnum, self, crypto, nonce), db,
                     old(tracker.rows), old(jobs.jobs), tracker.rows, jobs.jobs, r)
    ensures jobs.jobs == old(jobs.jobs) || Added(old(jobs.jobs), jobs.jobs, db.jobId, payload, partner, crypto)
    ensures r.Ok? ==>
      && r.value == db.jobId && Added(old(jobs.jobs), jobs.jobs, r.value, payload, partner, crypto)
      && Addressed(jobs.jobs[r.value], partner, refnum, self)
      && MessageShows(tracker.rows, db.messageId, jobs.jobs[r.value], partner, refnum, self)
      && tracker.rows == old(tracker.rows)[db.messageId := tracker.rows[db.messageId]]
      && crypto.encrypt(payload, partner.name, nonce) == Some(jobs.jobs[r.value].ciphertext)
      && jobs.jobs[r.value].digest == crypto.hash(jobs.jobs[r.value].ciphertext)
    ensures jobs.jobs != old(jobs.jobs) ==> Addressed(jobs.jobs[db.jobId], partner, refnum, self)
    ensures r.Ok? <==> Succeeds(payload, partner, refnum, crypto, nonce, db, old(tracker.rows))
  {
    var encrypted := crypto.encrypt(payload, partner.name, nonce);
    if encrypted.None? {
      return Err(EncryptionFailed);
    }
    var digest := crypto.hash(encrypted.value);
    if db.message == RaisesBefore {
      return Err(MessageRefused);
    }
    var row := Messages.Row(
      Messages.Outbound, partner.name, digest, self, partner.duns, refnum, Messages.Queued, None, None, None);
    UnsentIs(tracker.rows, row);
    hide Unsent, Messages.Conflicts;
    var created := tracker.Create(row, db.messageId);
    if !created || db.message == RaisesAfter {
      return Err(MessageRefused);
    }
    if db.job == RaisesBefore {
      return Err(JobRefused);
    }
    var job := Job(
      partner.name, self, partner.duns, refnum, digest, encrypted.value, Some(db.messageId), Queued, 0, db.now,
      None, None);
    jobs.Create(job, db.jobId, db.now);
    r := if db.job == Fine then Ok(db.jobId) else Err(JobRefused);
  }

  // ------------------------------------------------------------------
  // The protocol's steps for one call
  // ------------------------------------------------------------------

  function EnqueueSteps(order: Option<Order>, db: Db, rows: Messages.Table): seq<Step> {
    if order.None? || db.message == RaisesBefore || Messages.Conflicts(rows, OrderRow(order.value)) then []
    else
      [EnqueueMessage(db.messageId, order.value),
       if db.message == RaisesAfter || db.job == RaisesBefore then EnqueueCrash(db.messageId)
       else EnqueueJob(db.messageId, db.jobId)]
  }

  /** The step that ends the enqueuer's turn with the message. */
  predicate Ends(step: Step, m: Messages.MessageId) {
    match step
    case EnqueueJob(n, _) => n == m
    case EnqueueCrash(n) => n == m
    case _ => false
  }

  /**
   Whatever a call comes to, it is a stretch of protocol steps: none, or both inserts, or
   one and the enqueuer's crash.
   */
  lemma EnqueueFollowsProtocol(
    s: State, order: Option<Order>, db: Db, rows': Messages.Table, jobs': JobTable, r: Result<JobId, EnqueueError>,
    schedule: Schedule)
    requires Inv(s, schedule) && db.messageId !in s.messages && db.jobId !in s.jobs && db.now == s.now
    requires Enqueued(order, db, s.messages, s.jobs, rows', jobs', r)
    ensures var t := Perform(s, EnqueueSteps(order, db, s.messages), schedule);
      && t.Some? && t.value.messages == rows' && t.value.jobs == jobs'
      && t.value.pending == s.pending && t.value.workers == s.workers
  {
    hide *;
    StepsIs(order, db, s.messages);
    EnqueuedIs(order, db, s.messages, s.jobs, rows', jobs', r);
    if EnqueueSteps(order, db, s.messages) == [] {
      PerformNone(s, schedule);
    } else {
      var m, last := db.messageId, EnqueueSteps(order, db, s.messages)[1];
      InsertIs(s, m, order.value, schedule);
      var s1 := Apply(s, EnqueueMessage(m, order.value), schedule);
      EndIs(s1, last, m, schedule);
      PerformOne(s, EnqueueMessage(m, order.value), schedule);
      PerformOne(s1, last, schedule);
      PerformMore(s, [EnqueueMessage(m, order.value)], s1, [last], schedule);
      assert [EnqueueMessage(m, order.value)] + [last] == [EnqueueMessage(m, order.value), last];
      NotPending(s, m, order.value, schedule);
    }
  }

  /**
   Between the two inserts others may do anything: the message waits as it was inserted, and
   the second insert adds the very job that goes with it and leaves the messages alone.
   */
  lemma EnqueueInterleaved(
    s: State, order: Order, m: Messages.MessageId, others: seq<Step>, last: Step, schedule: Schedule)
    requires Inv(s, schedule) && Enabled(s, EnqueueMessage(m, order))
    requires var t := Perform(Apply(s, EnqueueMessage(m, order), schedule), others, schedule);
      t.Some? && (last.EnqueueJob? ==> last.j !in t.value.jobs)
    requires (forall i :: 0 <= i < |others| ==> !Ends(others[i], m)) && Ends(last, m)
    ensures
      var t := Perform(Apply(s, EnqueueMessage(m, order), schedule), others, schedule).value;
      var u := Perform(s, [EnqueueMessage(m, order)] + others + [last], schedule);
      && m in t.messages && t.messages[m] == OrderRow(order)
      && u.Some? && u.value.messages == t.messages && m !in u.value.pending
      && u.value.jobs == if last.EnqueueJob? then t.jobs[last.j := OrderJob(order, m, t.now)] else t.jobs
  {
    hide *;
    var first := EnqueueMessage(m, order);
    var s1 := Apply(s, first, schedule);
    InsertIs(s, m, order, schedule);
    QueueRuns.InvStep(s, first, schedule);
    MessageWaits(s1, others, m, order, schedule);
    var t := Perform(s1, others, schedule).value;
    PerformKeepsInv(s1, others, schedule);
    QueueRuns.InvParts(t, schedule);
    QueueInvariant.LinkIs(t);
    EndIs(t, last, m, schedule);
    PerformOne(s, first, schedule);
    PerformMore(s, [first], s1, others, schedule);
    PerformOne(t, last, schedule);
    PerformMore(s, [first] + others, t, [last], schedule);
  }

  /** No one but its enqueuer takes a message out of the pending ones. */
  lemma {:induction false} MessageWaits(
    s: State, steps: seq<Step>, m: Messages.MessageId, order: Order, schedule: Schedule)
    requires m in s.pending && s.pending[m] == order && Inv(s, schedule)
    requires Perform(s, steps, schedule).Some? && forall i :: 0 <= i < |steps| ==> !Ends(steps[i], m)
    ensures var t := Perform(s, steps, schedule).value; m in t.pending && t.pending[m] == order
    decreases |steps|
  {
    hide *;
    PerformUnfold(s, steps, schedule);
    if steps != [] {
      StepLetsWait(s, steps[0], m, schedule);
      QueueRuns.InvStep(s, steps[0], schedule);
      MessageWaits(Apply(s, steps[0], schedule), steps[1..], m, order, schedule);
    }
  }

  lemma StepLetsWait(s: State, step: Step, m: Messages.MessageId, schedule: Schedule)
    requires m in s.pending && Inv(s, schedule) && Enabled(s, step) && !Ends(step, m)
    ensures var t := Apply(s, step, schedule); m in t.pending && t.pending[m] == s.pending[m]
  {
    NotPendingIfNew(s, m, schedule);
    hide Inv, ConcludeJob, ConcludeMessage, ConclusionOf, ClaimAll, CloseRound, OpenRounds, BatchIds,
         OutboundUntouched, AfterConclusion, Bumped;
  }

  lemma NotPendingIfNew(s: State, m: Messages.MessageId, schedule: Schedule)
    requires Inv(s, schedule) && m in s.pending
    ensures m in s.messages
  {
    hide *;
    QueueRuns.InvParts(s, schedule);
    QueueInvariant.LinkIs(s);
  }

  lemma NotPending(s: State, m: Messages.MessageId, order: Order, schedule: Schedule)
    requires Inv(s, schedule) && m !in s.messages
    ensures m !in s.pending && s.pending[m := order] - {m} == s.pending
  {
    hide *;
    if m in s.pending {
      NotPendingIfNew(s, m, schedule);
    }
  }

  lemma InsertIs(s: State, m: Messages.MessageId, order: Order, schedule: Schedule)
    ensures Enabled(s, EnqueueMessage(m, order)) <==>
      m !in s.messages && !Messages.Conflicts(s.messages, OrderRow(order))
    ensures Enabled(s, EnqueueMessage(m, order)) ==>
      Apply(s, EnqueueMessage(m, order), schedule) ==
      s.(messages := s.messages[m := OrderRow(order)], pending := s.pending[m := order])
  {
    hide Messages.Conflicts;
  }

  lemma EndIs(s: State, last: Step, m: Messages.MessageId, schedule: Schedule)
    requires m in s.pending && Ends(last, m) && (last.EnqueueJob? ==> last.j !in s.jobs)
    ensures Enabled(s, last)
    ensures var t := Apply(s, last, schedule);
      && t.messages == s.messages && t.pending == s.pending - {m} && t.workers == s.workers
      && t.jobs == if last.EnqueueJob? then s.jobs[last.j := OrderJob(s.pending[m], m, s.now)] else s.jobs
  {
    hide OrderJob;
  }

  lemma StepsIs(order: Option<Order>, db: Db, rows: Messages.Table)
    ensures EnqueueSteps(order, db, rows) == [] <==>
      order.None? || db.message == RaisesBefore || Messages.Conflicts(rows, OrderRow(order.value))
    ensures EnqueueSteps(order, db, rows) != [] ==>
      var crashes := db.message == RaisesAfter || db.job == RaisesBefore;
      var last := if crashes then EnqueueCrash(db.messageId) else EnqueueJob(db.messageId, db.jobId);
      EnqueueSteps(order, db, rows) == [EnqueueMessage(db.messageId, order.value), last] && Ends(last, db.messageId)
  {
    hide Messages.Conflicts;
  }

  lemma EnqueuedIs(
    order: Option<Order>, db: Db, rows: Messages.Table, jobs: JobTable,
    rows': Messages.Table, jobs': JobTable, r: Result<JobId, EnqueueError>)
    requires Enqueued(order, db, rows, jobs, rows', jobs', r)
    ensures if order.None? || db.message == RaisesBefore || Messages.Conflicts(rows, OrderRow(order.value)) then
              rows' == rows && jobs' == jobs
            else
              && rows' == rows[db.messageId := OrderRow(order.value)]
              && jobs' == if db.message == RaisesAfter || db.job == RaisesBefore then jobs
                          else jobs[db.jobId := OrderJob(order.value, db.messageId, db.now)]
  {
    hide Messages.Conflicts, OrderRow, OrderJob;
  }
}
