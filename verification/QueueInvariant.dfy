/** Every step of the queue protocol keeps its invariant. */
module QueueInvariant {
  import opened Wrappers
  import opened Jobs
  import opened Queue
  import Messages

  // ------------------------------------------------------------------
  // Who holds what
  // ------------------------------------------------------------------

  lemma HoldingStep(s: State, step: Step, schedule: Schedule)
    requires HoldingInv(s) && Enabled(s, step)
    ensures HoldingInv(Apply(s, step, schedule))
  {
    match step
    case Lock(w, ids) => LockHolding(s, w, ids, schedule);
    case Commit(w) => CommitHolding(s, w, schedule);
    case Conclude(w, known, attempt) => ConcludeHolding(s, step, schedule);
    case _ => OtherHolding(s, step, schedule);
  }

  lemma OtherHolding(s: State, step: Step, schedule: Schedule)
    requires HoldingInv(s) && Enabled(s, step)
    requires !step.Lock? && !step.Commit? && !step.Conclude?
    ensures HoldingInv(Apply(s, step, schedule))
  {
    var t := Apply(s, step, schedule);
    forall w, i | Held(t, w, i)
      ensures Held(s, w, i) && t.workers[w].batch == s.workers[w].batch && ClaimMatches(t, w, i)
    {
      assert ClaimMatches(s, w, i);
    }
  }

  lemma LockHolding(s: State, w: WorkerId, ids: seq<JobId>, schedule: Schedule)
    requires HoldingInv(s) && Enabled(s, Lock(w, ids))
    ensures HoldingInv(Apply(s, Lock(w, ids), schedule))
  {
    var t := Apply(s, Lock(w, ids), schedule);
    forall v, i | Held(t, v, i) && v != w ensures Held(s, v, i) && t.workers[v].batch[i].id !in ids {
      assert ClaimMatches(s, v, i);
      assert Holds(s, v, s.workers[v].batch[i].id);
    }
    forall v, i | Held(t, v, i) ensures ClaimMatches(t, v, i) {
      if v != w {
        assert ClaimMatches(s, v, i);
      }
    }
  }

  lemma CommitHolding(s: State, w: WorkerId, schedule: Schedule)
    requires HoldingInv(s) && Enabled(s, Commit(w))
    ensures HoldingInv(Apply(s, Commit(w), schedule))
  {
    var t := Apply(s, Commit(w), schedule);
    forall v, i | Held(t, v, i)
      ensures Held(s, v, i) && t.workers[v].batch[i].id == s.workers[v].batch[i].id && ClaimMatches(t, v, i)
    {
      assert ClaimMatches(s, v, i);
      var j := s.workers[v].batch[i].id;
      if v == w {
        assert s.workers[w].batch[i] in s.workers[w].batch;
        assert j in BatchIds(s.workers[w].batch);
      } else {
        NotInBatch(s, w, v, i);
      }
    }
  }

  /** What one worker holds is in no other worker's batch. */
  lemma NotInBatch(s: State, w: WorkerId, v: WorkerId, i: int)
    requires Exclusive(s) && w in s.workers && v != w && Held(s, v, i)
    ensures s.workers[v].batch[i].id !in BatchIds(s.workers[w].batch)
  {
    var batch := s.workers[w].batch;
    forall c | c in batch ensures c.id != s.workers[v].batch[i].id {
      var k :| 0 <= k < |batch| && batch[k] == c;
      assert Held(s, w, k);
    }
  }

  lemma ConcludeHolding(s: State, step: Step, schedule: Schedule)
    requires HoldingInv(s) && Enabled(s, step) && step.Conclude?
    ensures HoldingInv(Apply(s, step, schedule))
  {
    var w := step.w;
    var t := Apply(s, step, schedule);
    assert Held(s, w, 0) && ClaimMatches(s, w, 0);
    forall v, i | Held(t, v, i)
      ensures var k := if v == w then i + 1 else i;
        Held(s, v, k) && t.workers[v].batch[i] == s.workers[v].batch[k] && ClaimMatches(t, v, i)
    {
      var k := if v == w then i + 1 else i;
      assert ClaimMatches(s, v, k);
    }
  }

  // ------------------------------------------------------------------
  // Attempt counts
  // ------------------------------------------------------------------

  lemma BoundsStep(s: State, step: Step, schedule: Schedule)
    requires HoldingInv(s) && BoundsInv(s, schedule) && Enabled(s, step)
    ensures BoundsInv(Apply(s, step, schedule), schedule)
  {
    if step.Commit? {
      CommitBounds(s, step.w, schedule);
    } else if step.Conclude? {
      ConcludeBounds(s, step, schedule);
    } else {
      hide HoldingInv, MaxAttempts, ConcludeMessage;
    }
  }

  lemma CommitBounds(s: State, w: WorkerId, schedule: Schedule)
    requires HoldingInv(s) && BoundsInv(s, schedule) && Enabled(s, Commit(w))
    ensures BoundsInv(Apply(s, Commit(w), schedule), schedule)
  {
    var t := Apply(s, Commit(w), schedule);
    forall j | j in t.jobs
      ensures WithinBounds(t.jobs[j], MaxAttempts(schedule))
        && (t.jobs[j].status == ExchangeFailure && j !in t.unknown ==> t.jobs[j].attemptCount == MaxAttempts(schedule))
    {
      CommittedRow(s, w, j);
      hide HoldingInv, OpenRounds, Bumped;
    }
  }

  lemma ConcludeBounds(s: State, step: Step, schedule: Schedule)
    requires HoldingInv(s) && BoundsInv(s, schedule) && Enabled(s, step) && step.Conclude?
    ensures BoundsInv(Apply(s, step, schedule), schedule)
  {
    HeldNow(s, step.w);
    hide HoldingInv, CloseRound, AfterConclusion;
  }

  /** A commit bumps exactly the locked rows, and those were queued. */
  lemma CommittedRow(s: State, w: WorkerId, j: JobId)
    requires HoldingInv(s) && Is(s, w, Locking) && j in s.jobs
    ensures j in BatchIds(s.workers[w].batch) ==> Due(s.jobs[j], s.now)
  {
    if j in BatchIds(s.workers[w].batch) {
      var c :| c in s.workers[w].batch && c.id == j;
      var i :| 0 <= i < |s.workers[w].batch| && s.workers[w].batch[i] == c;
      assert Held(s, w, i) && ClaimMatches(s, w, i);
    }
  }

  // ------------------------------------------------------------------
  // Jobs and messages
  // ------------------------------------------------------------------

  /** What no step changes in a job row: everything but its progress. */
  predicate SameOrigin(a: Job, b: Job) {
    a.(status := b.status, attemptCount := b.attemptCount, nextAttemptAt := b.nextAttemptAt,
       lastErrorCode := b.lastErrorCode, receipt := b.receipt) == b
  }

  lemma JobsKept(s: State, step: Step, schedule: Schedule)
    requires Enabled(s, step)
    ensures var t := Apply(s, step, schedule);
      && (forall j :: j in s.jobs ==> j in t.jobs && SameOrigin(s.jobs[j], t.jobs[j]))
      && (forall j :: j in t.jobs ==> j in s.jobs || (step.EnqueueJob? && j == step.j))
  {
  }

  /** The queue's job table after a step: a new row, claimed rows, one concluded row, or no change. */
  lemma JobsMoveBy(s: State, step: Step, schedule: Schedule)
    requires Enabled(s, step)
    ensures var jobs := Apply(s, step, schedule).jobs;
      match step
      case EnqueueJob(m, j) => j !in s.jobs && j in jobs && jobs == s.jobs[j := jobs[j]]
      case Commit(w) => w in s.workers && jobs == ClaimAll(s.jobs, BatchIds(s.workers[w].batch))
      case Conclude(w, known, attempt) =>
        w in s.workers && s.workers[w].batch != [] && jobs == ConcludeJob(
          s.jobs, s.workers[w].batch[0].id,
          ConclusionOf(s.workers[w].batch[0].job, known, attempt, schedule, s.now))
      case _ => jobs == s.jobs
  {
    hide ConclusionOf, ConcludeMessage, ConcludeJob, ClaimAll, CloseRound, OpenRounds,
         AfterConclusion, BatchIds, Bumped, OutboundUntouched;
  }

  /** Outbound rows keep their identity through every step, and only a message touch changes one. */
  lemma MessagesKept(s: State, step: Step, schedule: Schedule)
    requires Enabled(s, step) && LinkInv(s) && TouchInv(s)
    ensures var t := Apply(s, step, schedule);
      && (forall m :: m in s.messages && s.messages[m].direction == Messages.Outbound ==>
            m in t.messages && Messages.SameIdentity(s.messages[m], t.messages[m])
            && (t.messages[m] == s.messages[m] || (step.TouchMessage? && m == s.workers[step.w].mode.message)))
      && (forall m :: m in t.messages && t.messages[m].direction == Messages.Outbound ==>
            (m in s.messages && s.messages[m].direction == Messages.Outbound) || (step.EnqueueMessage? && m == step.m))
  {
    hide *;
    MessagesMoveBy(s, step, schedule);
    var t := Apply(s, step, schedule);
    match step
    case EnqueueMessage(m, order) => IdentityStays(s.messages, t.messages);
    case TouchMessage(w) =>
      ConclusionKeepsIdentity(s.messages, s.workers[w].mode.message, s.workers[w].mode.conclusion);
    case InboundActivity(rows) => UntouchedStays(s.messages, rows);
    case _ => IdentityStays(s.messages, t.messages);
  }

  /** How each step moves the messages table. */
  lemma MessagesMoveBy(s: State, step: Step, schedule: Schedule)
    requires Enabled(s, step)
    ensures var rows := Apply(s, step, schedule).messages;
      match step
      case EnqueueMessage(m, order) => m !in s.messages && rows == s.messages[m := OrderRow(order)]
      case TouchMessage(w) =>
        && w in s.workers && s.workers[w].mode.Touching?
        && rows == ConcludeMessage(s.messages, s.workers[w].mode.message, s.workers[w].mode.conclusion)
      case InboundActivity(rows') => rows == rows' && OutboundUntouched(s.messages, rows')
      case _ => rows == s.messages
  {
    hide ConclusionOf, ConcludeMessage, ConcludeJob, ClaimAll, CloseRound, OpenRounds, AfterConclusion, BatchIds,
         Bumped, OutboundUntouched, OrderRow;
  }

  lemma IdentityStays(rows: Messages.Table, rows': Messages.Table)
    ensures (forall m :: m in rows ==> m in rows' && rows'[m] == rows[m]) ==>
      forall m :: m in rows ==> m in rows' && Messages.SameIdentity(rows[m], rows'[m])
  {
  }

  lemma ConclusionKeepsIdentity(rows: Messages.Table, id: Messages.MessageId, c: Conclusion)
    ensures var rows' := ConcludeMessage(rows, id, c);
      && rows'.Keys == rows.Keys
      && forall m :: m in rows ==>
        && Messages.SameIdentity(rows[m], rows'[m]) && rows'[m].direction == rows[m].direction
        && (m != id ==> rows'[m] == rows[m])
  {
  }

  lemma UntouchedStays(rows: Messages.Table, rows': Messages.Table)
    requires OutboundUntouched(rows, rows')
    ensures forall m :: m in rows && rows[m].direction == Messages.Outbound ==>
      m in rows' && rows'[m] == rows[m] && Messages.SameIdentity(rows[m], rows'[m])
    ensures forall m :: m in rows' && rows'[m].direction == Messages.Outbound ==>
      m in rows && rows[m].direction == Messages.Outbound
  {
  }

  lemma PendingKept(s: State, step: Step, schedule: Schedule)
    requires Enabled(s, step)
    ensures var t := Apply(s, step, schedule);
      && (forall m :: m in t.pending ==>
            if step.EnqueueMessage? && m == step.m
            then
              && t.pending[m] == step.order && m !in s.messages && m in t.messages
              && t.messages[m] == OrderRow(step.order)
            else m in s.pending && t.pending[m] == s.pending[m])
      && (step.EnqueueJob? ==>
            && step.m in s.pending && step.m !in t.pending
            && t.jobs[step.j] == OrderJob(s.pending[step.m], step.m, s.now)
            && t.messages == s.messages)
  {
    hide ConclusionOf, ConcludeJob, ClaimAll, ConcludeMessage;
  }

  lemma LinkIs(s: State)
    ensures LinkInv(s) <==>
      && (forall j :: j in s.jobs ==> s.jobs[j].messageId.Some? && Linked(s, j, s.jobs[j].messageId.value))
      && (forall j, j' :: j in s.jobs && j' in s.jobs && s.jobs[j].messageId == s.jobs[j'].messageId ==> j == j')
      && (forall m :: m in s.pending ==> m in s.messages && s.messages[m] == OrderRow(s.pending[m]) && !HasJob(s, m))
  {
    hide Linked, HasJob, OrderRow;
  }

  lemma HasJobIs(s: State, m: Messages.MessageId)
    ensures HasJob(s, m) <==> exists j :: j in s.jobs && s.jobs[j].messageId == Some(m)
  {
  }

  /** A linked pair whose rows keep their origin and identity stays linked. */
  lemma LinkedStays(s: State, t: State, j: JobId, m: Messages.MessageId)
    requires Linked(s, j, m) && j in t.jobs && SameOrigin(s.jobs[j], t.jobs[j])
    requires m in t.messages && Messages.SameIdentity(s.messages[m], t.messages[m]) && m !in t.pending
    ensures Linked(t, j, m)
  {
  }

  lemma LinkedExists(s: State, j: JobId, m: Messages.MessageId)
    requires Linked(s, j, m)
    ensures j in s.jobs && m in s.messages && s.messages[m].direction == Messages.Outbound && m !in s.pending
  {
  }

  lemma SameOriginKeepsMessage(a: Job, b: Job)
    requires SameOrigin(a, b)
    ensures a.messageId == b.messageId
  {
  }

  lemma LinkStep(s: State, step: Step, schedule: Schedule)
    requires LinkInv(s) && TouchInv(s) && Enabled(s, step)
    ensures LinkInv(Apply(s, step, schedule))
  {
    hide *;
    JobsKept(s, step, schedule);
    LinkIs(s);
    var t := Apply(s, step, schedule);
    LinkIs(t);
    forall j | j in t.jobs ensures t.jobs[j].messageId.Some? && Linked(t, j, t.jobs[j].messageId.value) {
      LinkOfJob(s, step, schedule, j);
    }
    forall m | m in t.pending ensures m in t.messages && t.messages[m] == OrderRow(t.pending[m]) && !HasJob(t, m) {
      PendingStays(s, step, schedule, m);
    }
    forall j, k | j in t.jobs && k in t.jobs && t.jobs[j].messageId == t.jobs[k].messageId ensures j == k {
      LinkIsUnique(s, step, schedule, j, k);
    }
  }

  lemma LinkOfJob(s: State, step: Step, schedule: Schedule, j: JobId)
    requires LinkInv(s) && TouchInv(s) && Enabled(s, step) && j in Apply(s, step, schedule).jobs
    ensures var t := Apply(s, step, schedule); t.jobs[j].messageId.Some? && Linked(t, j, t.jobs[j].messageId.value)
  {
    hide *;
    JobsKept(s, step, schedule);
    MessagesKept(s, step, schedule);
    PendingKept(s, step, schedule);
    LinkIs(s);
    var t := Apply(s, step, schedule);
    if j in s.jobs {
      var m := s.jobs[j].messageId.value;
      SameOriginKeepsMessage(s.jobs[j], t.jobs[j]);
      LinkedExists(s, j, m);
      LinkedStays(s, t, j, m);
    } else {
      NewJobLinked(s.pending[step.m], step.m, s.now, t, j);
    }
  }

  lemma NewJobLinked(o: Order, m: Messages.MessageId, now: Time, t: State, j: JobId)
    requires j in t.jobs && t.jobs[j] == OrderJob(o, m, now) && m in t.messages && t.messages[m] == OrderRow(o)
    requires m !in t.pending
    ensures t.jobs[j].messageId == Some(m) && Linked(t, j, m)
  {
  }

  lemma LinkIsUnique(s: State, step: Step, schedule: Schedule, j: JobId, k: JobId)
    requires LinkInv(s) && Enabled(s, step)
    requires var t := Apply(s, step, schedule); j in t.jobs && k in t.jobs && t.jobs[j].messageId == t.jobs[k].messageId
    ensures j == k
  {
    hide *;
    JobsKept(s, step, schedule);
    PendingKept(s, step, schedule);
    LinkIs(s);
    var t := Apply(s, step, schedule);
    if j in s.jobs {
      SameOriginKeepsMessage(s.jobs[j], t.jobs[j]);
    }
    if k in s.jobs {
      SameOriginKeepsMessage(s.jobs[k], t.jobs[k]);
    }
    if step.EnqueueJob? {
      HasJobIs(s, step.m);
      NewJobsMessage(s.pending[step.m], step.m, s.now);
    }
  }

  lemma NewJobsMessage(o: Order, m: Messages.MessageId, now: Time)
    ensures OrderJob(o, m, now).messageId == Some(m)
  {
  }

  lemma PendingStays(s: State, step: Step, schedule: Schedule, m: Messages.MessageId)
    requires LinkInv(s) && TouchInv(s) && Enabled(s, step)
    requires m in Apply(s, step, schedule).pending
    ensures var t := Apply(s, step, schedule);
      m in t.messages && t.messages[m] == OrderRow(t.pending[m]) && !HasJob(t, m)
  {
    hide *;
    JobsKept(s, step, schedule);
    MessagesKept(s, step, schedule);
    PendingKept(s, step, schedule);
    LinkIs(s);
    var t := Apply(s, step, schedule);
    HasJobIs(s, m);
    HasJobIs(t, m);
    forall j | j in t.jobs ensures t.jobs[j].messageId != Some(m) {
      if j in s.jobs {
        SameOriginKeepsMessage(s.jobs[j], t.jobs[j]);
        LinkedExists(s, j, s.jobs[j].messageId.value);
      } else {
        NewJobsMessage(s.pending[step.m], step.m, s.now);
      }
    }
    if !(step.EnqueueMessage? && step.m == m) {
      OrderRowIs(s.pending[m]);
      if step.TouchMessage? {
        TouchedMessageLinked(s, step, m);
      }
    }
  }

  lemma OrderRowIs(o: Order)
    ensures OrderRow(o).direction == Messages.Outbound
  {
  }

  lemma TouchedMessageLinked(s: State, step: Step, m: Messages.MessageId)
    requires LinkInv(s) && TouchInv(s) && Enabled(s, step) && step.TouchMessage? && m in s.pending
    ensures s.workers[step.w].mode.message != m
  {
    var mode := s.workers[step.w].mode;
    assert Linked(s, mode.job, s.jobs[mode.job].messageId.value);
  }

  lemma TouchStep(s: State, step: Step, schedule: Schedule)
    requires HoldingInv(s) && LinkInv(s) && TouchInv(s) && Enabled(s, step)
    ensures TouchInv(Apply(s, step, schedule))
  {
    match step
    case Conclude(w, known, attempt) => ConcludeTouch(s, step, schedule);
    case Crash(w) => CrashTouch(s, w, schedule);
    case _ => OtherTouch(s, step, schedule);
  }

  lemma OtherTouch(s: State, step: Step, schedule: Schedule)
    requires HoldingInv(s) && TouchInv(s) && Enabled(s, step)
    requires !step.Conclude? && !step.Crash?
    ensures TouchInv(Apply(s, step, schedule))
  {
    TerminalKept(s, step, schedule);
    JobsKept(s, step, schedule);
    OtherWorkers(s, step, schedule);
    hide Apply, Enabled, HoldingInv;
    var t := Apply(s, step, schedule);
    forall v, j | TouchingJob(t, v, j) ensures TouchingJob(s, v, j) {}
  }

  lemma OtherWorkers(s: State, step: Step, schedule: Schedule)
    requires Enabled(s, step) && !step.Conclude? && !step.Crash?
    ensures var t := Apply(s, step, schedule);
      && t.lost == s.lost
      && (forall v :: v in t.workers && t.workers[v].mode.Touching? ==>
            v in s.workers && s.workers[v].mode == t.workers[v].mode)
      && (!step.TouchMessage? ==>
            forall v :: v in s.workers && s.workers[v].mode.Touching? ==>
              v in t.workers && t.workers[v].mode == s.workers[v].mode)
  {
    hide ConcludeMessage, ClaimAll;
  }

  /** A terminal job's row never changes again, though no UPDATE checks for it. */
  lemma TerminalKept(s: State, step: Step, schedule: Schedule)
    requires HoldingInv(s) && Enabled(s, step)
    ensures forall j :: j in s.jobs && Terminal(s.jobs[j].status) ==>
      j in Apply(s, step, schedule).jobs && Apply(s, step, schedule).jobs[j] == s.jobs[j]
  {
    hide ConcludeMessage;
    match step
    case Conclude(w, known, attempt) => assert Held(s, w, 0) && ClaimMatches(s, w, 0);
    case Commit(w) =>
      forall j | j in s.jobs && Terminal(s.jobs[j].status) ensures j !in BatchIds(s.workers[w].batch) {
        CommittedRow(s, w, j);
      }
    case _ =>
  }

  lemma CrashTouch(s: State, w: WorkerId, schedule: Schedule)
    requires TouchInv(s) && Enabled(s, Crash(w))
    ensures TouchInv(Apply(s, Crash(w), schedule))
  {
    var t := Apply(s, Crash(w), schedule);
    forall v, j | TouchingJob(t, v, j) ensures TouchingJob(s, v, j) && v != w {}
    if s.workers[w].mode.Touching? {
      assert TouchingJob(s, w, s.workers[w].mode.job);
      forall v | v in t.workers && t.workers[v].mode.Touching? ensures t.workers[v].mode.job != s.workers[w].mode.job {
        assert TouchingJob(s, v, t.workers[v].mode.job);
      }
    }
  }

  lemma TouchIs(s: State)
    ensures TouchInv(s) <==>
      && (forall w :: w in s.workers && s.workers[w].mode.Touching? ==> TouchFits(s, w))
      && (forall w, w' :: w in s.workers && w' in s.workers && SameTouch(s.workers[w], s.workers[w']) ==> w == w')
      && (forall j :: j in s.lost ==> j in s.jobs && Terminal(s.jobs[j].status))
  {
    hide Terminal, MessageStatusFor, MessageStatusOf;
    if forall w, w', j :: TouchingJob(s, w, j) && TouchingJob(s, w', j) ==> w == w' {
      forall w, w' | w in s.workers && w' in s.workers && SameTouch(s.workers[w], s.workers[w']) ensures w == w' {
        assert TouchingJob(s, w, s.workers[w].mode.job) && TouchingJob(s, w', s.workers[w].mode.job);
      }
    }
  }

  predicate SameTouch(a: Worker, b: Worker) {
    a.mode.Touching? && b.mode.Touching? && a.mode.job == b.mode.job
  }

  predicate TouchFits(s: State, w: WorkerId)
    requires w in s.workers && s.workers[w].mode.Touching?
  {
    var mode := s.workers[w].mode;
    && mode.job in s.jobs && mode.job !in s.lost
    && s.jobs[mode.job].messageId == Some(mode.message)
    && Terminal(s.jobs[mode.job].status)
    && MessageStatusOf(mode.conclusion) == Some(MessageStatusFor(s.jobs[mode.job].status))
  }

  /** The row a conclusion meets: in progress, and with the message the claim remembers. */
  lemma HeldNow(s: State, w: WorkerId)
    requires HoldingInv(s) && Is(s, w, Working) && s.workers[w].batch != []
    ensures var claim := s.workers[w].batch[0];
      && claim.id in s.jobs && s.jobs[claim.id] == claim.job.(status := InProgress)
  {
    assert Held(s, w, 0) && ClaimMatches(s, w, 0);
    hide Exclusive;
  }

  /** What a conclusion changes. */
  lemma ConcludeMoves(s: State, w: WorkerId, known: bool, attempt: Attempt, schedule: Schedule)
    requires Enabled(s, Conclude(w, known, attempt))
    ensures w in s.workers && Is(s, w, Working) && s.workers[w].batch != []
    ensures var t, claim := Apply(s, Conclude(w, known, attempt), schedule), s.workers[w].batch[0];
      && t.workers.Keys == s.workers.Keys && (forall v :: v in s.workers && v != w ==> t.workers[v] == s.workers[v])
      && t.jobs.Keys == s.jobs.Keys && (forall j :: j in s.jobs && j != claim.id ==> t.jobs[j] == s.jobs[j])
      && (forall j :: j in s.lost ==> j in t.lost) && (forall j :: j in t.lost ==> j in s.lost || j == claim.id)
      && t.messages == s.messages && t.pending == s.pending
      && (claim.id in s.jobs ==>
            t.jobs[claim.id] == Concluded(s.jobs[claim.id], ConclusionOf(claim.job, known, attempt, schedule, s.now)))
  {
    hide ConclusionOf, AfterConclusion, CloseRound;
  }

  lemma ConcludeTouch(s: State, step: Step, schedule: Schedule)
    requires HoldingInv(s) && LinkInv(s) && TouchInv(s) && Enabled(s, step) && step.Conclude?
    ensures TouchInv(Apply(s, step, schedule))
  {
    hide *;
    var w, t := step.w, Apply(s, step, schedule);
    ConcludeMoves(s, w, step.partnerKnown, step.attempt, schedule);
    HeldNow(s, w);
    var claim := s.workers[w].batch[0];
    TouchIs(s);
    TouchIs(t);
    InProgressIsNotTerminal();
    ConcludedMode(s, step, schedule);
    forall v | v in t.workers && t.workers[v].mode.Touching? ensures TouchFits(t, v) {
      if v == w {
        TouchFitsIs(t, w);
      } else {
        TouchFitsIs(s, v);
        TouchFitsIs(t, v);
      }
    }
    forall v, u | v in t.workers && u in t.workers && SameTouch(t.workers[v], t.workers[u]) ensures v == u {
      SameTouchIs(t.workers[v], t.workers[u]);
      if v != w {
        TouchFitsIs(s, v);
      }
      if u != w {
        TouchFitsIs(s, u);
      }
    }
  }

  lemma SameTouchIs(a: Worker, b: Worker)
    ensures SameTouch(a, b) <==> a.mode.Touching? && b.mode.Touching? && a.mode.job == b.mode.job
  {
  }

  lemma TouchFitsIs(s: State, w: WorkerId)
    requires w in s.workers && s.workers[w].mode.Touching?
    ensures TouchFits(s, w) <==>
      var mode := s.workers[w].mode;
      && mode.job in s.jobs && mode.job !in s.lost
      && s.jobs[mode.job].messageId == Some(mode.message)
      && Terminal(s.jobs[mode.job].status)
      && MessageStatusOf(mode.conclusion) == Some(MessageStatusFor(s.jobs[mode.job].status))
  {
    hide Terminal, MessageStatusOf, MessageStatusFor;
  }

  lemma InProgressIsNotTerminal()
    ensures !Terminal(InProgress)
  {
  }

  lemma ConcludedMode(s: State, step: Step, schedule: Schedule)
    requires Enabled(s, step) && step.Conclude? && s.workers[step.w].batch[0].id in s.jobs
    requires s.jobs[s.workers[step.w].batch[0].id].messageId == s.workers[step.w].batch[0].job.messageId
    requires s.workers[step.w].batch[0].id !in s.lost
    ensures var t := Apply(s, step, schedule);
      var claim := s.workers[step.w].batch[0];
      && (t.workers[step.w].mode.Touching? ==>
            var mode := t.workers[step.w].mode;
            && mode.job == claim.id && t.jobs[claim.id].messageId == Some(mode.message)
            && Terminal(t.jobs[claim.id].status) && claim.id !in t.lost
            && MessageStatusOf(mode.conclusion) == Some(MessageStatusFor(t.jobs[claim.id].status)))
      && (forall j :: j in t.lost ==> j in s.lost || (j == claim.id && Terminal(t.jobs[j].status)))
  {
  }

  /** A step that leaves a job's row, its message's row and its bookkeeping alone leaves its message in step. */
  lemma TouchedSame(s: State, t: State, j: JobId)
    requires j in s.jobs && j in t.jobs
    requires Terminal(t.jobs[j].status) <==> Terminal(s.jobs[j].status)
    requires j in t.lost <==> j in s.lost
    requires forall w :: TouchingJob(t, w, j) <==> TouchingJob(s, w, j)
    ensures Touched(t, j) <==> Touched(s, j)
  {
  }

  lemma StatusStep(s: State, step: Step, schedule: Schedule)
    requires HoldingInv(s) && LinkInv(s) && TouchInv(s) && StatusInv(s) && Enabled(s, step)
    requires LinkInv(Apply(s, step, schedule))
    ensures StatusInv(Apply(s, step, schedule))
  {
    var t := Apply(s, step, schedule);
    forall j | j in t.jobs
      ensures t.messages[t.jobs[j].messageId.value].status ==
              if Touched(t, j) then MessageStatusFor(t.jobs[j].status) else Messages.Queued
    {
      assert Linked(t, j, t.jobs[j].messageId.value);
      JobStatusStep(s, step, schedule, j);
    }
    forall m |
      m in t.messages && t.messages[m].direction == Messages.Outbound && t.messages[m].status != Messages.Queued
      ensures HasJob(t, m)
    {
      MessageHasJob(s, step, schedule, m);
    }
  }

  lemma MessageHasJob(s: State, step: Step, schedule: Schedule, m: Messages.MessageId)
    requires LinkInv(s) && TouchInv(s) && StatusInv(s) && Enabled(s, step)
    requires var t := Apply(s, step, schedule);
      m in t.messages && t.messages[m].direction == Messages.Outbound && t.messages[m].status != Messages.Queued
    ensures HasJob(Apply(s, step, schedule), m)
  {
    JobsKept(s, step, schedule);
    MessagesKept(s, step, schedule);
    NewMessageQueued(s, step, schedule);
    TouchedHasJob(s, step);
    hide Apply, Enabled, TouchInv, LinkInv;
    var t := Apply(s, step, schedule);
    assert HasJob(s, m);
    var j :| j in s.jobs && s.jobs[j].messageId == Some(m);
    assert t.jobs[j].messageId == Some(m);
  }

  lemma NewMessageQueued(s: State, step: Step, schedule: Schedule)
    requires Enabled(s, step)
    ensures step.EnqueueMessage? ==> Apply(s, step, schedule).messages[step.m].status == Messages.Queued
  {
  }

  lemma TouchedHasJob(s: State, step: Step)
    requires TouchInv(s) && Enabled(s, step)
    ensures step.TouchMessage? ==> HasJob(s, s.workers[step.w].mode.message)
  {
  }

  ghost predicate InStep(s: State, j: JobId) {
    j in s.jobs && s.jobs[j].messageId.Some? && s.jobs[j].messageId.value in s.messages &&
    s.messages[s.jobs[j].messageId.value].status ==
      if Touched(s, j) then MessageStatusFor(s.jobs[j].status) else Messages.Queued
  }

  lemma InStepFrom(s: State, j: JobId)
    requires LinkInv(s) && StatusInv(s) && j in s.jobs
    ensures InStep(s, j) && Linked(s, j, s.jobs[j].messageId.value)
  {
  }

  lemma JobStatusStep(s: State, step: Step, schedule: Schedule, j: JobId)
    requires HoldingInv(s) && LinkInv(s) && TouchInv(s) && StatusInv(s) && Enabled(s, step)
    requires j in Apply(s, step, schedule).jobs
    ensures InStep(Apply(s, step, schedule), j)
  {
    JobsKept(s, step, schedule);
    hide *;
    if j !in s.jobs {
      NewJobInStep(s, step, schedule);
    } else {
      OldJobStatus(s, step, schedule, j);
    }
  }

  lemma OldJobStatus(s: State, step: Step, schedule: Schedule, j: JobId)
    requires HoldingInv(s) && LinkInv(s) && TouchInv(s) && StatusInv(s) && Enabled(s, step) && j in s.jobs
    ensures InStep(Apply(s, step, schedule), j)
  {
    hide *;
    InStepFrom(s, j);
    match step
    case Conclude(w, known, attempt) => ConcludeStatus(s, step, schedule, j);
    case TouchMessage(w) => MessageTouchStatus(s, w, schedule, j);
    case Crash(w) => CrashStatus(s, w, schedule, j);
    case _ => OtherStatus(s, step, schedule, j);
  }

  lemma NewJobInStep(s: State, step: Step, schedule: Schedule)
    requires LinkInv(s) && Enabled(s, step) && step.EnqueueJob?
    ensures InStep(Apply(s, step, schedule), step.j)
  {
    var t := Apply(s, step, schedule);
    assert t.jobs[step.j] == OrderJob(s.pending[step.m], step.m, s.now);
    assert !Touched(t, step.j);
  }

  lemma CrashStatus(s: State, w: WorkerId, schedule: Schedule, j: JobId)
    requires Enabled(s, Crash(w)) && InStep(s, j)
    ensures InStep(Apply(s, Crash(w), schedule), j)
  {
    var t := Apply(s, Crash(w), schedule);
    if !TouchingJob(s, w, j) {
      assert forall v :: TouchingJob(t, v, j) <==> TouchingJob(s, v, j);
      TouchedSame(s, t, j);
    } else {
      assert !Touched(s, j);
    }
  }

  lemma OtherStatus(s: State, step: Step, schedule: Schedule, j: JobId)
    requires HoldingInv(s) && LinkInv(s) && TouchInv(s) && Enabled(s, step)
    requires !step.Conclude? && !step.TouchMessage? && !step.Crash?
    requires InStep(s, j) && Linked(s, j, s.jobs[j].messageId.value)
    ensures InStep(Apply(s, step, schedule), j)
  {
    JobsKept(s, step, schedule);
    MessagesKept(s, step, schedule);
    TerminalKept(s, step, schedule);
    OtherWorkers(s, step, schedule);
    NotConcluded(s, step, schedule, j);
    hide Apply, Enabled, HoldingInv, LinkInv, TouchInv;
    var t := Apply(s, step, schedule);
    assert forall v :: TouchingJob(t, v, j) <==> TouchingJob(s, v, j);
    TouchedSame(s, t, j);
  }

  lemma NotConcluded(s: State, step: Step, schedule: Schedule, j: JobId)
    requires Enabled(s, step) && !step.Conclude? && j in s.jobs
    ensures j in Apply(s, step, schedule).jobs
    ensures Terminal(Apply(s, step, schedule).jobs[j].status) ==> Terminal(s.jobs[j].status)
  {
    hide ConcludeMessage;
  }

  /** A concluded job's message is still to be touched, or will never be. */
  lemma ConcludedNotTouched(s: State, w: WorkerId, known: bool, attempt: Attempt, schedule: Schedule)
    requires HoldingInv(s) && Enabled(s, Conclude(w, known, attempt))
    ensures var t, claim := Apply(s, Conclude(w, known, attempt), schedule), s.workers[w].batch[0];
      && claim.id in t.jobs
      && (claim.job.messageId.Some? ==> !Touched(t, claim.id))
      && !s.workers[w].mode.Touching?
      && (t.workers[w].mode.Touching? ==> t.workers[w].mode.job == claim.id)
  {
    HeldNow(s, w);
    var t, claim := Apply(s, Conclude(w, known, attempt), schedule), s.workers[w].batch[0];
    hide HoldingInv, CloseRound, FailureConclusion;
    if Terminal(t.jobs[claim.id].status) && known && claim.job.messageId.Some? {
      assert TouchingJob(t, w, claim.id);
    }
  }

  lemma ConcludeStatus(s: State, step: Step, schedule: Schedule, j: JobId)
    requires HoldingInv(s) && LinkInv(s) && Enabled(s, step) && step.Conclude?
    requires InStep(s, j) && Linked(s, j, s.jobs[j].messageId.value)
    ensures InStep(Apply(s, step, schedule), j)
  {
    hide *;
    var w, t := step.w, Apply(s, step, schedule);
    ConcludeMoves(s, w, step.partnerKnown, step.attempt, schedule);
    ConcludedNotTouched(s, w, step.partnerKnown, step.attempt, schedule);
    HeldNow(s, w);
    var claim := s.workers[w].batch[0];
    InStepIs(s, j);
    InStepIs(t, j);
    if j == claim.id {
      InProgressIsNotTerminal();
      TouchedIsTerminal(s, j);
      ConcludedMessage(s.jobs[j], ConclusionOf(claim.job, step.partnerKnown, step.attempt, schedule, s.now));
    } else {
      forall v ensures TouchingJob(t, v, j) <==> TouchingJob(s, v, j) {
        TouchingIs(s, v, j);
        TouchingIs(t, v, j);
      }
      TouchedSame(s, t, j);
    }
  }

  lemma TouchingIs(s: State, w: WorkerId, j: JobId)
    ensures TouchingJob(s, w, j) <==> w in s.workers && s.workers[w].mode.Touching? && s.workers[w].mode.job == j
  {
  }

  lemma InStepIs(s: State, j: JobId)
    ensures InStep(s, j) <==>
      && j in s.jobs && s.jobs[j].messageId.Some? && s.jobs[j].messageId.value in s.messages
      && s.messages[s.jobs[j].messageId.value].status ==
         if Touched(s, j) then MessageStatusFor(s.jobs[j].status) else Messages.Queued
  {
    hide Touched, MessageStatusFor;
  }

  lemma TouchedIsTerminal(s: State, j: JobId)
    requires j in s.jobs
    ensures Touched(s, j) ==> Terminal(s.jobs[j].status)
  {
    hide Terminal;
  }

  lemma ConcludedMessage(job: Job, c: Conclusion)
    ensures Concluded(job, c).messageId == job.messageId
  {
  }

  lemma MessageTouchStatus(s: State, w: WorkerId, schedule: Schedule, j: JobId)
    requires LinkInv(s) && TouchInv(s) && Enabled(s, TouchMessage(w))
    requires InStep(s, j) && Linked(s, j, s.jobs[j].messageId.value)
    ensures InStep(Apply(s, TouchMessage(w), schedule), j)
  {
    hide ConclusionOf, ConcludeJob, ClaimAll, AfterConclusion, CloseRound, OpenRounds, Bumped, BatchIds,
         OutboundUntouched, HasJob, OrderRow, OrderJob;
    var t := Apply(s, TouchMessage(w), schedule);
    var mode := s.workers[w].mode;
    assert TouchingJob(s, w, mode.job);
    if j == mode.job {
      forall v ensures !TouchingJob(t, v, j) {
        if v != w {
          assert TouchingJob(t, v, j) ==> TouchingJob(s, v, j);
        }
      }
      assert Touched(t, j);
    } else {
      assert Linked(s, mode.job, mode.message);
      assert forall v :: TouchingJob(t, v, j) <==> TouchingJob(s, v, j);
      TouchedSame(s, t, j);
    }
  }

  // ------------------------------------------------------------------
  // Time
  // ------------------------------------------------------------------

  /** Claiming a due job opens a round that starts no earlier than its delay allows. */
  lemma OpenRound(job: Job, rounds: seq<Round>, schedule: Schedule, now: Time)
    requires JobHistory(job, rounds, schedule, now) && Due(job, now)
    ensures JobHistory(Claimed(job), rounds + [Round(now, None)], schedule, now)
  {
    var longer := rounds + [Round(now, None)];
    forall n | 1 <= n < |longer| ensures PacedAt(longer, schedule, n) {
      assert n < |rounds| ==> PacedAt(rounds, schedule, n);
    }
  }

  /** Concluding a job closes its last round now. */
  lemma ConcludeRound(job: Job, rounds: seq<Round>, schedule: Schedule, now: Time, c: Conclusion)
    requires JobHistory(job, rounds, schedule, now) && job.status == InProgress && job.attemptCount >= 1
    requires c.Retry? ==> job.attemptCount < |schedule| && c.at == now + schedule[job.attemptCount]
    ensures
      var closed := Round(rounds[|rounds| - 1].claimedAt, Some(now));
      JobHistory(Concluded(job, c), rounds[|rounds| - 1 := closed], schedule, now)
  {
    var closed := rounds[|rounds| - 1 := Round(rounds[|rounds| - 1].claimedAt, Some(now))];
    forall n | 1 <= n < |closed| ensures PacedAt(closed, schedule, n) {
      assert PacedAt(rounds, schedule, n);
    }
  }

  lemma CommitHistory(s: State, w: WorkerId, schedule: Schedule, j: JobId)
    requires HoldingInv(s) && Enabled(s, Commit(w))
    requires j in s.jobs && j in s.history && JobHistory(s.jobs[j], s.history[j], schedule, s.now)
    ensures var t := Apply(s, Commit(w), schedule);
      j in t.jobs && j in t.history && JobHistory(t.jobs[j], t.history[j], schedule, t.now)
  {
    CommittedRow(s, w, j);
    hide HoldingInv, JobHistory, BatchIds;
    if j in BatchIds(s.workers[w].batch) {
      OpenRound(s.jobs[j], s.history[j], schedule, s.now);
    }
  }

  lemma ConcludeHistory(s: State, step: Step, schedule: Schedule, j: JobId)
    requires HoldingInv(s) && BoundsInv(s, schedule) && Enabled(s, step) && step.Conclude?
    requires j in s.jobs && j in s.history && JobHistory(s.jobs[j], s.history[j], schedule, s.now)
    ensures var t := Apply(s, step, schedule);
      j in t.jobs && j in t.history && JobHistory(t.jobs[j], t.history[j], schedule, t.now)
  {
    var claim := s.workers[step.w].batch[0];
    assert Held(s, step.w, 0) && ClaimMatches(s, step.w, 0);
    if j == claim.id {
      assert WithinBounds(s.jobs[j], MaxAttempts(schedule));
      var c := ConclusionOf(claim.job, step.partnerKnown, step.attempt, schedule, s.now);
      assert |s.history[j]| == s.jobs[j].attemptCount;
      hide HoldingInv, BoundsInv, JobHistory;
      ConcludeRound(s.jobs[j], s.history[j], schedule, s.now, c);
    }
  }

  lemma OtherHistory(s: State, step: Step, schedule: Schedule, j: JobId)
    requires Enabled(s, step) && !step.Commit? && !step.Conclude?
    requires j in s.jobs && j in s.history && JobHistory(s.jobs[j], s.history[j], schedule, s.now)
    ensures var t := Apply(s, step, schedule);
      j in t.jobs && j in t.history && JobHistory(t.jobs[j], t.history[j], schedule, t.now)
  {
    hide ConcludeMessage;
  }

  lemma HistoryKeys(s: State, step: Step, schedule: Schedule)
    requires Enabled(s, step) && s.history.Keys == s.jobs.Keys
    ensures var t := Apply(s, step, schedule);
      && t.history.Keys == t.jobs.Keys
      && (forall j :: j in t.jobs && j !in s.jobs ==> JobHistory(t.jobs[j], t.history[j], schedule, t.now))
  {
    hide ConcludeMessage, ConclusionOf;
  }

  lemma HistoryStep(s: State, step: Step, schedule: Schedule)
    requires HoldingInv(s) && BoundsInv(s, schedule) && HistoryInv(s, schedule) && Enabled(s, step)
    ensures HistoryInv(Apply(s, step, schedule), schedule)
  {
    HistoryKeys(s, step, schedule);
    assert step.EnqueueJob? ==> step.j !in s.jobs;
    hide Apply, Enabled, JobHistory, HoldingInv, BoundsInv;
    var t := Apply(s, step, schedule);
    forall j | j in s.jobs ensures j in t.jobs && JobHistory(t.jobs[j], t.history[j], schedule, t.now) {
      match step
      case Commit(w) => CommitHistory(s, w, schedule, j);
      case Conclude(w, known, attempt) => ConcludeHistory(s, step, schedule, j);
      case _ => OtherHistory(s, step, schedule, j);
    }
  }
}
