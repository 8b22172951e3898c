/** The `notification_jobs` table: scheduled client messages with a status
    lifecycle `pending → running → done | failed | canceled`, and a partial
    unique index that lets at most one pending or running job hold a given
    dedupe key. `now()` of the database is the `now` parameter. */
module NotificationJobsRepo {
  import opened Wrappers
  import opened Text
  import opened JsValue
  import ClientsLinkRepo

  datatype JobStatus = Pending | Running | Done | Canceled | Failed

  /** The statuses the unique index on `dedupe_key` covers. */
  predicate Active(st: JobStatus) { st == Pending || st == Running }

  /** A row; `runAt` is the instant `runAtISO` denotes. */
  datatype Job = Job(id: nat, companyId: int, chatId: JsVal, jobType: string, payload: JsVal,
                     status: JobStatus, runAt: int, dedupeKey: Option<string>,
                     attempts: nat, lastError: Option<string>, updatedAt: int)

  datatype JobError = InvalidCompany | TypeRequired | RunAtRequired

  datatype Result<T> = Ok(value: T) | Err(error: JobError)

  predicate IdsBelow(jobs: seq<Job>, nextId: nat) {
    && (forall i :: 0 <= i < |jobs| ==> jobs[i].id < nextId)
    && (forall i, j :: 0 <= i < j < |jobs| ==> jobs[i].id < jobs[j].id)
  }

  /** The partial unique index `ON (dedupe_key) WHERE status IN
      ('pending','running')`; null keys never conflict. */
  predicate OneActivePerKey(jobs: seq<Job>) {
    forall i, j :: 0 <= i < j < |jobs| && jobs[i].dedupeKey.Some? && jobs[i].dedupeKey == jobs[j].dedupeKey ==>
      !(Active(jobs[i].status) && Active(jobs[j].status))
  }

  predicate TableInvariant(jobs: seq<Job>, nextId: nat) {
    IdsBelow(jobs, nextId) && OneActivePerKey(jobs)
  }

  /** Some pending or running job holds `key`. */
  predicate Blocked(jobs: seq<Job>, key: string) {
    exists i :: 0 <= i < |jobs| && jobs[i].dedupeKey == Some(key) && Active(jobs[i].status)
  }

  /** The table after an insert, its next id, and what the call returns. */
  datatype JobWrite = JobWrite(jobs: seq<Job>, nextId: nat, result: Result<Option<Job>>)

  /** `enqueueJob`: validate, then insert a `pending` job unless its dedupe
      key is held by a pending or running job, in which case the insert does
      nothing and the call returns `null`. */
  function Enqueue(jobs: seq<Job>, nextId: nat, companyId: JsVal, telegramChatId: JsVal, jobType: JsVal,
                   payload: JsVal, runAtISO: JsVal, runAt: int, dedupeKey: Option<string>, now: int): (w: JobWrite)
    ensures w.result.Ok? && w.result.value.Some? ==>
      var job := w.result.value.value;
      && w.jobs == jobs + [job] && w.nextId == nextId + 1
      && job.id == nextId && job.status == Pending && job.runAt == runAt && job.dedupeKey == dedupeKey
    ensures w.result.Ok? && w.result.value.None? ==> w.jobs == jobs && w.nextId == nextId && dedupeKey.Some?
  {
    var company := ClientsLinkRepo.Company(companyId);
    if company.None? then JobWrite(jobs, nextId, Err(InvalidCompany))
    else if !Truthy(jobType) then JobWrite(jobs, nextId, Err(TypeRequired))
    else if !Truthy(runAtISO) then JobWrite(jobs, nextId, Err(RunAtRequired))
    else if dedupeKey.Some? && Blocked(jobs, dedupeKey.value) then JobWrite(jobs, nextId, Ok(None))
    else
      var job := Job(nextId, company.value, Coalesce(telegramChatId, Null), ToStr(jobType),
                     if Truthy(payload) then payload else Null, Pending, runAt, dedupeKey, 0, None, now);
      JobWrite(jobs + [job], nextId + 1, Ok(Some(job)))
  }

  /** The three checks, in order, throw before anything is written. */
  lemma EnqueueRejects(jobs: seq<Job>, nextId: nat, companyId: JsVal, telegramChatId: JsVal, jobType: JsVal,
                       payload: JsVal, runAtISO: JsVal, runAt: int, dedupeKey: Option<string>, now: int)
    ensures var w := Enqueue(jobs, nextId, companyId, telegramChatId, jobType, payload, runAtISO, runAt, dedupeKey, now);
      && (w.result.Err? ==> w.jobs == jobs && w.nextId == nextId)
      && (w.result == Err(InvalidCompany) <==> ClientsLinkRepo.Company(companyId).None?)
      && (w.result == Err(TypeRequired) <==> ClientsLinkRepo.Company(companyId).Some? && !Truthy(jobType))
      && (w.result.Err? <==> (ClientsLinkRepo.Company(companyId).None? || !Truthy(jobType) || !Truthy(runAtISO)))
  {
  }

  /** A valid call whose key is held by an active job inserts nothing and
      returns `null`; any other valid call appends a `pending` job with no
      attempts and a fresh id, and returns it. */
  lemma EnqueueDedupes(jobs: seq<Job>, nextId: nat, companyId: JsVal, telegramChatId: JsVal, jobType: JsVal,
                       payload: JsVal, runAtISO: JsVal, runAt: int, dedupeKey: Option<string>, now: int)
    requires ClientsLinkRepo.Company(companyId).Some? && Truthy(jobType) && Truthy(runAtISO)
    ensures var w := Enqueue(jobs, nextId, companyId, telegramChatId, jobType, payload, runAtISO, runAt, dedupeKey, now);
      && w.result.Ok?
      && (w.result.value.None? <==> dedupeKey.Some? && Blocked(jobs, dedupeKey.value))
      && (w.result.value.None? ==> w.jobs == jobs && w.nextId == nextId)
      && (w.result.value.Some? ==>
            var job := w.result.value.value;
            && w.jobs == jobs + [job] && w.nextId == nextId + 1
            && job.id == nextId && job.status == Pending && job.attempts == 0 && job.runAt == runAt
            && job.dedupeKey == dedupeKey && job.jobType == ToStr(jobType))
  {
  }

  /** Enqueueing keeps ids increasing and at most one active job per key. */
  lemma EnqueueKeepsInvariant(jobs: seq<Job>, nextId: nat, companyId: JsVal, telegramChatId: JsVal, jobType: JsVal,
                              payload: JsVal, runAtISO: JsVal, runAt: int, dedupeKey: Option<string>, now: int)
    requires TableInvariant(jobs, nextId)
    ensures var w := Enqueue(jobs, nextId, companyId, telegramChatId, jobType, payload, runAtISO, runAt, dedupeKey, now);
      TableInvariant(w.jobs, w.nextId)
  {
    var w := Enqueue(jobs, nextId, companyId, telegramChatId, jobType, payload, runAtISO, runAt, dedupeKey, now);
    if w.jobs != jobs {
      var js := w.jobs;
      var job := js[|jobs|];
      assert js == jobs + [job];
      forall i, j | 0 <= i < j < |js| && js[i].dedupeKey.Some? && js[i].dedupeKey == js[j].dedupeKey
        ensures !(Active(js[i].status) && Active(js[j].status))
      {
        if j == |jobs| {
          assert js[i] == jobs[i];
          assert !Blocked(jobs, job.dedupeKey.value);
        }
      }
    }
  }

  /** `Math.max(1, Math.min(200, toInt(limit, 25)))` */
  function PickLimit(limit: JsVal): (r: nat)
    ensures 1 <= r <= 200
    ensures ToNumber(limit).NaN? ==> r == 25
    ensures ToNumber(limit).Num? && 1 <= ToNumber(limit).n <= 200 ==> r == ToNumber(limit).n
  {
    var n := ClientsLinkRepo.ToIntOr(limit, 25);
    if n > 200 then 200 else if n < 1 then 1 else n
  }

  /** A job the picker may take at time `now`. */
  predicate Due(j: Job, now: int) { j.status == Pending && j.runAt <= now }

  /** `ORDER BY run_at ASC, id ASC`: `a` comes strictly before `b`. */
  predicate Precedes(a: Job, b: Job) {
    a.runAt < b.runAt || (a.runAt == b.runAt && a.id < b.id)
  }

  /** How a finishing call changes a row. */
  datatype Change = MarkDone | MarkCanceled(reason: Option<string>) | MarkFailed(error: string)

  function Apply(j: Job, c: Change, now: int): (r: Job)
    ensures r.id == j.id && r.dedupeKey == j.dedupeKey && r.runAt == j.runAt && !Active(r.status)
  {
    match c
    case MarkDone => j.(status := Done, updatedAt := now)
    case MarkCanceled(reason) => j.(status := Canceled, lastError := reason, updatedAt := now)
    case MarkFailed(e) => j.(status := Failed, attempts := j.attempts + 1, lastError := Some(e), updatedAt := now)
  }

  /** The most error text a row keeps. */
  const MaxErrorText: nat := 1000

  /** `reason ? String(reason).slice(0, 1000) : null` */
  function CancelReason(reason: JsVal): (r: Option<string>)
    ensures r.None? <==> !Truthy(reason)
    ensures r.Some? ==> |r.value| <= MaxErrorText && StartsWith(ToStr(reason), r.value)
    ensures r.Some? && |ToStr(reason)| <= MaxErrorText ==> r.value == ToStr(reason)
  {
    if Truthy(reason) then Some(Prefix(ToStr(reason), MaxErrorText)) else None
  }

  /** `(err?.message || String(err)).slice(0, 1000)` */
  function FailureText(err: JsVal): (r: string)
    ensures |r| <= MaxErrorText
    ensures Truthy(Get(err, "message")) ==> StartsWith(ToStr(Get(err, "message")), r)
    ensures !Truthy(Get(err, "message")) ==> StartsWith(ToStr(err), r)
  {
    Prefix(ToStr(Or(Get(err, "message"), Str(ToStr(err)))), MaxErrorText)
  }

  class JobTable {
    var jobs: seq<Job>
    var nextId: nat

    predicate Valid()
      reads this
    {
      TableInvariant(jobs, nextId)
    }

    constructor ()
      ensures Valid() && jobs == []
    {
      jobs := [];
      nextId := 1;
    }

    /** Whether an active job holds `key`, scanning the table. */
    method HasActive(key: string) returns (b: bool)
      ensures b == Blocked(jobs, key)
    {
      var i := 0;
      while i < |jobs|
        invariant 0 <= i <= |jobs|
        invariant forall k :: 0 <= k < i ==> !(jobs[k].dedupeKey == Some(key) && Active(jobs[k].status))
      {
        if jobs[i].dedupeKey == Some(key) && Active(jobs[i].status) {
          return true;
        }
        i := i + 1;
      }
      return false;
    }

    method EnqueueJob(companyId: JsVal, telegramChatId: JsVal, jobType: JsVal, payload: JsVal,
                      runAtISO: JsVal, runAt: int, dedupeKey: Option<string>, now: int)
      returns (r: Result<Option<Job>>)
      requires Valid()
      modifies this
      ensures Valid()
      ensures JobWrite(jobs, nextId, r)
        == Enqueue(old(jobs), old(nextId), companyId, telegramChatId, jobType, payload, runAtISO, runAt, dedupeKey, now)
    {
      ghost var w := Enqueue(jobs, nextId, companyId, telegramChatId, jobType, payload, runAtISO, runAt, dedupeKey, now);
      var company := ClientsLinkRepo.Company(companyId);
      if company.None? { return Err(InvalidCompany); }
      if !Truthy(jobType) { return Err(TypeRequired); }
      if !Truthy(runAtISO) { return Err(RunAtRequired); }
      if dedupeKey.Some? {
        var held := HasActive(dedupeKey.value);
        if held {
          assert w == JobWrite(jobs, nextId, Ok(None));
          return Ok(None);
        }
      }
      var job := Job(nextId, company.value, Coalesce(telegramChatId, Null), ToStr(jobType),
                     if Truthy(payload) then payload else Null, Pending, runAt, dedupeKey, 0, None, now);
      assert w == JobWrite(jobs + [job], nextId + 1, Ok(Some(job)));
      EnqueueKeepsInvariant(jobs, nextId, companyId, telegramChatId, jobType, payload, runAtISO, runAt, dedupeKey, now);
      jobs := jobs + [job];
      nextId := nextId + 1;
      return Ok(Some(job));
    }

    /** The index of the first due job in `(run_at, id)` order, if any. */
    method FirstDue(now: int) returns (m: Option<nat>)
      requires Valid()
      ensures m.None? ==> forall i :: 0 <= i < |jobs| ==> !Due(jobs[i], now)
      ensures m.Some? ==> m.value < |jobs| && Due(jobs[m.value], now)
      ensures m.Some? ==> forall i :: 0 <= i < |jobs| && i != m.value && Due(jobs[i], now) ==> Precedes(jobs[m.value], jobs[i])
    {
      m := None;
      var i := 0;
      while i < |jobs|
        invariant 0 <= i <= |jobs|
        invariant m.None? ==> forall k :: 0 <= k < i ==> !Due(jobs[k], now)
        invariant m.Some? ==> m.value < i && Due(jobs[m.value], now)
        invariant m.Some? ==> forall k :: 0 <= k < i && k != m.value && Due(jobs[k], now) ==> Precedes(jobs[m.value], jobs[k])
      {
        if Due(jobs[i], now) && (m.None? || Precedes(jobs[i], jobs[m.value])) {
          m := Some(i);
        }
        i := i + 1;
      }
    }

    /** `pickDueJobs`: take the first `limit` due jobs in `(run_at, id)`
        order and set exactly those to `running`. The statement's RETURNING
        promises no row order; the model returns one allowed order, the
        selection order. */
    method PickDueJobs(limit: JsVal, now: int) returns (picked: seq<Job>)
      requires Valid()
      modifies this
      ensures Valid() && nextId == old(nextId) && |jobs| == |old(jobs)|
      ensures |picked| <= PickLimit(limit)
      ensures |picked| < PickLimit(limit) ==> forall i :: 0 <= i < |jobs| ==> !Due(jobs[i], now)
      ensures forall i :: 0 <= i < |jobs| ==>
        jobs[i] == old(jobs)[i]
        || (Due(old(jobs)[i], now) && jobs[i] == old(jobs)[i].(status := Running, updatedAt := now) && jobs[i] in picked)
      ensures forall p :: p in picked ==> p.status == Running && exists i :: 0 <= i < |jobs| && jobs[i] == p && jobs[i] != old(jobs)[i]
      ensures forall k, l :: 0 <= k < l < |picked| ==> Precedes(picked[k], picked[l])
      ensures forall k, i :: 0 <= k < |picked| && 0 <= i < |jobs| && Due(jobs[i], now) ==> Precedes(picked[k], jobs[i])
    {
      var lim := PickLimit(limit);
      picked := [];
      ghost var orig := jobs;
      while |picked| < lim
        invariant Valid() && nextId == old(nextId) && |picked| <= lim
        invariant PickedSoFar(orig, jobs, picked, now)
        decreases lim - |picked|
      {
        var m := FirstDue(now);
        if m.None? {
          break;
        }
        var i := m.value;
        var job := jobs[i].(status := Running, updatedAt := now);
        PickStep(orig, jobs, nextId, picked, i, now);
        jobs := jobs[i := job];
        picked := picked + [job];
      }
    }

    /** The update `WHERE id = $1` for one of the finishing calls. */
    method Mark(id: int, c: Change, now: int)
      requires Valid()
      modifies this
      ensures Valid() && nextId == old(nextId) && |jobs| == |old(jobs)|
      ensures forall i :: 0 <= i < |jobs| ==>
        jobs[i] == if old(jobs)[i].id == id then Apply(old(jobs)[i], c, now) else old(jobs)[i]
    {
      ghost var orig := jobs;
      var i := 0;
      while i < |jobs|
        invariant 0 <= i <= |jobs| == |orig|
        invariant Valid() && nextId == old(nextId)
        invariant forall k :: 0 <= k < |jobs| ==>
          jobs[k] == if k < i && orig[k].id == id then Apply(orig[k], c, now) else orig[k]
      {
        if jobs[i].id == id {
          FinishKeepsInvariant(jobs, nextId, i, c, now);
          jobs := jobs[i := Apply(jobs[i], c, now)];
        }
        i := i + 1;
      }
    }

    /** `markJobDone(id)` */
    method MarkJobDone(id: int, now: int)
      requires Valid()
      modifies this
      ensures Valid() && |jobs| == |old(jobs)|
      ensures forall i :: 0 <= i < |jobs| ==>
        jobs[i] == if old(jobs)[i].id == id then old(jobs)[i].(status := Done, updatedAt := now) else old(jobs)[i]
    {
      Mark(id, MarkDone, now);
    }

    /** `markJobCanceled(id, reason)` */
    method MarkJobCanceled(id: int, reason: JsVal, now: int)
      requires Valid()
      modifies this
      ensures Valid() && |jobs| == |old(jobs)|
      ensures forall i :: 0 <= i < |jobs| ==>
        jobs[i] == if old(jobs)[i].id == id
                   then old(jobs)[i].(status := Canceled, lastError := CancelReason(reason), updatedAt := now)
                   else old(jobs)[i]
    {
      Mark(id, MarkCanceled(CancelReason(reason)), now);
    }

    /** `markJobFailed(id, err)` */
    method MarkJobFailed(id: int, err: JsVal, now: int)
      requires Valid()
      modifies this
      ensures Valid() && |jobs| == |old(jobs)|
      ensures forall i :: 0 <= i < |jobs| ==>
        jobs[i] == if old(jobs)[i].id == id
                   then old(jobs)[i].(status := Failed, attempts := old(jobs)[i].attempts + 1,
                                      lastError := Some(FailureText(err)), updatedAt := now)
                   else old(jobs)[i]
    {
      Mark(id, MarkFailed(FailureText(err)), now);
    }
  }

  /** What the picker has done so far, starting from the table `orig`:
      every row is as it was or a due job now running and returned; every
      returned job is such a row; the returned jobs are in order; and every
      job still due comes after all of them. */
  predicate PickedSoFar(orig: seq<Job>, jobs: seq<Job>, picked: seq<Job>, now: int) {
    && |jobs| == |orig|
    && (forall i :: 0 <= i < |jobs| ==>
          jobs[i] == orig[i] || (Due(orig[i], now) && jobs[i] == orig[i].(status := Running, updatedAt := now) && jobs[i] in picked))
    && (forall p :: p in picked ==> p.status == Running && exists i :: 0 <= i < |jobs| && jobs[i] == p && jobs[i] != orig[i])
    && (forall k, l :: 0 <= k < l < |picked| ==> Precedes(picked[k], picked[l]))
    && (forall k, i :: 0 <= k < |picked| && 0 <= i < |jobs| && Due(jobs[i], now) ==> Precedes(picked[k], jobs[i]))
  }

  /** Taking the first due job in order extends a pick. */
  lemma PickStep(orig: seq<Job>, jobs: seq<Job>, nextId: nat, picked: seq<Job>, m: nat, now: int)
    requires TableInvariant(jobs, nextId) && PickedSoFar(orig, jobs, picked, now)
    requires m < |jobs| && Due(jobs[m], now)
    requires forall i :: 0 <= i < |jobs| && i != m && Due(jobs[i], now) ==> Precedes(jobs[m], jobs[i])
    ensures var job := jobs[m].(status := Running, updatedAt := now);
      TableInvariant(jobs[m := job], nextId) && PickedSoFar(orig, jobs[m := job], picked + [job], now)
  {
    var job := jobs[m].(status := Running, updatedAt := now);
    var after := jobs[m := job];
    var more := picked + [job];
    PickKeepsInvariant(jobs, nextId, m, now);
    assert jobs[m] == orig[m];
    forall i | 0 <= i < |after|
      ensures after[i] == orig[i] || (Due(orig[i], now) && after[i] == orig[i].(status := Running, updatedAt := now) && after[i] in more)
    {
      if i != m && jobs[i] != orig[i] {
        assert jobs[i] in picked;
      }
    }
    forall p | p in more
      ensures p.status == Running && exists i :: 0 <= i < |after| && after[i] == p && after[i] != orig[i]
    {
      if p != job {
        assert p in picked;
        var k :| 0 <= k < |jobs| && jobs[k] == p && jobs[k] != orig[k];
        assert k != m;
        assert after[k] == p;
      } else {
        assert after[m] == p;
      }
    }
    forall k, l | 0 <= k < l < |more|
      ensures Precedes(more[k], more[l])
    {
      if l == |picked| {
        assert more[k] == picked[k] && more[l] == job;
      }
    }
    forall k, i | 0 <= k < |more| && 0 <= i < |after| && Due(after[i], now)
      ensures Precedes(more[k], after[i])
    {
      assert i != m;
      if k == |picked| {
        assert more[k] == job;
      }
    }
  }

  /** Starting a due job keeps the invariant: it stays active and keeps its key. */
  lemma PickKeepsInvariant(jobs: seq<Job>, nextId: nat, i: nat, now: int)
    requires TableInvariant(jobs, nextId) && i < |jobs| && jobs[i].status == Pending
    ensures TableInvariant(jobs[i := jobs[i].(status := Running, updatedAt := now)], nextId)
  {
  }

  /** Finishing a job keeps the invariant: it stops being active. */
  lemma FinishKeepsInvariant(jobs: seq<Job>, nextId: nat, i: nat, c: Change, now: int)
    requires TableInvariant(jobs, nextId) && i < |jobs|
    ensures TableInvariant(jobs[i := Apply(jobs[i], c, now)], nextId)
  {
  }

  /** Finishing the active job that holds a dedupe key frees the key: the
      next enqueue with that key inserts again. */
  lemma FinishingFreesKey(jobs: seq<Job>, nextId: nat, i: nat, c: Change, now: int, key: string)
    requires TableInvariant(jobs, nextId) && i < |jobs|
    requires jobs[i].dedupeKey == Some(key) && Active(jobs[i].status)
    ensures Blocked(jobs, key)
    ensures !Blocked(jobs[i := Apply(jobs[i], c, now)], key)
  {
  }
}
