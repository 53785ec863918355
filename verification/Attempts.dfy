/**
 The lifecycle of an assessment attempt (src/modules/assessments/assessment.service.ts,
 webhook.service.ts and the submission in exam.service.ts), one request at a time.
 */
module Attempts {
  import opened Common

  type CandidateId = nat
  type TestId = nat
  type ResumeToken = nat

  datatype Status = Pending | InProgress | Completed | Cancelled | Incident

  datatype Attempt = Attempt(
    candidateId: CandidateId,
    testId: TestId,
    status: Status,
    resumeToken: ResumeToken,
    startedAt: Instant,
    completedAt: Option<Instant>,
    tabSwitches: int,
    windowBlurs: int,
    proctoringFlagged: bool)

  /** Attempts and scores are named by their position; a score names its attempt. */
  datatype Tables = Tables(attempts: seq<Attempt>, scores: seq<nat>)

  datatype Settings = Settings(cooldownDays: int, leaveThreshold: int, hardThreshold: int)

  datatype Test = Test(active: bool)

  datatype AttemptError =
    | TestNotFound
    | TestNotActive
    | AlreadyInProgress
    | CooldownActive
    | AttemptNotFound
    | AccessDenied
    | WrongStatus
    | InvalidResumeToken
    | TimeExceeded
    | NoResult

  const EXAM_GRACE_SECONDS: int := 120

  // ---- Queries ----

  predicate IsOpenFor(a: Attempt, candidateId: CandidateId, testId: TestId) {
    a.candidateId == candidateId && a.testId == testId && (a.status.Pending? || a.status.InProgress?)
  }

  predicate IsDoneFor(a: Attempt, candidateId: CandidateId, testId: TestId) {
    a.candidateId == candidateId && a.testId == testId && a.status.Completed?
  }

  /** Descending order puts an absent completion time first. */
  predicate ComesBefore(a: Attempt, b: Attempt) {
    a.completedAt.None? || (b.completedAt.Some? && b.completedAt.value <= a.completedAt.value)
  }

  function LastCompleted(attempts: seq<Attempt>, candidateId: CandidateId, testId: TestId): (r: Option<Attempt>)
    ensures r.Some? ==> r.value in attempts && IsDoneFor(r.value, candidateId, testId)
    ensures forall i :: 0 <= i < |attempts| && IsDoneFor(attempts[i], candidateId, testId)
                        ==> r.Some? && ComesBefore(r.value, attempts[i])
  {
    if attempts == [] then None
    else
      var rest := LastCompleted(attempts[1..], candidateId, testId);
      assert forall i :: 1 <= i < |attempts| ==> attempts[i] == attempts[1..][i - 1];
      if !IsDoneFor(attempts[0], candidateId, testId) then rest
      else if rest.None? || ComesBefore(attempts[0], rest.value) then Some(attempts[0])
      else rest
  }

  predicate HasOpen(attempts: seq<Attempt>, candidateId: CandidateId, testId: TestId) {
    exists i :: 0 <= i < |attempts| && IsOpenFor(attempts[i], candidateId, testId)
  }

  function CooldownEnd(completedAt: Instant, days: int): Instant {
    AddDays(completedAt, days)
  }

  function Eligibility(attempts: seq<Attempt>, candidateId: CandidateId, testId: TestId, now: Instant, cfg: Settings)
    : Option<AttemptError>
  {
    if HasOpen(attempts, candidateId, testId) then Some(AlreadyInProgress)
    else
      var last := LastCompleted(attempts, candidateId, testId);
      if last.Some? && last.value.completedAt.Some? && CooldownEnd(last.value.completedAt.value, cfg.cooldownDays) > now
      then Some(CooldownActive)
      else None
  }

  // ---- Requests ----

  datatype Request =
    | Start(candidateId: CandidateId, testId: TestId, test: Option<Test>, token: ResumeToken)
    | Resume(candidateId: CandidateId, id: nat, presented: ResumeToken, token: ResumeToken)
    | ReportIncident(candidateId: CandidateId, id: nat)
    | RecordProctoring(candidateId: CandidateId, id: nat, tabSwitches: int, windowBlurs: int)
    | SubmitExam(candidateId: CandidateId, id: nat, budgetSeconds: int)
    | ProviderResult(id: nat, available: bool)

  function Owned(db: Tables, candidateId: CandidateId, id: nat, status: Status): Option<AttemptError> {
    if id >= |db.attempts| then Some(AttemptNotFound)
    else if db.attempts[id].candidateId != candidateId then Some(AccessDenied)
    else if db.attempts[id].status != status then Some(WrongStatus)
    else None
  }

  function WithAttempt(db: Tables, id: nat, a: Attempt): Tables
    requires id < |db.attempts|
  {
    db.(attempts := db.attempts[id := a])
  }

  function Finalized(db: Tables, id: nat, now: Instant): Tables
    requires id < |db.attempts|
  {
    if id in db.scores then db
    else WithAttempt(db, id, db.attempts[id].(status := Completed, completedAt := Some(now)))
           .(scores := db.scores + [id])
  }

  function Observed(a: Attempt, tabSwitches: int, windowBlurs: int, cfg: Settings): Attempt {
    var tabs := if a.tabSwitches < tabSwitches then tabSwitches else a.tabSwitches;
    var blurs := if a.windowBlurs < windowBlurs then windowBlurs else a.windowBlurs;
    a.(tabSwitches := tabs, windowBlurs := blurs,
       proctoringFlagged := a.proctoringFlagged || tabs + blurs >= cfg.leaveThreshold,
       status := if tabs + blurs >= cfg.hardThreshold then Incident else a.status)
  }

  function Deadline(a: Attempt, budgetSeconds: int): Instant {
    a.startedAt + (budgetSeconds + EXAM_GRACE_SECONDS) * 1000
  }

  /** The tables after a request, and the error it was answered with, if any. */
  function Served(db: Tables, r: Request, now: Instant, cfg: Settings): (Tables, Option<AttemptError>) {
    match r
    case Start(candidateId, testId, test, token) =>
      if test.None? then (db, Some(TestNotFound))
      else if !test.value.active then (db, Some(TestNotActive))
      else
        var refusal := Eligibility(db.attempts, candidateId, testId, now, cfg);
        if refusal.Some? then (db, refusal)
        else (db.(attempts := db.attempts
            + [Attempt(candidateId, testId, InProgress, token, now, None, 0, 0, false)]), None)
    case Resume(candidateId, id, presented, token) =>
      var refusal := Owned(db, candidateId, id, Incident);
      if refusal.Some? then (db, refusal)
      else if db.attempts[id].resumeToken != presented then (db, Some(InvalidResumeToken))
      else (WithAttempt(db, id, db.attempts[id].(status := InProgress, resumeToken := token)), None)
    case ReportIncident(candidateId, id) =>
      var refusal := Owned(db, candidateId, id, InProgress);
      if refusal.Some? then (db, refusal)
      else (WithAttempt(db, id, db.attempts[id].(status := Incident)), None)
    case RecordProctoring(candidateId, id, tabSwitches, windowBlurs) =>
      var refusal := Owned(db, candidateId, id, InProgress);
      if refusal.Some? then (db, refusal)
      else (WithAttempt(db, id, Observed(db.attempts[id], tabSwitches, windowBlurs, cfg)), None)
    case SubmitExam(candidateId, id, budgetSeconds) =>
      var refusal := Owned(db, candidateId, id, InProgress);
      if refusal.Some? then (db, refusal)
      else if now > Deadline(db.attempts[id], budgetSeconds) then
        (WithAttempt(db, id, db.attempts[id].(status := Incident)), Some(TimeExceeded))
      else (Finalized(db, id, now), None)
    case ProviderResult(id, available) =>
      if id >= |db.attempts| then (db, Some(AttemptNotFound))
      else if id in db.scores then (db, None)
      else if !available then (db, Some(NoResult))
      else (Finalized(db, id, now), None)
  }

  class AssessmentService {
    var attempts: seq<Attempt>
    var scores: seq<nat>
    const cfg: Settings

    constructor (cfg: Settings)
      ensures Contents() == Tables([], []) && this.cfg == cfg
    {
      attempts, scores := [], [];
      this.cfg := cfg;
    }

    function Contents(): Tables
      reads this
    {
      Tables(attempts, scores)
    }

    method StartAssessment(candidateId: CandidateId, testId: TestId, test: Option<Test>,
            token: ResumeToken, now: Instant)
      returns (e: Option<AttemptError>)
      modifies this
      ensures (Contents(), e) == Served(old(Contents()), Start(candidateId, testId, test, token), now, cfg)
    {
      if test.None? {
        return Some(TestNotFound);
      }
      if !test.value.active {
        return Some(TestNotActive);
      }
      if HasOpen(attempts, candidateId, testId) {
        return Some(AlreadyInProgress);
      }
      var last := LastCompleted(attempts, candidateId, testId);
      if last.Some? && last.value.completedAt.Some? {
        var cooldownEnd := CooldownEnd(last.value.completedAt.value, cfg.cooldownDays);
        if cooldownEnd > now {
          return Some(CooldownActive);
        }
      }
      attempts := attempts + [Attempt(candidateId, testId, InProgress, token, now, None, 0, 0, false)];
      e := None;
    }

    method ResumeAssessment(candidateId: CandidateId, id: nat, presented: ResumeToken, token: ResumeToken, now: Instant)
      returns (e: Option<AttemptError>)
      modifies this
      ensures (Contents(), e) == Served(old(Contents()), Resume(candidateId, id, presented, token), now, cfg)
    {
      e := Owned(Contents(), candidateId, id, Incident);
      if e.None? {
        var assessment := attempts[id];
        if assessment.resumeToken != presented {
          return Some(InvalidResumeToken);
        }
        assessment := assessment.(status := InProgress);
        assessment := assessment.(resumeToken := token);
        attempts := attempts[id := assessment];
      }
    }

    method ReportIncident(candidateId: CandidateId, id: nat, now: Instant) returns (e: Option<AttemptError>)
      modifies this
      ensures (Contents(), e) == Served(old(Contents()), Request.ReportIncident(candidateId, id), now, cfg)
    {
      e := Owned(Contents(), candidateId, id, InProgress);
      if e.None? {
        attempts := attempts[id := attempts[id].(status := Incident)];
      }
    }

    method RecordProctoringEvents(candidateId: CandidateId, id: nat, tabSwitches: int, windowBlurs: int, now: Instant)
      returns (e: Option<AttemptError>)
      modifies this
      ensures (Contents(), e)
          == Served(old(Contents()), RecordProctoring(candidateId, id, tabSwitches, windowBlurs), now, cfg)
    {
      e := Owned(Contents(), candidateId, id, InProgress);
      if e.None? {
        var a := attempts[id];
        a := a.(tabSwitches := if a.tabSwitches < tabSwitches then tabSwitches else a.tabSwitches);
        a := a.(windowBlurs := if a.windowBlurs < windowBlurs then windowBlurs else a.windowBlurs);
        var totalLeaves := a.tabSwitches + a.windowBlurs;
        if totalLeaves >= cfg.leaveThreshold {
          a := a.(proctoringFlagged := true);
        }
        if totalLeaves >= cfg.hardThreshold {
          a := a.(status := Incident);
        }
        attempts := attempts[id := a];
      }
    }

    method FinalizeAssessment(id: nat, now: Instant)
      requires id < |attempts|
      modifies this
      ensures Contents() == Finalized(old(Contents()), id, now)
    {
      if id in scores {
        return;
      }
      scores := scores + [id];
      var assessment := attempts[id];
      assessment := assessment.(status := Completed);
      assessment := assessment.(completedAt := Some(now));
      attempts := attempts[id := assessment];
    }

    method Submit(candidateId: CandidateId, id: nat, budgetSeconds: int, now: Instant) returns (e: Option<AttemptError>)
      modifies this
      ensures (Contents(), e) == Served(old(Contents()), SubmitExam(candidateId, id, budgetSeconds), now, cfg)
    {
      e := Owned(Contents(), candidateId, id, InProgress);
      if e.None? {
        if now > Deadline(attempts[id], budgetSeconds) {
          attempts := attempts[id := attempts[id].(status := Incident)];
          return Some(TimeExceeded);
        }
        FinalizeAssessment(id, now);
      }
    }

    method ProcessWebhook(id: nat, available: bool, now: Instant) returns (e: Option<AttemptError>)
      modifies this
      ensures (Contents(), e) == Served(old(Contents()), ProviderResult(id, available), now, cfg)
    {
      if id >= |attempts| {
        return Some(AttemptNotFound);
      }
      if id !in scores && !available {
        return Some(NoResult);
      }
      FinalizeAssessment(id, now);
      e := None;
    }
  }

  // ---- Over whole runs ----

  predicate SameExam(a: Attempt, b: Attempt) {
    a.candidateId == b.candidateId && a.testId == b.testId
  }

  /** Whoever had completed the exam when an attempt at it began had waited the cooldown out. */
  ghost predicate WaitedBetween(a: Attempt, b: Attempt, cfg: Settings) {
    SameExam(a, b) && a.completedAt.Some? && a.completedAt.value < b.startedAt
    ==> a.completedAt.value + cfg.cooldownDays * 86_400_000 <= b.startedAt
  }

  /** An attempt is completed exactly when it has a score, and exactly then has a completion time; none lies ahead. */
  ghost predicate RowsAgree(db: Tables, clock: Instant) {
    forall i :: 0 <= i < |db.attempts| ==>
      && (db.attempts[i].status.Completed? <==> i in db.scores)
      && (db.attempts[i].status.Completed? <==> db.attempts[i].completedAt.Some?)
      && db.attempts[i].startedAt <= clock
      && (db.attempts[i].completedAt.Some? ==> db.attempts[i].completedAt.value <= clock)
  }

  /** Every score is of an attempt, and no attempt has two. */
  ghost predicate ScoresSound(db: Tables) {
    NoDup(db.scores) && forall k :: 0 <= k < |db.scores| ==> db.scores[k] < |db.attempts|
  }

  ghost predicate AllWaited(attempts: seq<Attempt>, cfg: Settings) {
    forall i, j :: 0 <= i < |attempts| && 0 <= j < |attempts| ==> WaitedBetween(attempts[i], attempts[j], cfg)
  }

  ghost predicate Inv(db: Tables, clock: Instant, cfg: Settings) {
    RowsAgree(db, clock) && ScoresSound(db) && AllWaited(db.attempts, cfg)
  }

  /** What one request can do to an attempt that exists. */
  ghost predicate AttemptStep(a: Attempt, a': Attempt, now: Instant) {
    && SameExam(a, a') && a'.startedAt == a.startedAt
    && (a.status.Completed? ==> a' == a)
    && (a'.completedAt == a.completedAt || (a'.completedAt == Some(now) && !a.status.Completed?))
    && (a'.status == a.status || a'.status.Completed?
        || (a.status.InProgress? && a'.status.Incident?) || (a.status.Incident? && a'.status.InProgress?))
    && (a'.resumeToken == a.resumeToken || (a.status.Incident? && a'.status.InProgress?))
    && a.tabSwitches <= a'.tabSwitches && a.windowBlurs <= a'.windowBlurs
        && (a.proctoringFlagged ==> a'.proctoringFlagged)
  }

  /** Also, a submission that is scored was in time. */
  lemma RequestStepsAttempts(db: Tables, r: Request, now: Instant, cfg: Settings, clock: Instant)
    requires Inv(db, clock, cfg)
    ensures var db' := Served(db, r, now, cfg).0;
            && |db.attempts| <= |db'.attempts|
            && (forall i :: 0 <= i < |db.attempts| ==> AttemptStep(db.attempts[i], db'.attempts[i], now))
            && (r.SubmitExam? && db'.scores != db.scores ==>
                  r.id < |db.attempts| && now <= Deadline(db.attempts[r.id], r.budgetSeconds))
  {
  }

  lemma StartWaits(db: Tables, r: Request, now: Instant, cfg: Settings, i: nat)
    requires Inv(db, now, cfg) && r.Start? && Served(db, r, now, cfg).1.None? && i < |db.attempts|
    ensures WaitedBetween(db.attempts[i], Served(db, r, now, cfg).0.attempts[|db.attempts|], cfg)
  {
    var a := db.attempts[i];
    if a.candidateId == r.candidateId && a.testId == r.testId && a.completedAt.Some? {
      var last := LastCompleted(db.attempts, r.candidateId, r.testId);
      assert last.Some? && ComesBefore(last.value, a);
      assert last.value.completedAt.Some?;
    }
  }

  lemma WaitingIsKept(db: Tables, r: Request, now: Instant, cfg: Settings)
    requires Inv(db, now, cfg)
    ensures AllWaited(Served(db, r, now, cfg).0.attempts, cfg)
  {
    RequestStepsAttempts(db, r, now, cfg, now);
    var attempts' := Served(db, r, now, cfg).0.attempts;
    var n := |db.attempts|;
    forall i, j | 0 <= i < |attempts'| && 0 <= j < |attempts'|
      ensures WaitedBetween(attempts'[i], attempts'[j], cfg)
    {
      if i < n && j < n {
        assert WaitedBetween(db.attempts[i], db.attempts[j], cfg);
        assert AttemptStep(db.attempts[i], attempts'[i], now) && AttemptStep(db.attempts[j], attempts'[j], now);
      } else if i < n {
        StartWaits(db, r, now, cfg, i);
        assert attempts'[i] == db.attempts[i];
      }
    }
  }

  lemma FinalizingKeepsScores(db: Tables, id: nat, now: Instant)
    requires RowsAgree(db, now) && ScoresSound(db) && id < |db.attempts|
    ensures RowsAgree(Finalized(db, id, now), now) && ScoresSound(Finalized(db, id, now))
  {
    var db' := Finalized(db, id, now);
    if id !in db.scores {
      assert db'.scores == db.scores + [id];
      assert forall i :: i in db'.scores <==> i in db.scores || i == id;
    }
  }

  lemma ServingKeepsScores(db: Tables, r: Request, now: Instant, cfg: Settings)
    requires RowsAgree(db, now) && ScoresSound(db)
    ensures RowsAgree(Served(db, r, now, cfg).0, now) && ScoresSound(Served(db, r, now, cfg).0)
  {
    hide Finalized;
    if r.SubmitExam? && r.id < |db.attempts| {
      FinalizingKeepsScores(db, r.id, now);
    } else if r.ProviderResult? && r.id < |db.attempts| {
      FinalizingKeepsScores(db, r.id, now);
    }
  }

  lemma ServingKeepsInv(db: Tables, r: Request, clock: Instant, now: Instant, cfg: Settings)
    requires Inv(db, clock, cfg) && clock <= now
    ensures Inv(Served(db, r, now, cfg).0, now, cfg)
  {
    hide Served, AllWaited, ScoresSound;
    assert RowsAgree(db, now);
    hide RowsAgree;
    ServingKeepsScores(db, r, now, cfg);
    WaitingIsKept(db, r, now, cfg);
  }

  datatype Timed = Timed(request: Request, now: Instant)

  ghost predicate InOrder(clock: Instant, rs: seq<Timed>)
    decreases |rs|
  {
    rs != [] ==> clock <= rs[0].now && InOrder(rs[0].now, rs[1..])
  }

  function After(db: Tables, rs: seq<Timed>, cfg: Settings): Tables
    decreases |rs|
  {
    if rs == [] then db else After(Served(db, rs[0].request, rs[0].now, cfg).0, rs[1..], cfg)
  }

  function Clock(clock: Instant, rs: seq<Timed>): Instant {
    if rs == [] then clock else rs[|rs| - 1].now
  }

  /**
   Over every run of requests in time order: an attempt is completed exactly when it has its
   one score, what is completed never changes, and cooldowns are waited out.
   */
  lemma {:induction false} RunsKeepInv(db: Tables, clock: Instant, rs: seq<Timed>, cfg: Settings)
    requires Inv(db, clock, cfg) && InOrder(clock, rs)
    ensures var db' := After(db, rs, cfg);
            && Inv(db', Clock(clock, rs), cfg)
            && |db.attempts| <= |db'.attempts|
            && forall i :: 0 <= i < |db.attempts| && db.attempts[i].status.Completed?
                ==> db'.attempts[i] == db.attempts[i]
    decreases |rs|
  {
    if rs != [] {
      ServingKeepsInv(db, rs[0].request, clock, rs[0].now, cfg);
      RequestStepsAttempts(db, rs[0].request, rs[0].now, cfg, clock);
      RunsKeepInv(Served(db, rs[0].request, rs[0].now, cfg).0, rs[0].now, rs[1..], cfg);
      assert Clock(clock, rs) == Clock(rs[0].now, rs[1..]);
    }
  }

  // ---- What is refused, and what is answered ----

  /** The candidate completed this test, and the cooldown is not over: days of 86 400 000 milliseconds. */
  predicate StillCooling(a: Attempt, candidateId: CandidateId, testId: TestId, days: int, now: Instant) {
    && a.candidateId == candidateId && a.testId == testId && a.status.Completed?
    && a.completedAt.Some? && a.completedAt.value + days * 86_400_000 > now
  }

  predicate Occupies(a: Attempt, candidateId: CandidateId, testId: TestId) {
    a.candidateId == candidateId && a.testId == testId && (a.status.Pending? || a.status.InProgress?)
  }

  lemma CooldownRefusesIff(db: Tables, candidateId: CandidateId, testId: TestId, now: Instant, cfg: Settings)
    requires forall i :: 0 <= i < |db.attempts| && db.attempts[i].status.Completed? ==> db.attempts[i].completedAt.Some?
    requires !HasOpen(db.attempts, candidateId, testId)
    ensures Eligibility(db.attempts, candidateId, testId, now, cfg)
            == if exists i :: 0 <= i < |db.attempts|
                              && StillCooling(db.attempts[i], candidateId, testId, cfg.cooldownDays, now)
               then Some(CooldownActive) else None
  {
    var last := LastCompleted(db.attempts, candidateId, testId);
    if i :| 0 <= i < |db.attempts| && StillCooling(db.attempts[i], candidateId, testId, cfg.cooldownDays, now) {
      assert ComesBefore(last.value, db.attempts[i]);
    }
    if last.Some? {
      var k :| 0 <= k < |db.attempts| && db.attempts[k] == last.value;
      assert StillCooling(db.attempts[k], candidateId, testId, cfg.cooldownDays, now)
             <==> last.value.completedAt.value + cfg.cooldownDays * 86_400_000 > now;
    }
  }

  /**
   Which starts are refused, and why: no such test, an inactive one, an attempt at it that is
   pending or running, or one completed whose cooldown is not over. Nothing changes then; else
   one running attempt is added that begins now.
   */
  lemma StartIsRefusedIff(db: Tables, clock: Instant, candidateId: CandidateId, testId: TestId, test: Option<Test>,
          token: ResumeToken, now: Instant, cfg: Settings)
    requires Inv(db, clock, cfg)
    ensures var (db', e) := Served(db, Start(candidateId, testId, test, token), now, cfg);
            && (e == Some(TestNotFound) <==> test.None?)
            && (e == Some(TestNotActive) <==> test == Some(Test(false)))
            && (e == Some(AlreadyInProgress)
                <==> && test == Some(Test(true))
                     && exists i :: 0 <= i < |db.attempts| && Occupies(db.attempts[i], candidateId, testId))
            && (e == Some(CooldownActive)
                <==> && test == Some(Test(true))
                     && (forall i :: 0 <= i < |db.attempts| ==> !Occupies(db.attempts[i], candidateId, testId))
                     && exists i :: 0 <= i < |db.attempts|
                                    && StillCooling(db.attempts[i], candidateId, testId, cfg.cooldownDays, now))
            && (e.Some? ==> db' == db && (e.value.TestNotFound? || e.value.TestNotActive?
                                          || e.value.AlreadyInProgress? || e.value.CooldownActive?))
            && var started := Attempt(candidateId, testId, InProgress, token, now, None, 0, 0, false);
            (e.None? ==> db' == Tables(db.attempts + [started], db.scores))
  {
    hide Eligibility, LastCompleted;
    if test == Some(Test(true)) {
      assert forall i :: 0 <= i < |db.attempts| ==> Occupies(db.attempts[i], candidateId, testId)
                                                     == IsOpenFor(db.attempts[i], candidateId, testId);
      if HasOpen(db.attempts, candidateId, testId) {
        OpenRefuses(db.attempts, candidateId, testId, now, cfg);
      } else {
        CooldownRefusesIff(db, candidateId, testId, now, cfg);
      }
    }
  }

  lemma OpenRefuses(attempts: seq<Attempt>, candidateId: CandidateId, testId: TestId, now: Instant, cfg: Settings)
    requires HasOpen(attempts, candidateId, testId)
    ensures Eligibility(attempts, candidateId, testId, now, cfg) == Some(AlreadyInProgress)
  {
  }

  /** The candidate's own attempt, and in that status. */
  predicate IsOwn(db: Tables, candidateId: CandidateId, id: nat, status: Status) {
    id < |db.attempts| && db.attempts[id].candidateId == candidateId && db.attempts[id].status == status
  }

  /** A submission counts until two minutes after the time the exam allows; after that it voids the attempt. */
  lemma SubmissionIsScoredIff(db: Tables, clock: Instant, candidateId: CandidateId, id: nat, budgetSeconds: int,
          now: Instant, cfg: Settings)
    requires Inv(db, clock, cfg)
    ensures var (db', e) := Served(db, SubmitExam(candidateId, id, budgetSeconds), now, cfg);
            if !IsOwn(db, candidateId, id, InProgress) then e.Some? && db' == db
            else
              var a, inTime := db.attempts[id], now <= db.attempts[id].startedAt + budgetSeconds * 1000 + 120_000;
              && e == (if inTime then None else Some(TimeExceeded))
              && db'.scores == db.scores + (if inTime then [id] else [])
              && db'.attempts == db.attempts[id := if inTime then a.(status := Completed, completedAt := Some(now))
                                                   else a.(status := Incident)]
  {
    assert IsOwn(db, candidateId, id, InProgress) ==> id !in db.scores;
  }

  /** Reported counts only raise what is stored; their sum flags from one bound on, and voids from the other. */
  lemma ProctoringMeans(db: Tables, candidateId: CandidateId, id: nat, tabSwitches: int, windowBlurs: int,
          now: Instant, cfg: Settings)
    ensures var (db', e) := Served(db, RecordProctoring(candidateId, id, tabSwitches, windowBlurs), now, cfg);
            if !IsOwn(db, candidateId, id, InProgress) then e.Some? && db' == db
            else
              && e.None? && |db'.attempts| == |db.attempts| && db'.scores == db.scores
              && (forall k :: 0 <= k < |db.attempts| && k != id ==> db'.attempts[k] == db.attempts[k])
              && var a, a' := db.attempts[id], db'.attempts[id];
              var leaves := a'.tabSwitches + a'.windowBlurs;
              && a'.tabSwitches >= a.tabSwitches && a'.tabSwitches >= tabSwitches
              && (a'.tabSwitches == a.tabSwitches || a'.tabSwitches == tabSwitches)
              && a'.windowBlurs >= a.windowBlurs && a'.windowBlurs >= windowBlurs
              && (a'.windowBlurs == a.windowBlurs || a'.windowBlurs == windowBlurs)
              && (a'.proctoringFlagged <==> a.proctoringFlagged || leaves >= cfg.leaveThreshold)
              && a'.status == (if leaves >= cfg.hardThreshold then Incident else InProgress)
              && a'.startedAt == a.startedAt && a'.completedAt == a.completedAt && a'.resumeToken == a.resumeToken
  {
  }

  /** A provider's result completes any attempt that has no score yet, whatever became of it, and only once. */
  lemma ResultIsStoredIff(db: Tables, id: nat, available: bool, now: Instant, cfg: Settings)
    ensures var (db', e) := Served(db, ProviderResult(id, available), now, cfg);
            && (e == Some(AttemptNotFound) <==> id >= |db.attempts|)
            && (e == Some(NoResult) <==> id < |db.attempts| && id !in db.scores && !available)
            && (if id < |db.attempts| && id !in db.scores && available then
                  && e.None? && db'.scores == db.scores + [id]
                  && db'.attempts == db.attempts[id := db.attempts[id].(status := Completed, completedAt := Some(now))]
                else db' == db)
  {
  }

  /** Interrupting and resuming: who may, and that one resume uses its token up. */
  lemma InterruptedAndResumed(db: Tables, candidateId: CandidateId, id: nat, presented: ResumeToken,
          token: ResumeToken, now: Instant, cfg: Settings)
    ensures var (db', e) := Served(db, Request.ReportIncident(candidateId, id), now, cfg);
            if IsOwn(db, candidateId, id, InProgress)
            then e.None? && db' == db.(attempts := db.attempts[id := db.attempts[id].(status := Incident)])
            else e.Some? && db' == db
    ensures var (db', e) := Served(db, Resume(candidateId, id, presented, token), now, cfg);
            if IsOwn(db, candidateId, id, Incident) && db.attempts[id].resumeToken == presented
            then e.None? && db'
                == db.(attempts := db.attempts[id := db.attempts[id].(status := InProgress, resumeToken := token)])
            else e.Some? && db' == db
    ensures token != presented && Served(db, Resume(candidateId, id, presented, token), now, cfg).1.None?
            ==> var db2 := Served(Served(db, Resume(candidateId, id, presented, token), now, cfg).0,
                                  Request.ReportIncident(candidateId, id), now, cfg).0;
                Served(db2, Resume(candidateId, id, presented, token), now, cfg).1 == Some(InvalidResumeToken)
  {
  }

  // ---- One running attempt per exam? ----

  ghost predicate OneInProgress(attempts: seq<Attempt>) {
    forall i, j :: 0 <= i < j < |attempts| && attempts[i].status.InProgress? && attempts[j].status.InProgress?
                   ==> !SameExam(attempts[i], attempts[j])
  }

  ghost predicate RunsElsewhere(attempts: seq<Attempt>, id: nat)
    requires id < |attempts|
  {
    exists j :: 0 <= j < |attempts| && attempts[j].status.InProgress? && SameExam(attempts[j], attempts[id])
  }

  /** A candidate resumes an interrupted attempt of theirs, with its current token, though the exam runs elsewhere. */
  ghost predicate ResumesTwice(attempts: seq<Attempt>, r: Request) {
    && r.Resume? && r.id < |attempts|
    && attempts[r.id].candidateId == r.candidateId && attempts[r.id].status.Incident?
    && attempts[r.id].resumeToken == r.presented && RunsElsewhere(attempts, r.id)
  }

  /** One running attempt per exam is kept by every request but that one. */
  lemma OneInProgressIsKeptIff(db: Tables, r: Request, now: Instant, cfg: Settings)
    requires OneInProgress(db.attempts)
    ensures OneInProgress(Served(db, r, now, cfg).0.attempts) <==> !ResumesTwice(db.attempts, r)
  {
    var (db', e) := Served(db, r, now, cfg);
    if r.Resume? && e.None? {
      ResumeBreaksIff(db.attempts, r.id, db'.attempts);
    }
  }

  lemma ResumeBreaksIff(attempts: seq<Attempt>, id: nat, attempts': seq<Attempt>)
    requires OneInProgress(attempts) && id < |attempts| == |attempts'| && attempts[id].status.Incident?
    requires attempts'[id].status.InProgress? && SameExam(attempts'[id], attempts[id])
    requires forall j :: 0 <= j < |attempts| && j != id ==> attempts'[j] == attempts[j]
    ensures OneInProgress(attempts') <==> !RunsElsewhere(attempts, id)
  {
    if j :| 0 <= j < |attempts| && attempts[j].status.InProgress? && SameExam(attempts[j], attempts[id]) {
      assert attempts'[j] == attempts[j];
      assert if j < id then SameExam(attempts'[j], attempts'[id]) else SameExam(attempts'[id], attempts'[j]);
    }
  }

  /** Start, incident, start again, resume: two attempts at one exam run side by side. */
  lemma TwoCanRunAtOnce(cfg: Settings)
    ensures !OneInProgress(After(Tables([], []),
                                 [Timed(Start(0, 0, Some(Test(true)), 1), 0), Timed(Request.ReportIncident(0, 0), 0),
                                  Timed(Start(0, 0, Some(Test(true)), 2), 0), Timed(Resume(0, 0, 1, 3), 0)],
                                      cfg).attempts)
  {
    var first := Attempt(0, 0, InProgress, 1, 0, None, 0, 0, false);
    var second := first.(resumeToken := 2);
    var start, restart := Start(0, 0, Some(Test(true)), 1), Start(0, 0, Some(Test(true)), 2);
    var halted, resumed := first.(status := Incident), first.(resumeToken := 3);
    assert Served(Tables([], []), start, 0, cfg).0 == Tables([first], []);
    assert Served(Tables([first], []), Request.ReportIncident(0, 0), 0, cfg).0 == Tables([halted], []);
    assert Served(Tables([halted], []), restart, 0, cfg).0 == Tables([halted, second], []);
    var last := Tables([resumed, second], []);
    assert Served(Tables([halted, second], []), Resume(0, 0, 1, 3), 0, cfg).0 == last;
    var rs := [Timed(start, 0), Timed(Request.ReportIncident(0, 0), 0), Timed(restart, 0),
        Timed(Resume(0, 0, 1, 3), 0)];
    assert After(Tables([], []), rs, cfg) == After(Tables([first], []), rs[1..], cfg);
    assert rs[1..][1..] == rs[2..] && rs[2..][1..] == rs[3..] && rs[3..][1..] == [];
    assert After(Tables([first], []), rs[1..], cfg) == After(Tables([halted], []), rs[2..], cfg);
    assert After(Tables([halted], []), rs[2..], cfg) == After(Tables([halted, second], []), rs[3..], cfg);
    assert After(Tables([halted, second], []), rs[3..], cfg) == After(last, [], cfg);
    assert last.attempts[0].status.InProgress? && last.attempts[1].status.InProgress?;
  }
}
