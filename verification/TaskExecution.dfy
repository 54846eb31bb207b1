/** Driving a transfer: the reducer (client_app/src/context/transferContext.tsx:168-305) and the
    execution and retry loops (client_app/src/context/taskProvider.tsx:380-763). Transactions,
    packet tracking and database writes answer arbitrarily, and any of the latter two may throw. */
module TaskExecution {
  import opened RouterTypes
  import opened TransferSteps
  import opened RouteResponses
  import opened PathFinding

  datatype Phase = Idle | Preparing | Executing | Tracking | Done | FailedPhase

  datatype TransferState = TransferState(
    phase: Phase,
    mode: TransferMode,
    steps: seq<TransferStep>,
    currentStepIndex: nat,
    dbRecordId: Option<nat>,
    error: Option<string>,
    chainPath: seq<ChainId>,
    multiHopProgress: Option<nat>)

  datatype StepChange = StepChange(status: StepStatus, txHash: Option<string>, error: Option<string>)

  datatype TransferAction =
    | StartPreparing
    | StartExecuting(steps: seq<TransferStep>, dbRecordId: nat, chainPath: seq<ChainId>)
    | UpdateStep(index: nat, change: StepChange)
    | AdvanceStep
    | CompleteTransfer
    | FailTransfer(error: string)
    | ResumeTransfer(resumed: seq<TransferStep>, currentStepIndex: nat, recordId: nat, path: seq<ChainId>)
    | SetMultiHopProgress(progress: Option<nat>)

  function Changed(step: TransferStep, c: StepChange): TransferStep {
    step.(status := c.status,
          txHash := if c.txHash.Some? then c.txHash else step.txHash,
          error := if c.error.Some? then c.error else step.error)
  }

  function TransferReducer(s: TransferState, a: TransferAction): TransferState {
    match a
    case StartPreparing => s.(phase := Preparing, error := None)
    case StartExecuting(steps, id, path) =>
      s.(phase := Executing, steps := steps, currentStepIndex := 0, dbRecordId := Some(id), chainPath := path, error := None)
    case UpdateStep(i, c) => if i < |s.steps| then s.(steps := s.steps[i := Changed(s.steps[i], c)]) else s
    case AdvanceStep =>
      var next := s.currentStepIndex + 1;
      s.(currentStepIndex := next, phase := if next >= |s.steps| then Tracking else s.phase)
    case CompleteTransfer => s.(phase := Done, error := None)
    case FailTransfer(e) => s.(phase := FailedPhase, error := Some(e))
    case ResumeTransfer(steps, i, id, path) =>
      s.(phase := Executing, steps := steps, currentStepIndex := i, dbRecordId := Some(id), chainPath := path, error := None)
    case SetMultiHopProgress(p) => s.(multiHopProgress := p)
  }

  datatype DbStatus = InProgress | Success | DbFailed
  datatype DbRecord = DbRecord(status: DbStatus, currentStep: nat, totalSteps: nat, progress: Option<nat>)

  /** UpdateTransactionStatus changes the fields it is given. */
  function Updated(r: DbRecord, status: Option<DbStatus>, currentStep: Option<nat>, progress: Option<nat>): DbRecord {
    r.(status := if status.Some? then status.value else r.status,
       currentStep := if currentStep.Some? then currentStep.value else r.currentStep,
       progress := if progress.Some? then progress else r.progress)
  }

  datatype StepResult = StepSent(txHash: string) | StepRejected(reason: string)
  datatype TrackResult = Tracked | NotTracked(why: string) | TrackThrew(exception: string)

  /** The outside world: its answer to the n-th question; hops: the percentages reported while the
      n-th question, a multi-hop tracking, is answered. */
  datatype World = World(
    execute: nat -> StepResult,
    track: nat -> TrackResult,
    hops: nat -> seq<nat>,
    writes: nat -> bool,
    knowsChain: ChainId -> bool)

  /** The progress a row ends with when the percentages are written one per question from question
      `at` on: the last whose write is accepted, or what it held before. */
  function StoredProgress(w: World, at: nat, percentages: seq<nat>, before: Option<nat>): Option<nat> {
    if percentages == [] then before
    else
      var n := |percentages| - 1;
      if w.writes(at + n) then Some(percentages[n]) else StoredProgress(w, at, percentages[..n], before)
  }

  datatype ExecutionResult = Succeeded | Rejected(error: string) | Threw(exception: string)

  // ---------------------------------------------------------------------------------------------
  // Progress
  // ---------------------------------------------------------------------------------------------

  /** One call of executeStep: for which step, whether that step was completed already, and the answer. */
  datatype Attempt = Attempt(index: nat, again: bool, result: StepResult)

  /** One write of the row's status: a failure's, a resumption's or the final one's, and whether it was accepted. */
  datatype Mark = Mark(status: DbStatus, accepted: bool)

  /** The history of one transfer: every attempt; for each completed step, whether the write that
      recorded it was accepted; whether the final write was; and every status write. */
  datatype Ledger = Ledger(attempts: seq<Attempt>, finishes: seq<bool>, concluded: bool, marks: seq<Mark>)

  const NOTHING_DONE := Ledger([], [], false, [])

  /** The status of the last accepted write; in progress before any. */
  function LastStatus(marks: seq<Mark>): DbStatus {
    if marks == [] then InProgress
    else if marks[|marks| - 1].accepted then marks[|marks| - 1].status else LastStatus(marks[..|marks| - 1])
  }

  function Marked(g: Ledger, status: DbStatus, accepted: bool): Ledger {
    g.(marks := g.marks + [Mark(status, accepted)])
  }

  lemma MarkSnoc(marks: seq<Mark>, m: Mark)
    ensures LastStatus(marks + [m]) == if m.accepted then m.status else LastStatus(marks)
  {
    assert (marks + [m])[..|marks|] == marks;
  }

  /** How a run that ended so has marked the row: not at all on success, as failed on a rejection;
      when it threw, at most in a write that was refused. */
  ghost predicate FailureMarked(before: seq<Mark>, after: seq<Mark>, r: ExecutionResult) {
    match r
    case Succeeded => after == before
    case Rejected(_) => after == before + [Mark(DbFailed, true)]
    case Threw(_) => after == before || after == before + [Mark(DbFailed, false)]
  }

  /** How many writes were accepted, and the last step whose write was, counted from one. */
  function Accepted(finishes: seq<bool>): (n: nat)
    ensures n <= |finishes|
  {
    if finishes == [] then 0
    else Accepted(finishes[..|finishes| - 1]) + if finishes[|finishes| - 1] then 1 else 0
  }

  function Refused(finishes: seq<bool>): (n: nat)
    ensures n + Accepted(finishes) == |finishes|
  {
    if finishes == [] then 0
    else Refused(finishes[..|finishes| - 1]) + if finishes[|finishes| - 1] then 0 else 1
  }

  function LastAccepted(finishes: seq<bool>): (n: nat)
    ensures n <= |finishes|
  {
    if finishes == [] then 0
    else if finishes[|finishes| - 1] then |finishes| else LastAccepted(finishes[..|finishes| - 1])
  }

  lemma FinishSnoc(finishes: seq<bool>, ok: bool)
    ensures Accepted(finishes + [ok]) == Accepted(finishes) + if ok then 1 else 0
    ensures LastAccepted(finishes + [ok]) == if ok then |finishes| + 1 else LastAccepted(finishes)
  {
    assert (finishes + [ok])[..|finishes|] == finishes;
  }

  lemma {:induction false} AllAccepted(finishes: seq<bool>)
    ensures Accepted(finishes) == |finishes| <==> forall i :: 0 <= i < |finishes| ==> finishes[i]
  {
    if finishes != [] {
      AllAccepted(finishes[..|finishes| - 1]);
    }
  }

  ghost predicate OnlyPrefix(steps: seq<TransferStep>, k: nat) {
    k <= |steps| && forall i :: 0 <= i < |steps| ==> (steps[i].status == Completed <==> i < k)
  }

  /** A completed step carries the hash that one of its own attempts was answered with. */
  ghost predicate Sent(attempts: seq<Attempt>, i: nat, txHash: Option<string>) {
    exists a :: a in attempts && a.index == i && a.result.StepSent? && txHash == Some(a.result.txHash)
  }

  /** Attempts go forward through the steps, never back to a completed one. */
  ghost predicate InOrder(attempts: seq<Attempt>, k: nat) {
    && (forall a :: a in attempts ==> !a.again && a.index <= k)
    && (forall i, j :: 0 <= i < j < |attempts| ==> attempts[i].index <= attempts[j].index)
  }

  ghost predicate Backed(steps: seq<TransferStep>, attempts: seq<Attempt>, k: nat) {
    k <= |steps| && forall i :: 0 <= i < k ==> Sent(attempts, i, steps[i].txHash)
  }

  function Min(a: int, b: int): nat
    requires a >= 0 && b >= 0
  {
    if a < b then a else b
  }

  /** State and row against the history, exactly. Completed steps are a prefix. The step index is the
      number of accepted writes for steps before the last; the row is at the last step whose write
      was accepted, or at the end once the final write was. Completion is never announced early. */
  ghost predicate Consistent(s: TransferState, r: Option<DbRecord>, g: Ledger) {
    var k := |g.finishes|;
    && s.steps != [] && s.dbRecordId.Some? && r.Some?
    && OnlyPrefix(s.steps, k)
    && s.currentStepIndex == Accepted(g.finishes[..Min(k, |s.steps| - 1)])
    && r.value.currentStep == (if g.concluded then |s.steps| else LastAccepted(g.finishes))
    && (g.concluded ==> k == |s.steps|)
    && (s.phase == Done ==> g.concluded)
    && r.value.status == LastStatus(g.marks)
    && (g.concluded <==> Mark(Success, true) in g.marks) && (r.value.status == Success ==> g.concluded)
    && s.phase != Tracking
  }

  /** A failure or resumption is written, or refused. */
  lemma StatusMarked(s: TransferState, r: Option<DbRecord>, g: Ledger, status: DbStatus, ok: bool)
    requires Consistent(s, r, g) && status != Success
    ensures Consistent(s, if ok then Some(Updated(r.value, Some(status), None, None)) else r, Marked(g, status, ok))
  {
    MarkSnoc(g.marks, Mark(status, ok));
  }

  /** The steps against the attempts. */
  ghost predicate Accounted(s: TransferState, g: Ledger) {
    InOrder(g.attempts, |g.finishes|) && Backed(s.steps, g.attempts, |g.finishes|)
  }

  ghost predicate OnTrack(s: TransferState, r: Option<DbRecord>, g: Ledger) {
    Consistent(s, r, g) && Accounted(s, g)
  }

  /** The step index lags by the number of refused writes for completed steps before the last, so it
      points at the first uncompleted step exactly if there is none; the row does exactly if the last
      write for a completed step was accepted, or no step is completed, or the final write was accepted. */
  ghost predicate Lag(s: TransferState, r: DbRecord, g: Ledger) {
    s.steps != [] && |g.finishes| <= |s.steps| &&
    var k, m := |g.finishes|, Min(|g.finishes|, |s.steps| - 1);
    && s.currentStepIndex + Refused(g.finishes[..m]) == m
    && (s.currentStepIndex == m <==> forall i :: 0 <= i < m ==> g.finishes[i])
    && s.currentStepIndex <= m && r.currentStep <= k
    && (r.currentStep == k <==> g.concluded || k == 0 || g.finishes[k - 1])
  }

  lemma LagExactly(s: TransferState, r: Option<DbRecord>, g: Ledger)
    requires Consistent(s, r, g)
    ensures Lag(s, r.value, g)
  {
    var m := Min(|g.finishes|, |s.steps| - 1);
    AllAccepted(g.finishes[..m]);
    assert forall i :: 0 <= i < m ==> g.finishes[..m][i] == g.finishes[i];
    LastIsExact(g.finishes);
  }

  lemma LastIsExact(finishes: seq<bool>)
    ensures LastAccepted(finishes) == |finishes| <==> finishes == [] || finishes[|finishes| - 1]
  {}

  /** The guard of the retry button (client_app/src/components/ui/tracking/transferTracker.tsx:114-118). */
  predicate CanRetry(s: TransferState) {
    s.phase == FailedPhase && s.currentStepIndex < |s.steps| && s.steps[s.currentStepIndex].status == Failed
  }

  /** Once the index lags behind, the button is never offered: it points at a completed step. */
  lemma LagBlocksRetry(s: TransferState, r: Option<DbRecord>, g: Ledger)
    requires Consistent(s, r, g)
    ensures CanRetry(s) ==> s.currentStepIndex == |g.finishes| < |s.steps|
    ensures s.currentStepIndex < |g.finishes| ==> !CanRetry(s)
  {
    LagExactly(s, r, g);
  }

  /** From the n-th question on, everything goes well. */
  ghost predicate Smooth(w: World, n: nat) {
    forall m :: m >= n ==> w.execute(m).StepSent? && w.track(m).Tracked? && w.writes(m)
  }

  /** From the n-th question on, every write is accepted, and tracking answers. */
  ghost predicate Unbroken(w: World, n: nat) {
    Accepting(w, n) && forall m :: m >= n ==> !w.track(m).TrackThrew?
  }

  ghost predicate Accepting(w: World, n: nat) {
    forall m :: m >= n ==> w.writes(m)
  }

  /** What comes of following a step that was sent, asking from question `at` on: in smart mode a
      step over several chains is tracked along its path, once a write has been accepted; otherwise
      any transfer to a configured chain is tracked there. The rest counts as arrived. */
  ghost function Arrival(w: World, at: nat, step: TransferStep, mode: TransferMode, chainPath: seq<ChainId>): TrackResult {
    if mode == Smart && step.kind in {MultiHop, MultiHopSwap, WasmExecution} then
      if |if step.transferOrder.Some? then step.transferOrder.value else chainPath| < 2 then Tracked
      else if !w.writes(at) then TrackThrew("database") else w.track(at + 1)
    else if step.kind != Swap && w.knowsChain(step.toChain) then w.track(at)
    else Tracked
  }

  /** The mode, the path and what the steps send stay as they were. */
  ghost predicate SameTransfer(s: TransferState, s': TransferState) {
    s'.mode == s.mode && s'.chainPath == s.chainPath && Plan(s'.steps) == Plan(s.steps)
  }

  lemma UpdateKeepsPlan(s: TransferState, i: nat, c: StepChange)
    ensures SameTransfer(s, TransferReducer(s, UpdateStep(i, c)))
  {
    var s' := TransferReducer(s, UpdateStep(i, c));
    assert |Plan(s'.steps)| == |Plan(s.steps)| && forall j :: 0 <= j < |s.steps| ==> Plan(s'.steps)[j] == Plan(s.steps)[j];
  }

  ghost predicate FreshAt(attempts: seq<Attempt>, k: nat) {
    forall a :: a in attempts && a.index == k ==> !a.result.StepSent?
  }

  /** No step was ever sent twice. */
  ghost predicate SentOnce(attempts: seq<Attempt>) {
    forall i, j :: 0 <= i < j < |attempts| && attempts[i].result.StepSent? && attempts[j].result.StepSent? ==>
      attempts[i].index != attempts[j].index
  }

  /** And one marked failed was never sent. */
  ghost predicate NeverResent(s: TransferState, g: Ledger) {
    var k := |g.finishes|;
    SentOnce(g.attempts) && (k < |s.steps| && s.steps[k].status == Failed ==> FreshAt(g.attempts, k))
  }

  /** No step was sent twice, and the first uncompleted one not at all. */
  ghost predicate Unsent(g: Ledger) {
    SentOnce(g.attempts) && FreshAt(g.attempts, |g.finishes|)
  }

  lemma AttemptLogged(s: TransferState, g: Ledger, a: Attempt)
    requires Accounted(s, g) && a.index == |g.finishes| && !a.again
    ensures Accounted(s, g.(attempts := g.attempts + [a]))
    ensures Unsent(g) ==> SentOnce(g.attempts + [a])
    ensures Unsent(g) && !a.result.StepSent? ==> Unsent(g.(attempts := g.attempts + [a]))
    ensures FreshAt(g.attempts + [a], a.index + 1)
  {
    forall i | 0 <= i < |g.finishes| ensures Sent(g.attempts + [a], i, s.steps[i].txHash) {
      assert Sent(g.attempts, i, s.steps[i].txHash);
      var b :| b in g.attempts && b.index == i && b.result.StepSent? && s.steps[i].txHash == Some(b.result.txHash);
      assert b in g.attempts + [a];
    }
    OrderSnoc(g.attempts, |g.finishes|, a);
    if Unsent(g) { SentOnceSnoc(g.attempts, a); }
  }

  lemma OrderSnoc(attempts: seq<Attempt>, k: nat, a: Attempt)
    requires InOrder(attempts, k) && a.index == k && !a.again
    ensures InOrder(attempts + [a], k) && FreshAt(attempts + [a], k + 1)
  {
    forall i | 0 <= i < |attempts| ensures attempts[i].index <= k {
      assert attempts[i] in attempts;
    }
  }

  lemma SentOnceSnoc(attempts: seq<Attempt>, a: Attempt)
    requires SentOnce(attempts) && FreshAt(attempts, a.index)
    ensures SentOnce(attempts + [a])
  {
    forall i | 0 <= i < |attempts| && attempts[i].result.StepSent? ensures attempts[i].index != a.index {
      assert attempts[i] in attempts;
    }
  }

  lemma StillBacked(s: TransferState, s': TransferState, g: Ledger)
    requires Accounted(s, g) && |g.finishes| <= |s'.steps|
    requires forall i :: 0 <= i < |g.finishes| ==> s'.steps[i].txHash == s.steps[i].txHash
    ensures Accounted(s', g)
  {}

  lemma StepBacked(s: TransferState, g: Ledger, txHash: string, ok: bool)
    requires Accounted(s, g) && |g.finishes| < |s.steps|
    requires LastSent(g, txHash) && s.steps[|g.finishes|].txHash == Some(txHash)
    ensures Accounted(s, g.(finishes := g.finishes + [ok]))
  {
    assert g.attempts[|g.attempts| - 1] in g.attempts;
  }

  /** The state and row a finished step leaves behind. */
  function AfterFinish(s: TransferState, i: nat, txHash: string, ok: bool): TransferState {
    var s' := TransferReducer(s, UpdateStep(i, StepChange(Completed, Some(txHash), None)));
    if ok && i + 1 < |s.steps| then TransferReducer(s', AdvanceStep) else s'
  }

  lemma StepFinished(s: TransferState, r: Option<DbRecord>, g: Ledger, txHash: string, ok: bool)
    requires Consistent(s, r, g) && |g.finishes| < |s.steps|
    ensures var i, g' := |g.finishes|, g.(finishes := g.finishes + [ok]);
            var s' := AfterFinish(s, i, txHash, ok);
            && Consistent(s', if ok then Some(Updated(r.value, None, Some(i + 1), None)) else r, g')
            && s'.currentStepIndex == s.currentStepIndex + (if ok && i + 1 < |s.steps| then 1 else 0)
            && s'.phase == s.phase
  {
    var i := |g.finishes|;
    FinishSnoc(g.finishes, ok);
    assert g.finishes[..i] == g.finishes == (g.finishes + [ok])[..i];
    assert (g.finishes + [ok])[..i + 1] == g.finishes + [ok];
  }

  /** The last attempt sent the step now under way. */
  ghost predicate LastSent(g: Ledger, txHash: string) {
    g.attempts != [] && var a := g.attempts[|g.attempts| - 1]; a.index == |g.finishes| && a.result == StepSent(txHash)
  }

  /** The attempts since `before` are one for each of the steps from k0 up to k, in order. */
  ghost predicate SubmittedOnce(before: seq<Attempt>, attempts: seq<Attempt>, k0: nat, k: nat) {
    && k0 <= k && |attempts| == |before| + (k - k0) && attempts[..|before|] == before
    && forall j :: |before| <= j < |attempts| ==> attempts[j].index == k0 + (j - |before|)
  }

  lemma SubmittedOneMore(before: seq<Attempt>, attempts: seq<Attempt>, attempts': seq<Attempt>, k0: nat, k: nat)
    requires SubmittedOnce(before, attempts, k0, k)
    requires |attempts'| == |attempts| + 1 && attempts'[..|attempts|] == attempts && attempts'[|attempts|].index == k
    ensures SubmittedOnce(before, attempts', k0, k + 1)
  {
    assert attempts'[..|before|] == attempts[..|before|];
    forall j | |before| <= j < |attempts| ensures attempts'[j].index == k0 + (j - |before|) {
      assert attempts'[j] == attempts[j];
    }
  }

  /** From one history to a later one, steps were only submitted once, sent and recorded, in order. */
  ghost predicate Advanced(g0: Ledger, g: Ledger) {
    && g0.finishes <= g.finishes && (forall j :: |g0.finishes| <= j < |g.finishes| ==> g.finishes[j])
    && SubmittedOnce(g0.attempts, g.attempts, |g0.finishes|, |g.finishes|)
    && (Unsent(g0) ==> Unsent(g))
  }

  ghost predicate OneMoreAttempt(g: Ledger, g': Ledger, i: nat) {
    |g'.attempts| == |g.attempts| + 1 && g'.attempts[..|g.attempts|] == g.attempts && g'.attempts[|g.attempts|].index == i
  }

  lemma AdvancedOneMore(g0: Ledger, g: Ledger, g': Ledger)
    requires Advanced(g0, g) && g'.finishes == g.finishes + [true]
    requires OneMoreAttempt(g, g', |g.finishes|) && (Unsent(g) ==> Unsent(g'))
    ensures Advanced(g0, g')
  {
    SubmittedOneMore(g0.attempts, g.attempts, g'.attempts, |g0.finishes|, |g.finishes|);
  }

  predicate IsMultiHopStep(step: TransferStep, mode: TransferMode) {
    (step.kind == MultiHopSwap || step.kind == MultiHop || step.kind == WasmExecution) && mode == Smart
  }

  function PathOf(step: TransferStep, chainPath: seq<ChainId>): seq<ChainId> {
    if step.transferOrder.Some? then step.transferOrder.value else chainPath
  }

  /** Whether the step's arrival is looked for at all. */
  predicate IsFollowed(w: World, step: TransferStep, mode: TransferMode, chainPath: seq<ChainId>) {
    if IsMultiHopStep(step, mode) then |PathOf(step, chainPath)| >= 2 else step.kind != Swap && w.knowsChain(step.toChain)
  }

  method PendingSteps(resp: RouteResponse, mode: TransferMode, ghost pf: Pathfinder, ghost req: RouteRequest) returns (steps: seq<TransferStep>)
    requires ResponseOk(pf, req, resp)
    ensures AllPending(steps) && |steps| == GetRouteStepCount(resp, mode) && StepsOf(resp, mode, steps)
  {
    steps := GenerateStepsFromResponse(resp, mode, pf, req);
  }

  class TaskProvider {
    var state: TransferState
    var record: Option<DbRecord>
    var executionLock: bool
    var clock: nat
    ghost var log: Ledger

    ghost predicate Inv()
      reads this
    {
      !executionLock && OnTrack(state, record, log)
    }

    /** Done or failed; on track if there is a record; done only with a successful one. */
    ghost predicate Outcome()
      reads this
    {
      && (record.Some? ==> Inv() && state.phase in {Done, FailedPhase})
      && (record.None? ==> state.phase == FailedPhase)
      && (state.phase == Done ==> record.Some? && record.value.status == Success)
    }

    /** The row says how the transfer ended. */
    ghost predicate RowTells()
      reads this
    {
      record.Some? && record.value.status == if state.phase == Done then Success else DbFailed
    }

    /** The transfer under way is the response's. */
    ghost predicate CarriesOut(resp: RouteResponse, mode: TransferMode)
      reads this
    {
      state.chainPath == ExtractChainPath(resp) && StepsOf(resp, mode, state.steps)
    }

    /** No step was sent twice, and the row is successful exactly if the final write was accepted. */
    ghost predicate NeatRun()
      reads this
    {
      NeverResent(state, log) && record.Some? && (record.value.status == Success <==> log.concluded)
    }

    /** A run of n steps has ended: done only with each submitted once, and done if nothing went
        wrong; no step was sent twice if the record is the run's own. Unless a write is refused or
        tracking throws, the row says how it ended. */
    ghost predicate Ended(smooth: bool, unbroken: bool, ownRecord: bool, n: nat)
      reads this
    {
      && (unbroken && n > 0 ==> RowTells())
      && (ownRecord && record.Some? ==> n > 0 && (record.value.status == Success <==> log.concluded))
      && Outcome() && !executionLock
      && (state.phase == Done ==> NeverResent(state, log) && SubmittedOnce([], log.attempts, 0, n))
      && (smooth && n > 0 ==> state.phase == Done)
      && (ownRecord && record.Some? ==> NeverResent(state, log))
    }

    constructor (mode: TransferMode)
      ensures state == TransferState(Idle, mode, [], 0, None, None, [], None)
      ensures record.None? && !executionLock && log == NOTHING_DONE && clock == 0
    {
      state := TransferState(Idle, mode, [], 0, None, None, [], None);
      record, executionLock, clock, log := None, false, 0, NOTHING_DONE;
    }

    method Dispatch(a: TransferAction)
      modifies this`state
      ensures state == TransferReducer(old(state), a)
      ensures a.UpdateStep? ==> SameTransfer(old(state), state)
    {
      if a.UpdateStep? { UpdateKeepsPlan(state, a.index, a.change); }
      state := TransferReducer(state, a);
    }

    /** UpdateTransactionStatus; false when it throws. */
    method Write(w: World, status: Option<DbStatus>, currentStep: Option<nat>, progress: Option<nat>) returns (ok: bool)
      requires record.Some?
      modifies this`record, this`clock
      ensures ok == w.writes(old(clock)) && clock == old(clock) + 1
      ensures record == if ok then Some(Updated(old(record).value, status, currentStep, progress)) else old(record)
    {
      ok := w.writes(clock);
      clock := clock + 1;
      if ok {
        record := Some(Updated(record.value, status, currentStep, progress));
      }
    }

    method ExecuteStep(w: World, i: nat) returns (r: StepResult)
      requires i < |state.steps|
      modifies this`clock, this`log
      ensures log == old(log).(attempts := old(log).attempts + [Attempt(i, state.steps[i].status == Completed, r)])
      ensures clock == old(clock) + 1 && r == w.execute(old(clock))
    {
      r := w.execute(clock);
      log := log.(attempts := log.attempts + [Attempt(i, state.steps[i].status == Completed, r)]);
      clock := clock + 1;
    }

    /** onHopComplete: the progress is shown, and stored if the write succeeds; a failure is only logged. */
    method ReportHops(w: World, percentages: seq<nat>)
      requires record.Some?
      modifies this`state, this`record, this`clock
      ensures state == old(state).(multiHopProgress := state.multiHopProgress)
      ensures percentages != [] ==> state.multiHopProgress == Some(percentages[|percentages| - 1])
      ensures record == Some(old(record).value.(progress := StoredProgress(w, old(clock), percentages, old(record).value.progress)))
      ensures clock == old(clock) + |percentages|
    {
      var i := 0;
      while i < |percentages|
        invariant 0 <= i <= |percentages| && clock == old(clock) + i
        invariant state == old(state).(multiHopProgress := state.multiHopProgress)
        invariant i > 0 ==> state.multiHopProgress == Some(percentages[i - 1])
        invariant record == Some(old(record).value.(progress := StoredProgress(w, old(clock), percentages[..i], old(record).value.progress)))
      {
        assert percentages[..i + 1][..i] == percentages[..i];
        var stored := Write(w, None, None, Some(percentages[i]));
        Dispatch(SetMultiHopProgress(Some(percentages[i])));
        i := i + 1;
      }
      assert percentages[..i] == percentages;
    }

    /** trackIbcTransfer for one hop, or trackSmartTransferMultiHop along the path. */
    method TrackStep(w: World, i: nat, step: TransferStep, mode: TransferMode, chainPath: seq<ChainId>, txHash: string)
      returns (r: TrackResult)
      requires i < |state.steps| && record.Some?
      modifies this`state, this`record, this`clock
      ensures state.phase == old(state.phase) && state.currentStepIndex == old(state.currentStepIndex)
      ensures state.dbRecordId == old(state.dbRecordId) && |state.steps| == |old(state.steps)|
      ensures forall j :: 0 <= j < |state.steps| && j != i ==> state.steps[j] == old(state.steps[j])
      ensures state.steps[i].status == old(state.steps[i].status) || state.steps[i].status == Confirming
      ensures record == Some(old(record).value.(progress :=
                if IsMultiHopStep(step, mode) && |PathOf(step, chainPath)| >= 2 && w.writes(old(clock))
                then StoredProgress(w, old(clock) + 2, w.hops(old(clock) + 1), Some(0)) else old(record).value.progress))
      ensures clock >= old(clock) && r == Arrival(w, old(clock), step, mode, chainPath)
      ensures SameTransfer(old(state), state)
      ensures !IsFollowed(w, step, mode, chainPath) ==> r.Tracked? && clock == old(clock)
    {
      var isIbcStep := step.kind != Swap;
      r := Tracked;
      if isIbcStep && !IsMultiHopStep(step, mode) {
        Dispatch(UpdateStep(i, StepChange(Confirming, Some(txHash), None)));
        if w.knowsChain(step.toChain) {
          r := w.track(clock);
          clock := clock + 1;
        }
      }
      if IsMultiHopStep(step, mode) {
        Dispatch(UpdateStep(i, StepChange(Confirming, Some(txHash), None)));
        if |PathOf(step, chainPath)| >= 2 {
          r := TrackAlongPath(w);
        }
      }
    }

    /** Tracking along the path, reporting each hop. */
    method TrackAlongPath(w: World) returns (r: TrackResult)
      requires record.Some?
      modifies this`state, this`record, this`clock
      ensures state == old(state).(multiHopProgress := state.multiHopProgress)
      ensures record == Some(old(record).value.(progress :=
                if w.writes(old(clock)) then StoredProgress(w, old(clock) + 2, w.hops(old(clock) + 1), Some(0)) else old(record).value.progress))
      ensures r == if w.writes(old(clock)) then w.track(old(clock) + 1) else TrackThrew("database")
      ensures r.TrackThrew? || state.multiHopProgress == None
      ensures clock > old(clock)
    {
      Dispatch(SetMultiHopProgress(Some(0)));
      var ok := Write(w, None, None, Some(0));
      if !ok { return TrackThrew("database"); }
      r := w.track(clock);
      var percentages := w.hops(clock);
      clock := clock + 1;
      ReportHops(w, percentages);
      if !r.TrackThrew? {
        Dispatch(SetMultiHopProgress(None));
      }
    }

    /** One iteration of the step loop, for a step the snapshot says is not completed: it is
        submitted once, and completed exactly if it was sent and tracked. */
    method RunStep(w: World, snapshot: seq<TransferStep>, i: nat, mode: TransferMode, chainPath: seq<ChainId>) returns (r: ExecutionResult)
      requires i == |log.finishes| < |state.steps| == |snapshot|
      requires OnTrack(state, record, log) && state.phase == Executing
      modifies this`state, this`record, this`clock, this`log
      ensures OnTrack(state, record, log) && |state.steps| == |snapshot|
      ensures OneMoreAttempt(old(log), log, i)
      ensures log.finishes == old(log).finishes || log.finishes == old(log).finishes + [r.Succeeded?]
      ensures r.Succeeded? ==> log.finishes == old(log).finishes + [true] && state.phase == Executing
      ensures forall j :: i < j < |snapshot| ==> state.steps[j] == old(state.steps[j])
      ensures r.Rejected? ==> state.phase == FailedPhase
      ensures clock >= old(clock) && (Smooth(w, old(clock)) ==> r.Succeeded?)
      ensures |log.finishes| == i + 1 <==>
                w.execute(old(clock)).StepSent? && Arrival(w, old(clock) + 1, snapshot[i], mode, chainPath).Tracked?
      ensures FailureMarked(old(log).marks, log.marks, r) && log.concluded == old(log).concluded
      ensures Unbroken(w, old(clock)) ==> !r.Threw?
      ensures w.execute(old(clock)).StepSent? && Arrival(w, old(clock) + 1, snapshot[i], mode, chainPath).TrackThrew? ==>
                r.Threw? && log.marks == old(log).marks
      ensures SameTransfer(old(state), state)
      ensures w.execute(old(clock)).StepSent? && !IsFollowed(w, snapshot[i], mode, chainPath) ==>
                log.finishes == old(log).finishes + [w.writes(old(clock) + 1)]
      ensures Unsent(old(log)) ==> NeverResent(state, log)
      ensures |log.finishes| == i + 1 ==> FreshAt(log.attempts, i + 1)
    {
      var sent := SubmitStep(w, i);
      if sent.StepRejected? {
        r := RejectStep(w, i, sent.reason);
        return;
      }
      r := FollowAndSettle(w, i, snapshot[i], mode, chainPath, sent.txHash);
    }

    /** What happens to a step once it is sent. */
    method FollowAndSettle(w: World, i: nat, step: TransferStep, mode: TransferMode, chainPath: seq<ChainId>, txHash: string)
      returns (r: ExecutionResult)
      requires i == |log.finishes| < |state.steps| && OnTrack(state, record, log) && state.phase == Executing && LastSent(log, txHash)
      requires state.steps[|log.finishes|].status == Signing
      modifies this`state, this`record, this`clock, this`log
      ensures OnTrack(state, record, log) && |state.steps| == |old(state.steps)| && SameTransfer(old(state), state)
      ensures log.attempts == old(log).attempts && log.concluded == old(log).concluded && clock >= old(clock)
      ensures log.finishes == old(log).finishes || log.finishes == old(log).finishes + [r.Succeeded?]
      ensures |log.finishes| == i + 1 <==> Arrival(w, old(clock), step, mode, chainPath).Tracked?
      ensures r.Succeeded? ==> log.finishes == old(log).finishes + [true] && state.phase == Executing
      ensures FailureMarked(old(log).marks, log.marks, r)
      ensures Arrival(w, old(clock), step, mode, chainPath).TrackThrew? ==> r.Threw? && log.marks == old(log).marks
      ensures (Smooth(w, old(clock)) ==> r.Succeeded?) && (Unbroken(w, old(clock)) ==> !r.Threw?)
      ensures r.Rejected? ==> state.phase == FailedPhase
      ensures !IsFollowed(w, step, mode, chainPath) ==> log.finishes == old(log).finishes + [w.writes(old(clock))]
      ensures |log.finishes| < |state.steps| ==> state.steps[|log.finishes|].status != Failed || log.finishes != old(log).finishes
      ensures forall j :: i < j < |state.steps| ==> state.steps[j] == old(state.steps[j])
    {
      var tracked := FollowStep(w, i, step, mode, chainPath, txHash);
      r := SettleStep(w, i, tracked, txHash);
    }

    /** A step that was sent is finished, given up or, if tracking threw, left as it is. */
    method SettleStep(w: World, i: nat, tracked: TrackResult, txHash: string) returns (r: ExecutionResult)
      requires i == |log.finishes| < |state.steps| && OnTrack(state, record, log) && state.phase == Executing && LastSent(log, txHash)
      requires state.steps[|log.finishes|].status in {Signing, Confirming}
      modifies this`state, this`record, this`clock, this`log
      ensures OnTrack(state, record, log) && |state.steps| == |old(state.steps)| && SameTransfer(old(state), state)
      ensures log.attempts == old(log).attempts && log.concluded == old(log).concluded && clock >= old(clock)
      ensures log.finishes == old(log).finishes + if tracked.Tracked? then [w.writes(old(clock))] else []
      ensures r.Succeeded? <==> tracked.Tracked? && w.writes(old(clock))
      ensures FailureMarked(old(log).marks, log.marks, r)
      ensures tracked.TrackThrew? ==> r.Threw? && log.marks == old(log).marks
      ensures r.Threw? ==> tracked.TrackThrew? || !w.writes(old(clock))
      ensures r.Rejected? ==> state.phase == FailedPhase
      ensures r.Succeeded? ==> state.phase == Executing
      ensures |log.finishes| < |state.steps| ==> state.steps[|log.finishes|].status != Failed || log.finishes != old(log).finishes
      ensures forall j :: i < j < |state.steps| ==> state.steps[j] == old(state.steps[j])
    {
      match tracked {
        case TrackThrew(e) => return Threw(e);
        case NotTracked(e) =>
          r := GiveUpStep(w, e);
        case Tracked =>
          r := FinishStep(w, i, txHash);
      }
    }

    method SubmitStep(w: World, i: nat) returns (r: StepResult)
      requires i == |log.finishes| < |state.steps| && state.phase == Executing && OnTrack(state, record, log)
      modifies this`state, this`clock, this`log
      ensures OnTrack(state, record, log) && state.phase == Executing
      ensures log == old(log).(attempts := old(log).attempts + [Attempt(i, false, r)]) && OneMoreAttempt(old(log), log, i)
      ensures |state.steps| == |old(state.steps)| && state.steps[|log.finishes|].status == Signing
      ensures forall j :: 0 <= j < |state.steps| && j != |log.finishes| ==> state.steps[j] == old(state.steps[j])
      ensures clock == old(clock) + 1 && r == w.execute(old(clock)) && SameTransfer(old(state), state)
      ensures SentOnce(old(log).attempts) && FreshAt(old(log).attempts, |log.finishes|) ==>
                SentOnce(log.attempts) && (r.StepRejected? ==> FreshAt(log.attempts, |log.finishes|))
      ensures FreshAt(log.attempts, |log.finishes| + 1)
    {
      Dispatch(UpdateStep(i, StepChange(Signing, None, None)));
      StillBacked(old(state), state, log);
      r := ExecuteStep(w, i);
      AttemptLogged(state, old(log), Attempt(i, false, r));
    }

    method FollowStep(w: World, i: nat, step: TransferStep, mode: TransferMode, chainPath: seq<ChainId>, txHash: string)
      returns (r: TrackResult)
      requires i == |log.finishes| < |state.steps| && state.phase == Executing && OnTrack(state, record, log)
      requires state.steps[|log.finishes|].status == Signing
      modifies this`state, this`record, this`clock
      ensures OnTrack(state, record, log) && state.phase == Executing
      ensures |state.steps| == |old(state.steps)| && state.steps[|log.finishes|].status in {Signing, Confirming}
      ensures forall j :: 0 <= j < |state.steps| && j != |log.finishes| ==> state.steps[j] == old(state.steps[j])
      ensures clock >= old(clock) && r == Arrival(w, old(clock), step, mode, chainPath)
      ensures SameTransfer(old(state), state)
      ensures !IsFollowed(w, step, mode, chainPath) ==> r.Tracked? && clock == old(clock)
    {
      r := TrackStep(w, i, step, mode, chainPath, txHash);
      StillBacked(old(state), state, log);
    }

    /** The step is marked failed in any case; the row exactly if the write is accepted. */
    method RejectStep(w: World, i: nat, reason: string) returns (r: ExecutionResult)
      requires i == |log.finishes| < |state.steps| && OnTrack(state, record, log)
      modifies this`state, this`record, this`clock, this`log
      ensures OnTrack(state, record, log) && SameTransfer(old(state), state)
      ensures log == old(log).(marks := old(log).marks + [Mark(DbFailed, w.writes(old(clock)))])
      ensures record.value.status == if w.writes(old(clock)) then DbFailed else old(record).value.status
      ensures |state.steps| == |old(state.steps)| && state.steps[|log.finishes|].status == Failed
      ensures state.steps[|log.finishes|].error == Some(reason)
      ensures forall j :: 0 <= j < |state.steps| && j != |log.finishes| ==> state.steps[j] == old(state.steps[j])
      ensures state.currentStepIndex == old(state).currentStepIndex && record.value.currentStep == old(record).value.currentStep
      ensures clock >= old(clock)
      ensures r == if w.writes(old(clock)) then Rejected(reason) else Threw("database")
      ensures r.Rejected? ==> state.phase == FailedPhase && state.error == Some(reason)
    {
      Dispatch(UpdateStep(i, StepChange(Failed, None, Some(reason))));
      StillBacked(old(state), state, log);
      var ok := Write(w, Some(DbFailed), None, None);
      StatusMarked(state, old(record), log, DbFailed, ok);
      log := Marked(log, DbFailed, ok);
      if !ok { return Threw("database"); }
      Dispatch(FailTransfer(reason));
      return Rejected(reason);
    }

    /** The transaction was sent but its packet was not seen to arrive: the step keeps its status. */
    method GiveUpStep(w: World, why: string) returns (r: ExecutionResult)
      requires |log.finishes| < |state.steps| && OnTrack(state, record, log)
      modifies this`state, this`record, this`clock, this`log
      ensures OnTrack(state, record, log)
      ensures state == old(state).(phase := FailedPhase, error := Some(why))
      ensures log == old(log).(marks := old(log).marks + [Mark(DbFailed, w.writes(old(clock)))])
      ensures record.value.status == if w.writes(old(clock)) then DbFailed else old(record).value.status
      ensures record.value.currentStep == old(record).value.currentStep && clock >= old(clock)
      ensures r == if w.writes(old(clock)) then Rejected(why) else Threw("database")
    {
      Dispatch(FailTransfer(why));
      var ok := Write(w, Some(DbFailed), None, None);
      StatusMarked(state, old(record), log, DbFailed, ok);
      log := Marked(log, DbFailed, ok);
      return if ok then Rejected(why) else Threw("database");
    }

    /** The step is completed in any case; the row follows exactly if the write succeeds, and the
        index exactly if it does and the step is not the last. */
    method FinishStep(w: World, i: nat, txHash: string) returns (r: ExecutionResult)
      requires i == |log.finishes| < |state.steps| && OnTrack(state, record, log) && state.phase == Executing && LastSent(log, txHash)
      modifies this`state, this`record, this`clock, this`log
      ensures OnTrack(state, record, log) && |state.steps| == |old(state.steps)|
      ensures r == if w.writes(old(clock)) then Succeeded else Threw("database")
      ensures clock == old(clock) + 1
      ensures log == old(log).(finishes := old(log).finishes + [r.Succeeded?])
      ensures state.currentStepIndex == old(state).currentStepIndex + if r.Succeeded? && |log.finishes| < |state.steps| then 1 else 0
      ensures record.value.currentStep == if r.Succeeded? then |log.finishes| else old(record).value.currentStep
      ensures record.value.status == old(record).value.status
      ensures state.phase == Executing && SameTransfer(old(state), state)
      ensures forall j :: |log.finishes| <= j < |state.steps| ==> state.steps[j] == old(state.steps[j])
    {
      Dispatch(UpdateStep(i, StepChange(Completed, Some(txHash), None)));
      StillBacked(old(state), state, log);
      var ok := Write(w, None, Some(i + 1), None);
      StepBacked(state, log, txHash, ok);
      StepFinished(old(state), old(record), log, txHash, ok);
      log := log.(finishes := log.finishes + [ok]);
      if !ok { return Threw("database"); }
      if i < |state.steps| - 1 {
        Dispatch(AdvanceStep);
      }
      return Succeeded;
    }

    /** executeStepsWithTracking, from a snapshot of the steps. On success every step from the
        first uncompleted one on has been submitted exactly once, in order. */
    method ExecuteStepsWithTracking(w: World, snapshot: seq<TransferStep>, startIndex: nat, mode: TransferMode, chainPath: seq<ChainId>)
      returns (r: ExecutionResult)
      requires snapshot == state.steps && startIndex <= |log.finishes|
      requires OnTrack(state, record, log) && state.phase == Executing
      modifies this`state, this`record, this`clock, this`log
      ensures OnTrack(state, record, log) && |state.steps| == |snapshot| && clock >= old(clock)
      ensures r.Succeeded? ==> |log.finishes| == |snapshot| && Advanced(old(log), log)
      ensures r.Rejected? ==> state.phase == FailedPhase
      ensures FailureMarked(old(log).marks, log.marks, r) && log.concluded == old(log).concluded
      ensures Unbroken(w, old(clock)) ==> !r.Threw?
      ensures SameTransfer(old(state), state)
      ensures Smooth(w, old(clock)) ==> r.Succeeded?
      ensures Unsent(old(log)) ==> NeverResent(state, log)
    {
      var i := startIndex;
      ghost var k0 := |log.finishes|;
      while i < |snapshot|
        invariant startIndex <= i <= |snapshot| == |state.steps|
        invariant OnTrack(state, record, log) && state.phase == Executing && clock >= old(clock)
        invariant |log.finishes| == if i <= k0 then k0 else i
        invariant Advanced(old(log), log)
        invariant log.marks == old(log).marks && log.concluded == old(log).concluded && SameTransfer(old(state), state)
        invariant forall j :: 0 <= j < |snapshot| && j >= i ==> state.steps[j] == snapshot[j]
      {
        if snapshot[i].status == Completed {
          i := i + 1;
          continue;
        }
        assert |log.finishes| == i;
        ghost var soFar := log;
        r := RunStep(w, snapshot, i, mode, chainPath);
        if !r.Succeeded? { return; }
        AdvancedOneMore(old(log), soFar, log);
        i := i + 1;
      }
      return Succeeded;
    }

    /** The end of executeTransfer and retryStep: announce success. */
    method Conclude(w: World) returns (ok: bool)
      requires |log.finishes| == |state.steps| && OnTrack(state, record, log)
      modifies this`state, this`record, this`clock, this`log
      ensures OnTrack(state, record, log) && state.steps == old(state.steps)
      ensures log == old(log).(concluded := old(log).concluded || ok, marks := old(log).marks + [Mark(Success, ok)])
      ensures SameTransfer(old(state), state)
      ensures if ok then state.phase == Done && record.value.status == Success else state == old(state) && record == old(record)
      ensures ok == w.writes(old(clock)) && clock == old(clock) + 1
    {
      ok := Write(w, Some(Success), Some(|state.steps|), None);
      MarkSnoc(log.marks, Mark(Success, ok));
      log := Marked(log, Success, ok);
      if !ok { return; }
      log := log.(concluded := true);
      Dispatch(CompleteTransfer);
    }

    /** The whole transfer. A call while another is running changes nothing, except that an
        unsuccessful response fails the transfer shown. Otherwise it ends done, with every step
        submitted once, completed and the row marked successful, or failed; and done if nothing
        goes wrong. */
    method ExecuteTransfer(w: World, resp: RouteResponse, mode: TransferMode, ghost pf: Pathfinder, ghost req: RouteRequest)
      requires ResponseOk(pf, req, resp)
      requires !executionLock && record.Some? ==> Inv()
      modifies this
      ensures old(executionLock) ==> executionLock && record == old(record) && clock == old(clock) && log == old(log)
      ensures old(executionLock) ==>
                state == if resp.Impossible? then TransferReducer(old(state), FailTransfer("Invalid transfer state")) else old(state)
      ensures !old(executionLock) ==> Ended(Smooth(w, old(clock)), Unbroken(w, old(clock)), old(record).None?, GetRouteStepCount(resp, mode))
      ensures !old(executionLock) && old(record).None? && record.Some? ==> CarriesOut(resp, mode)
    {
      if resp.Impossible? {
        Dispatch(FailTransfer("Invalid transfer state"));
        return;
      }
      if executionLock { return; }
      Launch(w, resp, mode, pf, req);
    }

    method Launch(w: World, resp: RouteResponse, mode: TransferMode, ghost pf: Pathfinder, ghost req: RouteRequest)
      requires ResponseOk(pf, req, resp) && (record.Some? ==> OnTrack(state, record, log))
      modifies this
      ensures Ended(Smooth(w, old(clock)), Unbroken(w, old(clock)), old(record).None?, GetRouteStepCount(resp, mode))
      ensures old(record).None? && record.Some? ==> CarriesOut(resp, mode)
    {
      var steps := PendingSteps(resp, mode, pf, req);
      RecordAndRun(w, steps, mode, ExtractChainPath(resp), resp);
    }

    /** The transfer fails before it has begun. */
    method Abandon(why: string)
      requires record.Some? ==> OnTrack(state, record, log)
      modifies this`state, this`executionLock
      ensures Outcome() && !executionLock && state.phase == FailedPhase
    {
      Dispatch(FailTransfer(why));
      executionLock := false;
    }

    /** The body of executeTransfer once it has its steps; the lock is taken. */
    method RecordAndRun(w: World, steps: seq<TransferStep>, mode: TransferMode, chainPath: seq<ChainId>, ghost resp: RouteResponse)
      requires AllPending(steps) && (record.Some? ==> OnTrack(state, record, log))
      requires StepsOf(resp, mode, steps) && chainPath == ExtractChainPath(resp)
      modifies this
      ensures Ended(Smooth(w, old(clock)), Unbroken(w, old(clock)), old(record).None?, |steps|)
      ensures old(record).None? && record.Some? ==> CarriesOut(resp, mode)
    {
      executionLock := true;
      if |steps| == 0 {
        Abandon("No steps generated from route");
        return;
      }
      var added := w.writes(clock);
      clock := clock + 1;
      if !added {
        Abandon("database");
        return;
      }
      StartAndRun(w, steps, mode, chainPath, resp);
      executionLock := false;
      assert OnTrack(state, record, log);
    }

    method StartAndRun(w: World, steps: seq<TransferStep>, mode: TransferMode, chainPath: seq<ChainId>, ghost resp: RouteResponse)
      requires steps != [] && AllPending(steps) && StepsOf(resp, mode, steps) && chainPath == ExtractChainPath(resp)
      modifies this`state, this`record, this`clock, this`log
      ensures OnTrack(state, record, log) && NeverResent(state, log)
      ensures state.phase in {Done, FailedPhase}
      ensures state.phase == Done ==> record.value.status == Success && SubmittedOnce([], log.attempts, 0, |steps|)
      ensures Smooth(w, old(clock)) ==> state.phase == Done
      ensures Unbroken(w, old(clock)) ==> RowTells()
      ensures record.value.status == Success <==> log.concluded
      ensures CarriesOut(resp, mode)
    {
      record, log := Some(DbRecord(InProgress, 0, |steps|, None)), NOTHING_DONE;
      Dispatch(StartExecuting(steps, 0, chainPath));
      JustStarted(state, record);
      var r := ExecuteStepsWithTracking(w, steps, 0, mode, chainPath);
      FinishRun(w, r);
      SamePlanSendsTheSame(resp, mode, steps, state.steps);
    }

    method Fail(why: string)
      requires OnTrack(state, record, log)
      modifies this`state
      ensures OnTrack(state, record, log) && state == old(state).(phase := FailedPhase, error := Some(why))
    {
      Dispatch(FailTransfer(why));
      StillBacked(old(state), state, log);
    }

    /** Success is announced; a thrown error fails the transfer; a rejection already has. */
    method FinishRun(w: World, r: ExecutionResult)
      requires OnTrack(state, record, log)
      requires r.Succeeded? ==> |log.finishes| == |state.steps|
      requires r.Rejected? ==> state.phase == FailedPhase
      modifies this`state, this`record, this`clock, this`log
      ensures OnTrack(state, record, log) && log.attempts == old(log).attempts && log.finishes == old(log).finishes
      ensures state.phase in {Done, FailedPhase}
      ensures state.phase == Done ==> r.Succeeded? && record.value.status == Success
      ensures r.Succeeded? && w.writes(old(clock)) ==> state.phase == Done
      ensures state.steps == old(state.steps) && SameTransfer(old(state), state) && clock >= old(clock)
      ensures log.marks == old(log).marks + if r.Succeeded? then [Mark(Success, w.writes(old(clock)))] else []
      ensures log.concluded == (old(log).concluded || (r.Succeeded? && w.writes(old(clock))))
      ensures record.value.status == if r.Succeeded? && w.writes(old(clock)) then Success else old(record).value.status
    {
      if r.Succeeded? {
        var ok := Conclude(w);
        if !ok {
          Fail("database");
        }
      } else if r.Threw? {
        Fail(r.exception);
      }
    }

    /** The retry button: offered, and pressed, only on a failed step. No step is sent twice. */
    method HandleRetry(w: World)
      requires Inv()
      modifies this
      ensures Inv() && (state.phase in {Done, FailedPhase} || state == old(state))
      ensures state.phase == Done && old(state).phase != Done ==> record.value.status == Success
      ensures |state.steps| == |old(state.steps)|
      ensures old(NeverResent(state, log)) ==> NeverResent(state, log)
      ensures !old(CanRetry(state)) ==> state == old(state) && record == old(record) && log == old(log)
      ensures old(CanRetry(state)) && Smooth(w, old(clock)) ==> state.phase == Done
      ensures old(CanRetry(state)) && Accepting(w, old(clock)) ==> RowTells()
      ensures old(record.value.status == Success <==> log.concluded) ==> (record.value.status == Success <==> log.concluded)
      ensures clock >= old(clock) && SameTransfer(old(state), state)
    {
      if CanRetry(state) {
        LagBlocksRetry(state, record, log);
        assert !log.concluded;
        RetryStep(w);
      }
    }

    /** What holds of a transfer, however often it has been retried. */
    ghost predicate Upheld(w: World, byButton: bool, resp: RouteResponse, mode: TransferMode)
      reads this
    {
      && Outcome()
      && (record.Some? ==> (byButton ==> NeatRun()) && (Unbroken(w, 0) ==> RowTells()) && CarriesOut(resp, mode))
    }

    /** One retry, by the button or not. */
    method RetryOnce(w: World, byButton: bool, ghost resp: RouteResponse, ghost mode: TransferMode)
      requires Upheld(w, byButton, resp, mode) && record.Some?
      modifies this
      ensures Upheld(w, byButton, resp, mode) && record.Some?
    {
      if byButton {
        HandleRetry(w);
      } else {
        RetryStep(w);
      }
      SamePlanSendsTheSame(resp, mode, old(state).steps, state.steps);
    }

    /** Retrying where the step index points (transferTracker.tsx:107-110). Once things go well
        again, one retry finishes the transfer. */
    method RetryStep(w: World)
      requires Inv()
      modifies this
      ensures Inv() && state.phase in {Done, FailedPhase}
      ensures state.phase == Done ==> record.value.status == Success
      ensures |state.steps| == |old(state.steps)|
      ensures Smooth(w, old(clock)) ==> state.phase == Done
      ensures Accepting(w, old(clock)) ==> RowTells()
      ensures !old(log).concluded ==> (record.value.status == Success <==> log.concluded)
      ensures old(log).marks + [Mark(InProgress, w.writes(old(clock)))] <= log.marks
      ensures SameTransfer(old(state), state) && clock >= old(clock)
      ensures Unsent(old(log)) ==> NeverResent(state, log)
    {
      var stepIndex := state.currentStepIndex;
      var chainPath, mode := state.chainPath, state.mode;
      var ok := Resume(w);
      if !ok {
        Fail("database");
        RecordFailure(w);
        return;
      }
      Rerun(w, stepIndex, mode, chainPath);
    }

    /** The transfer is executing again from where it stood, and the row in progress if the write is accepted. */
    method Resume(w: World) returns (ok: bool)
      requires OnTrack(state, record, log)
      modifies this`state, this`record, this`clock, this`log
      ensures OnTrack(state, record, log) && SameTransfer(old(state), state)
      ensures state.phase == Executing && state.steps == old(state).steps && state.currentStepIndex == old(state).currentStepIndex
      ensures log == old(log).(marks := old(log).marks + [Mark(InProgress, w.writes(old(clock)))])
      ensures record.value.status == if ok then InProgress else old(record).value.status
      ensures ok == w.writes(old(clock)) && clock == old(clock) + 1
    {
      Dispatch(ResumeTransfer(state.steps, state.currentStepIndex, state.dbRecordId.value, state.chainPath));
      ok := Write(w, Some(InProgress), None, None);
      StatusMarked(state, old(record), log, InProgress, ok);
      log := Marked(log, InProgress, ok);
    }

    method Rerun(w: World, stepIndex: nat, mode: TransferMode, chainPath: seq<ChainId>)
      requires OnTrack(state, record, log) && state.phase == Executing && stepIndex <= |log.finishes| && !executionLock
      modifies this`state, this`record, this`clock, this`log
      ensures Inv() && state.phase in {Done, FailedPhase}
      ensures state.phase == Done ==> record.value.status == Success
      ensures |state.steps| == |old(state.steps)|
      ensures Smooth(w, old(clock)) ==> state.phase == Done
      ensures Accepting(w, old(clock)) ==> RowTells()
      ensures !old(log).concluded ==> (record.value.status == Success <==> log.concluded)
      ensures old(log).marks <= log.marks && SameTransfer(old(state), state) && clock >= old(clock)
      ensures Unsent(old(log)) ==> NeverResent(state, log)
    {
      var r := ExecuteStepsWithTracking(w, state.steps, stepIndex, mode, chainPath);
      MarkSnoc(old(log).marks, Mark(DbFailed, true));
      FinishRetry(w, r);
    }

    /** The end of retryStep: unlike executeTransfer, it also tries to mark the row when something threw. */
    method FinishRetry(w: World, r: ExecutionResult)
      requires OnTrack(state, record, log) && !executionLock
      requires r.Succeeded? ==> |log.finishes| == |state.steps|
      requires r.Rejected? ==> state.phase == FailedPhase && record.value.status == DbFailed
      modifies this`state, this`record, this`clock, this`log
      ensures Inv() && state.phase in {Done, FailedPhase}
      ensures state.phase == Done ==> r.Succeeded? && record.value.status == Success
      ensures state.steps == old(state).steps && SameTransfer(old(state), state)
      ensures log.attempts == old(log).attempts && log.finishes == old(log).finishes
      ensures r.Succeeded? && w.writes(old(clock)) ==> state.phase == Done
      ensures Accepting(w, old(clock)) ==> RowTells()
      ensures !old(log).concluded ==> (record.value.status == Success <==> log.concluded)
      ensures old(log).marks <= log.marks && clock >= old(clock)
    {
      FinishRun(w, r);
      if state.phase == FailedPhase && !r.Rejected? {
        RecordFailure(w);
      }
    }

    /** The catch clause of retryStep also tries to mark the row. */
    method RecordFailure(w: World)
      requires OnTrack(state, record, log) && !executionLock && state.phase == FailedPhase
      modifies this`record, this`clock, this`log
      ensures Inv() && record.value.currentStep == old(record).value.currentStep && clock == old(clock) + 1
      ensures log == old(log).(marks := old(log).marks + [Mark(DbFailed, w.writes(old(clock)))])
      ensures record.value.status == if w.writes(old(clock)) then DbFailed else old(record).value.status
    {
      var ok := Write(w, Some(DbFailed), None, None);
      StatusMarked(state, old(record), log, DbFailed, ok);
      log := Marked(log, DbFailed, ok);
    }
  }

  /** Any number of retries keeps everything on track, and a transfer announced as done has every
      step completed by a submission of its own, the row saying so. Retried by the button alone, no
      step is ever sent twice. */
  method RunTransfer(w: World, resp: RouteResponse, mode: TransferMode, retries: nat, byButton: bool, ghost pf: Pathfinder, ghost req: RouteRequest)
    returns (p: TaskProvider)
    requires ResponseOk(pf, req, resp)
    ensures p.Outcome()
    ensures p.state.phase == Done ==>
              forall i :: 0 <= i < |p.state.steps| ==>
                p.state.steps[i].status == Completed && Sent(p.log.attempts, i, p.state.steps[i].txHash)
    ensures byButton && p.record.Some? ==> SentOnce(p.log.attempts)
    ensures p.record.Some? ==> Lag(p.state, p.record.value, p.log) && p.record.value.status == LastStatus(p.log.marks)
    ensures byButton && p.record.Some? ==> (p.record.value.status == Success <==> p.log.concluded)
    ensures Unbroken(w, 0) && p.record.Some? ==> p.RowTells()
    ensures p.record.Some? ==> p.CarriesOut(resp, mode)
  {
    p := FirstRun(w, resp, mode, byButton, pf, req);
    var n := 0;
    while n < retries
      invariant p.Upheld(w, byButton, resp, mode)
    {
      if p.record.Some? {
        p.RetryOnce(w, byButton, resp, mode);
      }
      n := n + 1;
    }
    UpheldTells(w, p, byButton, resp, mode);
  }

  method FirstRun(w: World, resp: RouteResponse, mode: TransferMode, byButton: bool, ghost pf: Pathfinder, ghost req: RouteRequest)
    returns (p: TaskProvider)
    requires ResponseOk(pf, req, resp)
    ensures fresh(p) && p.Upheld(w, byButton, resp, mode)
  {
    p := new TaskProvider(mode);
    p.ExecuteTransfer(w, resp, mode, pf, req);
  }

  lemma UpheldTells(w: World, p: TaskProvider, byButton: bool, resp: RouteResponse, mode: TransferMode)
    requires p.Upheld(w, byButton, resp, mode)
    ensures p.state.phase == Done ==>
              forall i :: 0 <= i < |p.state.steps| ==>
                p.state.steps[i].status == Completed && Sent(p.log.attempts, i, p.state.steps[i].txHash)
    ensures p.record.Some? ==>
              && Lag(p.state, p.record.value, p.log) && p.record.value.status == LastStatus(p.log.marks)
              && (byButton ==> SentOnce(p.log.attempts) && (p.record.value.status == Success <==> p.log.concluded))
              && (Unbroken(w, 0) ==> p.RowTells()) && p.CarriesOut(resp, mode)
  {
    if p.record.Some? {
      LagExactly(p.state, p.record, p.log);
    }
  }

  /** A lagging run: the write that records the first of several steps is refused. The step is
      completed, index and row stay at it, and the retry button is not offered. */
  method FirstWriteRefused(w: World, steps: seq<TransferStep>, chainPath: seq<ChainId>) returns (p: TaskProvider)
    requires |steps| >= 2 && AllPending(steps) && steps[0].kind != Swap && !w.knowsChain(steps[0].toChain)
    requires w.execute(0).StepSent? && !w.writes(1)
    ensures OnTrack(p.state, p.record, p.log) && p.log.finishes == [false]
    ensures p.state.steps[0].status == Completed && p.state.currentStepIndex == 0 && p.record.value.currentStep == 0
    ensures p.state.phase == FailedPhase && !CanRetry(p.state)
  {
    p := new TaskProvider(Manual);
    p.record := Some(DbRecord(InProgress, 0, |steps|, None));
    p.Dispatch(StartExecuting(steps, 0, chainPath));
    JustStarted(p.state, p.record);
    var r := p.RunStep(w, steps, 0, Manual, chainPath);
    assert [] + [false] == [false];
    p.FinishRun(w, r);
    RefusedFirst(p.state, p.record, p.log);
  }

  /** A run whose row does not say how it ended: every write is accepted, but tracking throws, which
      fails the transfer and leaves the row in progress. */
  method ThrowLeavesRow(w: World, steps: seq<TransferStep>, chainPath: seq<ChainId>) returns (p: TaskProvider)
    requires steps != [] && AllPending(steps) && steps[0].kind == IbcTransfer && w.knowsChain(steps[0].toChain)
    requires w.execute(0).StepSent? && w.track(1).TrackThrew? && Accepting(w, 0)
    ensures OnTrack(p.state, p.record, p.log) && p.state.phase == FailedPhase && p.record.value.status == InProgress
  {
    p := new TaskProvider(Manual);
    p.record := Some(DbRecord(InProgress, 0, |steps|, None));
    p.Dispatch(StartExecuting(steps, 0, chainPath));
    JustStarted(p.state, p.record);
    var r := p.RunStep(w, steps, 0, Manual, chainPath);
    p.FinishRun(w, r);
  }

  lemma JustStarted(s: TransferState, r: Option<DbRecord>)
    requires s.steps != [] && AllPending(s.steps) && s.currentStepIndex == 0 && s.phase == Executing && s.dbRecordId.Some?
    requires r.Some? && r.value.status == InProgress && r.value.currentStep == 0
    ensures OnTrack(s, r, NOTHING_DONE)
  {}

  lemma RefusedFirst(s: TransferState, r: Option<DbRecord>, g: Ledger)
    requires Consistent(s, r, g) && g.finishes == [false] && |s.steps| >= 2
    ensures s.steps[0].status == Completed && s.currentStepIndex == 0 && r.value.currentStep == 0 && !CanRetry(s)
  {
    assert [false][..1] == [false] && [false][..0] == [];
    LagBlocksRetry(s, r, g);
  }
}
