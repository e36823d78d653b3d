/** One automation run: authorisation at run time, then the ordered step loop
    under a time budget (automations/executor.go, automations/authorize.go).

    Everything outside the control plane is an oracle: `StepWork` says what one
    action did and how long each call around it took. Local code takes no time. */
module AutomationSteps {
  import opened Base

  const RUN_BUDGET := 50 * SECOND
  const CLAIM_STALE_AFTER := RUN_BUDGET + MINUTE
  const ACTION_TIMEOUT := 10 * SECOND
  const HTTP_ACTION_MAX_TIMEOUT := 30 * SECOND
  const AUDIT_ATTEMPTS := 3
  const AUDIT_PAUSE := 200

  datatype ActionType = RedeployContainer | HttpRequest(timeoutSeconds: int) | UnknownAction(name: string)
  datatype Action = Action(kind: ActionType, continueOnError: bool)

  datatype StepStatus = StepPending | StepSucceeded | StepFailed | StepSkipped
  datatype StepResult = StepResult(step: nat, kind: ActionType, status: StepStatus,
                                   continueOnError: bool, startedAt: Option<int>)

  datatype Role = Viewer | Editor | Admin | OtherRole(name: string)
  datatype User = User(active: bool, role: Role)
  datatype TriggerType = Webhook | Schedule | UnknownTrigger(name: string)

  // Why a user may not be the identity of an automation. Steps are 1-based.
  datatype Refusal = NoUser | Deactivated | CannotRun | BadTrigger | TriggerNeeds(role: Role)
                   | UnknownStep(step: nat) | StepNeeds(step: nat, role: Role)

  // ── Authorisation ──────────────────────────────────────────────────────────

  function RoleRank(role: Role): nat {
    match role
    case Viewer => 1
    case Editor => 2
    case Admin => 3
    case OtherRole(_) => 0
  }

  predicate RoleAllows(have: Role, need: Role) {
    RoleRank(have) > 0 && RoleRank(have) >= RoleRank(need)
  }

  function TriggerRole(trigger: TriggerType): Option<Role> {
    match trigger
    case Webhook => Some(Admin)
    case Schedule => Some(Editor)
    case UnknownTrigger(_) => None
  }

  function RequiredRole(kind: ActionType): Option<Role> {
    match kind
    case RedeployContainer => Some(Editor)
    case HttpRequest(_) => Some(Admin)
    case UnknownAction(_) => None
  }

  function StepRefusal(user: User, action: Action, step: nat): Option<Refusal> {
    match RequiredRole(action.kind)
    case None => Some(UnknownStep(step))
    case Some(need) => if RoleAllows(user.role, need) then None else Some(StepNeeds(step, need))
  }

  // What Authorise refuses before it looks at any action.
  function IdentityRefusal(user: Option<User>, trigger: TriggerType): Option<Refusal> {
    if user.None? then Some(NoUser)
    else if !user.value.active then Some(Deactivated)
    else if RoleRank(user.value.role) == 0 then Some(CannotRun)
    else match TriggerRole(trigger)
      case None => Some(BadTrigger)
      case Some(need) => if RoleAllows(user.value.role, need) then None else Some(TriggerNeeds(need))
  }

  // The identity is good for the trigger and for every action.
  ghost predicate MayRun(user: Option<User>, trigger: TriggerType, actions: seq<Action>) {
    && IdentityRefusal(user, trigger).None?
    && forall i :: 0 <= i < |actions| ==> StepRefusal(user.value, actions[i], i + 1).None?
  }

  // Who may run what, role by role.
  ghost predicate RoleTable(user: Option<User>, trigger: TriggerType, actions: seq<Action>) {
    && user.Some? && user.value.active
    && match user.value.role
       case Admin => !trigger.UnknownTrigger? && forall i :: 0 <= i < |actions| ==> !actions[i].kind.UnknownAction?
       case Editor => trigger == Schedule && forall i :: 0 <= i < |actions| ==> actions[i].kind == RedeployContainer
       case _ => false
  }

  /** The ranks amount to this table: an admin may run any known trigger and
      actions, an editor scheduled redeploys, and no one else anything. */
  lemma MayRunIffTable(user: Option<User>, trigger: TriggerType, actions: seq<Action>)
    ensures MayRun(user, trigger, actions) <==> RoleTable(user, trigger, actions)
  {
    if user.Some? && user.value.active && user.value.role == Viewer {
      assert !RoleAllows(Viewer, Editor) && !RoleAllows(Viewer, Admin);
    }
    if MayRun(user, trigger, actions) {
      forall i | 0 <= i < |actions|
        ensures StepRefusal(user.value, actions[i], i + 1).None?
      {
      }
    }
  }

  /** Each refusal before the actions, and when it is given. */
  lemma IdentityRefusals(user: Option<User>, trigger: TriggerType)
    ensures IdentityRefusal(user, trigger) == Some(NoUser) <==> user.None?
    ensures IdentityRefusal(user, trigger) == Some(Deactivated) <==> user.Some? && !user.value.active
    ensures IdentityRefusal(user, trigger) == Some(CannotRun) <==>
              user.Some? && user.value.active && user.value.role.OtherRole?
    ensures IdentityRefusal(user, trigger) == Some(TriggerNeeds(Admin)) <==>
              && user.Some? && user.value.active && trigger == Webhook
              && (user.value.role == Viewer || user.value.role == Editor)
    ensures IdentityRefusal(user, trigger) == Some(TriggerNeeds(Editor)) <==>
              user.Some? && user.value.active && user.value.role == Viewer && trigger == Schedule
  {
  }

  /** Scans in order and reports the first objection, or none. */
  method Authorise(user: Option<User>, trigger: TriggerType, actions: seq<Action>) returns (refusal: Option<Refusal>)
    ensures refusal.None? <==> MayRun(user, trigger, actions)
    ensures refusal.None? <==> RoleTable(user, trigger, actions)
    ensures IdentityRefusal(user, trigger).Some? ==> refusal == IdentityRefusal(user, trigger)
    ensures refusal.Some? && IdentityRefusal(user, trigger).None? ==>
              exists i :: 0 <= i < |actions| && refusal == StepRefusal(user.value, actions[i], i + 1)
                          && forall j :: 0 <= j < i ==> StepRefusal(user.value, actions[j], j + 1).None?
  {
    MayRunIffTable(user, trigger, actions);
    hide RoleTable;
    refusal := IdentityRefusal(user, trigger);
    if refusal.Some? {
      return;
    }
    for i := 0 to |actions|
      invariant forall j :: 0 <= j < i ==> StepRefusal(user.value, actions[j], j + 1).None?
    {
      refusal := StepRefusal(user.value, actions[i], i + 1);
      if refusal.Some? {
        return;
      }
    }
    refusal := None;
  }

  /** Demoting or deactivating the identity never lets more run: what a user may
      run, every active user of at least that rank may run too, and a longer
      action list never needs less. */
  lemma AuthorityIsMonotone(user: User, stronger: User, trigger: TriggerType, actions: seq<Action>, more: seq<Action>)
    requires stronger.active && RoleRank(stronger.role) >= RoleRank(user.role)
    requires MayRun(Some(user), trigger, actions + more)
    ensures MayRun(Some(stronger), trigger, actions)
    ensures forall i :: 0 <= i < |actions| && actions[i].kind.HttpRequest? ==> user.role == Admin
    ensures trigger == Webhook ==> user.role == Admin
  {
    forall i | 0 <= i < |actions|
      ensures StepRefusal(user, actions[i], i + 1).None?
    {
      assert (actions + more)[i] == actions[i];
    }
  }

  // ── Step lists ─────────────────────────────────────────────────────────────

  function PendingStep(action: Action, i: nat): StepResult {
    StepResult(i + 1, action.kind, StepPending, action.continueOnError, None)
  }

  function PendingSteps(actions: seq<Action>): seq<StepResult> {
    seq(|actions|, i requires 0 <= i < |actions| => PendingStep(actions[i], i))
  }

  function SkipIfPending(s: StepResult): StepResult {
    if s.status == StepPending then s.(status := StepSkipped) else s
  }

  /** finishPending as a value: steps before `from` are kept, and no step from
      `from` on is left pending. */
  function FinishPending(steps: seq<StepResult>, from: nat): (out: seq<StepResult>)
    ensures |out| == |steps|
    ensures forall i :: 0 <= i < |out| && i < from ==> out[i] == steps[i]
    ensures forall i :: from <= i < |out| ==> out[i].status != StepPending
    ensures forall i :: from <= i < |out| && steps[i].status != StepPending ==> out[i] == steps[i]
  {
    seq(|steps|, i requires 0 <= i < |steps| => if i < from then steps[i] else SkipIfPending(steps[i]))
  }

  ghost predicate NoPending(steps: seq<StepResult>) {
    forall i :: 0 <= i < |steps| ==> steps[i].status != StepPending
  }

  lemma FinishPendingIsIdempotent(steps: seq<StepResult>, from: nat)
    ensures FinishPending(FinishPending(steps, from), from) == FinishPending(steps, from)
  {
    var once := FinishPending(steps, from);
    var twice := FinishPending(once, from);
    assert forall i :: 0 <= i < |steps| ==> twice[i] == once[i];
  }

  // ── One step ───────────────────────────────────────────────────────────────

  datatype AuditTry = AuditTry(ok: bool, took: nat)

  // What one action met. An HTTP call wants `wants`. A redeploy reads its stack
  // and the stack's containers, is `ready` if it found a container with a
  // worker, and then reads the registries. `fails` is the answer of the endpoint
  // or of the worker's queue. Then come the audit attempts and the progress write.
  datatype StepWork = StepWork(wants: nat, stackTook: nat, listTook: nat, ready: bool, registryTook: nat, fails: bool,
                               audits: seq<AuditTry>, persistTook: nat)

  // No store call takes longer than `d`.
  ghost predicate WorkWithin(w: StepWork, d: nat) {
    && |w.audits| == AUDIT_ATTEMPTS
    && w.stackTook <= d && w.listTook <= d && w.registryTook <= d && w.persistTook <= d
    && forall k :: 0 <= k < |w.audits| ==> w.audits[k].took <= d
  }

  function ActionTimeout(kind: ActionType): int {
    match kind
    case HttpRequest(t) =>
      if t <= 0 then ACTION_TIMEOUT
      else Min(t * SECOND, HTTP_ACTION_MAX_TIMEOUT)
    case _ => ACTION_TIMEOUT
  }

  function Deadline(kind: ActionType, clock: int, budgetEnd: int): int {
    Min(budgetEnd, clock + ActionTimeout(kind))
  }

  function LookedUp(w: StepWork, clock: int): int {
    clock + w.stackTook + w.listTook
  }

  // When an action started at `clock` returns. The context cuts an HTTP call; a
  // redeploy only looks at it between its look-ups and the registry read.
  function ActionEnd(action: Action, w: StepWork, clock: int, budgetEnd: int): int {
    var deadline := Deadline(action.kind, clock, budgetEnd);
    match action.kind
    case UnknownAction(_) => clock
    case HttpRequest(_) => Min(clock + w.wants, deadline)
    case RedeployContainer =>
      LookedUp(w, clock) + if w.ready && LookedUp(w, clock) < deadline then w.registryTook else 0
  }

  predicate StepFails(action: Action, w: StepWork, clock: int, budgetEnd: int) {
    var deadline := Deadline(action.kind, clock, budgetEnd);
    match action.kind
    case UnknownAction(_) => true
    case HttpRequest(_) => clock + w.wants > deadline || w.fails
    case RedeployContainer => !w.ready || LookedUp(w, clock) >= deadline || w.fails
  }

  // How long an HTTP call may take, from its configured seconds.
  predicate WithinHttpTimeout(took: nat, seconds: int) {
    took <= if seconds <= 0 then 10000 else if seconds >= 30 then 30000 else 1000 * seconds
  }

  // The action got what it was for: a 2xx answer in time, or a container with a
  // worker, found in time, whose command the worker's queue took.
  predicate ActionSucceeds(action: Action, w: StepWork, clock: int, budgetEnd: int) {
    match action.kind
    case UnknownAction(_) => false
    case HttpRequest(seconds) => !w.fails && WithinHttpTimeout(w.wants, seconds) && clock + w.wants <= budgetEnd
    case RedeployContainer =>
      && w.ready && !w.fails && w.stackTook + w.listTook < 10000 && clock + w.stackTook + w.listTook < budgetEnd
  }

  lemma FailsUnlessSucceeds(action: Action, w: StepWork, clock: int, budgetEnd: int)
    ensures StepFails(action, w, clock, budgetEnd) <==> !ActionSucceeds(action, w, clock, budgetEnd)
    // a redeploy that comes too late, or finds nothing, reads no registry
    ensures action.kind.RedeployContainer? ==>
              var looked := clock + w.stackTook + w.listTook;
              && (!w.ready || looked >= budgetEnd ==> ActionEnd(action, w, clock, budgetEnd) == looked)
              && (ActionSucceeds(action, w, clock, budgetEnd) ==>
                    ActionEnd(action, w, clock, budgetEnd) == looked + w.registryTook)
  {
  }

  // What the attempts from k on take.
  function AuditTook(audits: seq<AuditTry>, k: nat): nat
    decreases |audits| - k
  {
    if k >= |audits| then 0
    else audits[k].took + if audits[k].ok then 0 else AUDIT_PAUSE + AuditTook(audits, k + 1)
  }

  lemma {:induction false} AuditIsBounded(audits: seq<AuditTry>, k: nat, d: nat)
    requires k <= |audits| && forall i :: 0 <= i < |audits| ==> audits[i].took <= d
    ensures AuditTook(audits, k) <= (|audits| - k) * (d + AUDIT_PAUSE)
    ensures (forall i :: k <= i < |audits| ==> audits[i] == AuditTry(false, d)) ==>
              AuditTook(audits, k) == (|audits| - k) * (d + AUDIT_PAUSE)
    decreases |audits| - k
  {
    if k < |audits| {
      AuditIsBounded(audits, k + 1, d);
      assert (|audits| - k) * (d + AUDIT_PAUSE) == (|audits| - (k + 1)) * (d + AUDIT_PAUSE) + (d + AUDIT_PAUSE);
    }
  }

  /** audit: up to three attempts, a pause after each failure. */
  method Audit(w: StepWork, clock: int, ghost d: nat) returns (written: bool, after: int)
    requires WorkWithin(w, d)
    ensures after == clock + AuditTook(w.audits, 0) <= clock + AUDIT_ATTEMPTS * (d + AUDIT_PAUSE)
    ensures written <==> exists k :: 0 <= k < AUDIT_ATTEMPTS && w.audits[k].ok
  {
    AuditIsBounded(w.audits, 0, d);
    written, after := true, clock;
    for attempt := 0 to AUDIT_ATTEMPTS
      invariant after + AuditTook(w.audits, attempt) == clock + AuditTook(w.audits, 0)
      invariant forall k :: 0 <= k < attempt ==> !w.audits[k].ok
    {
      after := after + w.audits[attempt].took;
      if w.audits[attempt].ok {
        return;
      }
      after := after + AUDIT_PAUSE;
    }
    written := false;
  }

  // When the step is over: only a known action is audited.
  function StepEnd(action: Action, w: StepWork, clock: int, budgetEnd: int): int {
    ActionEnd(action, w, clock, budgetEnd) + if action.kind.UnknownAction? then 0 else AuditTook(w.audits, 0)
  }

  // The longest a step can run past the budget it started in: two look-ups and
  // one audit.
  function StepTail(d: nat): nat {
    2 * d + AUDIT_ATTEMPTS * (d + AUDIT_PAUSE)
  }

  lemma StepEndsInTime(action: Action, w: StepWork, clock: int, budgetEnd: int, d: nat)
    requires clock < budgetEnd && WorkWithin(w, d)
    ensures clock <= StepEnd(action, w, clock, budgetEnd) <= budgetEnd + StepTail(d)
  {
    AuditIsBounded(w.audits, 0, d);
  }

  /** runStep: what the step records, when it ends, and that it outlasts the
      budget by no more than its tail. */
  method RunStep(action: Action, i: nat, w: StepWork, clock: int, budgetEnd: int, ghost d: nat)
    returns (result: StepResult, after: int)
    requires clock < budgetEnd && WorkWithin(w, d)
    ensures result == StepResult(i + 1, action.kind,
                                 if StepFails(action, w, clock, budgetEnd) then StepFailed else StepSucceeded,
                                 action.continueOnError, Some(clock))
    ensures result.status == StepSucceeded <==> ActionSucceeds(action, w, clock, budgetEnd)
    ensures after == StepEnd(action, w, clock, budgetEnd) && clock <= after <= budgetEnd + StepTail(d)
  {
    StepEndsInTime(action, w, clock, budgetEnd, d);
    FailsUnlessSucceeds(action, w, clock, budgetEnd);
    var failed;
    failed, after := PerformAction(action, w, clock, Deadline(action.kind, clock, budgetEnd));
    result := StepResult(i + 1, action.kind, if failed then StepFailed else StepSucceeded, action.continueOnError,
                         Some(clock));
    if !action.kind.UnknownAction? {
      var written;
      written, after := Audit(w, after, d);
    }
  }

  // The execute of each kind of action, against its context's deadline.
  method PerformAction(action: Action, w: StepWork, clock: int, deadline: int) returns (failed: bool, after: int)
    requires deadline <= clock + ActionTimeout(action.kind)
    ensures failed == StepFails(action, w, clock, deadline) && after == ActionEnd(action, w, clock, deadline)
    ensures !failed <==> ActionSucceeds(action, w, clock, deadline)
  {
    FailsUnlessSucceeds(action, w, clock, deadline);
    match action.kind
    case UnknownAction(_) =>
      return true, clock;
    case HttpRequest(_) =>
      if clock + w.wants > deadline {
        return true, deadline;
      }
      return w.fails, clock + w.wants;
    case RedeployContainer =>
      after := clock + w.stackTook;
      after := after + w.listTook;
      if !w.ready || after >= deadline {
        return true, after;
      }
      after := after + w.registryTook;
      failed := w.fails;
  }

  // ── The step loop ──────────────────────────────────────────────────────────

  // When step k starts, if the loop gets there.
  function StartOf(actions: seq<Action>, works: seq<StepWork>, clock: int, k: nat): int
    requires k <= |actions| == |works|
  {
    if k == 0 then clock
    else
      var started := StartOf(actions, works, clock, k - 1);
      StepEnd(actions[k - 1], works[k - 1], started, clock + RUN_BUDGET) + works[k - 1].persistTook
  }

  predicate FailsAt(actions: seq<Action>, works: seq<StepWork>, clock: int, k: nat)
    requires k < |actions| == |works|
  {
    StepFails(actions[k], works[k], StartOf(actions, works, clock, k), clock + RUN_BUDGET)
  }

  // The step a loop entered at `clock` records when it runs action k.
  function RanStep(actions: seq<Action>, works: seq<StepWork>, clock: int, k: nat): StepResult
    requires k < |actions| == |works|
  {
    StepResult(k + 1, actions[k].kind, if FailsAt(actions, works, clock, k) then StepFailed else StepSucceeded,
               actions[k].continueOnError, Some(StartOf(actions, works, clock, k)))
  }

  // Step k starts within the budget, and lets the loop go on.
  predicate StartsInBudget(actions: seq<Action>, works: seq<StepWork>, clock: int, k: nat)
    requires k < |actions| == |works|
  {
    StartOf(actions, works, clock, k) < clock + RUN_BUDGET
  }

  predicate LetsOn(actions: seq<Action>, works: seq<StepWork>, clock: int, k: nat)
    requires k < |actions| == |works|
  {
    FailsAt(actions, works, clock, k) ==> actions[k].continueOnError
  }

  /** The shape of every step list an authorised run may record, given what the
      actions met and when the loop was entered. `ran` steps were started;
      `exhausted` says the budget ran out before step `ran` could start. */
  ghost predicate RunShape(actions: seq<Action>, works: seq<StepWork>, clock: int, steps: seq<StepResult>,
                           failedStep: Option<nat>, ran: nat, exhausted: bool)
    requires |works| == |actions|
  {
    && |steps| == |actions| && ran <= |actions|
    // executed steps form a prefix, start in the budget and report what their action did
    && (forall j :: 0 <= j < ran ==>
          StartsInBudget(actions, works, clock, j) && steps[j] == RanStep(actions, works, clock, j))
    // the others never started
    && (forall j :: ran <= j < |steps| ==>
          steps[j] == PendingStep(actions[j], j).(status := if exhausted && j == ran then StepFailed else StepSkipped))
    // the run went past a failure only where the action allows it
    && (forall j :: 0 <= j < ran && (j < ran - 1 || exhausted) ==> LetsOn(actions, works, clock, j))
    // and stopped early only for a failure or for the budget
    && (exhausted ==> ran < |actions| && !StartsInBudget(actions, works, clock, ran))
    && (ran < |actions| && !exhausted ==> ran > 0 && !LetsOn(actions, works, clock, ran - 1))
    && FirstFailure(steps, failedStep)
  }

  // failedStep is the 1-based number of the first failed step, if any.
  ghost predicate FirstFailure(steps: seq<StepResult>, failedStep: Option<nat>) {
    match failedStep
    case None => forall j :: 0 <= j < |steps| ==> steps[j].status != StepFailed
    case Some(k) =>
      && 1 <= k <= |steps| && steps[k - 1].status == StepFailed
      && forall j :: 0 <= j < k - 1 ==> steps[j].status != StepFailed
  }

  // The longest a loop can take: the budget, the tail of its last step and one
  // progress write.
  function LoopBound(d: nat): nat {
    RUN_BUDGET + StepTail(d) + d
  }

  ghost predicate AllWithin(works: seq<StepWork>, d: nat) {
    forall i :: 0 <= i < |works| ==> WorkWithin(works[i], d)
  }

  // However many steps a loop has, its last one started in the budget.
  lemma {:induction false} LoopEndsInTime(actions: seq<Action>, works: seq<StepWork>, clock: int, ran: nat, d: nat)
    requires ran <= |actions| == |works| && AllWithin(works, d)
    requires forall j :: 0 <= j < ran ==> StartsInBudget(actions, works, clock, j)
    ensures clock <= StartOf(actions, works, clock, ran) <= clock + LoopBound(d)
  {
    if ran > 0 {
      LoopEndsInTime(actions, works, clock, ran - 1, d);
      assert StartsInBudget(actions, works, clock, ran - 1);
      StepEndsInTime(actions[ran - 1], works[ran - 1], StartOf(actions, works, clock, ran - 1), clock + RUN_BUDGET, d);
    }
  }

  // Half-way through the loop: the first `i` steps ran and allowed the next,
  // the rest are still pending.
  ghost predicate Progress(actions: seq<Action>, works: seq<StepWork>, clock: int, steps: seq<StepResult>,
                           failedStep: Option<nat>, i: nat)
    requires |works| == |actions|
  {
    && i <= |actions| == |steps|
    && (forall j :: 0 <= j < i ==>
          && StartsInBudget(actions, works, clock, j) && LetsOn(actions, works, clock, j)
          && steps[j] == RanStep(actions, works, clock, j))
    && (forall j :: i <= j < |steps| ==> steps[j] == PendingStep(actions[j], j))
    && FirstFailure(steps, failedStep)
  }

  function NoteFailure(failedStep: Option<nat>, step: nat): Option<nat> {
    if failedStep.None? then Some(step) else failedStep
  }

  lemma BudgetHalts(actions: seq<Action>, works: seq<StepWork>, clock: int, steps: seq<StepResult>,
                    failedStep: Option<nat>, i: nat)
    requires |works| == |actions| && i < |actions| && !StartsInBudget(actions, works, clock, i)
    requires Progress(actions, works, clock, steps, failedStep, i)
    ensures RunShape(actions, works, clock, FinishPending(steps[i := steps[i].(status := StepFailed)], i + 1),
                     NoteFailure(failedStep, i + 1), i, true)
  {
    hide StartsInBudget, LetsOn, RanStep;
    var out := FinishPending(steps[i := steps[i].(status := StepFailed)], i + 1);
    assert forall j :: 0 <= j < i ==> out[j] == steps[j];
    assert forall j :: i < j < |out| ==> out[j] == PendingStep(actions[j], j).(status := StepSkipped);
  }

  lemma FailureNoted(steps: seq<StepResult>, failedStep: Option<nat>, i: nat, result: StepResult)
    requires i < |steps| && FirstFailure(steps, failedStep)
    requires forall j :: i <= j < |steps| ==> steps[j].status == StepPending
    ensures FirstFailure(steps[i := result],
                         if result.status == StepFailed then NoteFailure(failedStep, i + 1) else failedStep)
  {
  }

  lemma StepHalts(actions: seq<Action>, works: seq<StepWork>, clock: int, steps: seq<StepResult>,
                  failedStep: Option<nat>, i: nat)
    requires |works| == |actions| && i < |actions| && StartsInBudget(actions, works, clock, i)
    requires Progress(actions, works, clock, steps, failedStep, i) && !LetsOn(actions, works, clock, i)
    ensures RunShape(actions, works, clock, FinishPending(steps[i := RanStep(actions, works, clock, i)], i + 1),
                     NoteFailure(failedStep, i + 1), i + 1, false)
  {
    var result := RanStep(actions, works, clock, i);
    FailureNoted(steps, failedStep, i, result);
    assert result.status == StepFailed;
    hide StartsInBudget, LetsOn, RanStep;
    var out := FinishPending(steps[i := result], i + 1);
    assert forall j :: 0 <= j < i ==> out[j] == steps[j];
    assert forall j :: i < j < |out| ==> out[j] == PendingStep(actions[j], j).(status := StepSkipped);
  }

  lemma StepGoesOn(actions: seq<Action>, works: seq<StepWork>, clock: int, steps: seq<StepResult>,
                   failedStep: Option<nat>, i: nat)
    requires |works| == |actions| && i < |actions| && StartsInBudget(actions, works, clock, i)
    requires Progress(actions, works, clock, steps, failedStep, i) && LetsOn(actions, works, clock, i)
    ensures var result := RanStep(actions, works, clock, i);
            Progress(actions, works, clock, steps[i := result],
                     if result.status == StepFailed then NoteFailure(failedStep, i + 1) else failedStep, i + 1)
  {
    hide StartsInBudget, LetsOn, RanStep;
    FailureNoted(steps, failedStep, i, RanStep(actions, works, clock, i));
  }

  lemma NothingYet(actions: seq<Action>, works: seq<StepWork>, clock: int)
    requires |works| == |actions|
    ensures Progress(actions, works, clock, PendingSteps(actions), None, 0)
  {
  }

  lemma ProgressInTime(actions: seq<Action>, works: seq<StepWork>, clock: int, steps: seq<StepResult>,
                       failedStep: Option<nat>, i: nat, d: nat)
    requires |works| == |actions| && AllWithin(works, d) && Progress(actions, works, clock, steps, failedStep, i)
    ensures i <= |actions| && clock <= StartOf(actions, works, clock, i) <= clock + LoopBound(d)
  {
    LoopEndsInTime(actions, works, clock, i, d);
  }

  lemma ShapeInTime(actions: seq<Action>, works: seq<StepWork>, clock: int, steps: seq<StepResult>,
                    failedStep: Option<nat>,
                    ran: nat, exhausted: bool, d: nat)
    requires |works| == |actions| && AllWithin(works, d)
    requires RunShape(actions, works, clock, steps, failedStep, ran, exhausted)
    ensures ran <= |actions| && clock <= StartOf(actions, works, clock, ran) <= clock + LoopBound(d)
  {
    LoopEndsInTime(actions, works, clock, ran, d);
  }

  method RunActions(actions: seq<Action>, works: seq<StepWork>, clock: int, ghost d: nat)
    returns (steps: seq<StepResult>, failedStep: Option<nat>, exhausted: bool, after: int, ghost ran: nat)
    requires |works| == |actions| && AllWithin(works, d)
    ensures RunShape(actions, works, clock, steps, failedStep, ran, exhausted)
    ensures ran <= |actions| && after == StartOf(actions, works, clock, ran) && clock <= after <= clock + LoopBound(d)
  {
    hide RunShape, FinishPending, StepEnd, StepFails, Progress;
    var budgetEnd := clock + RUN_BUDGET;
    steps, failedStep, exhausted, after, ran := PendingSteps(actions), None, false, clock, 0;
    NothingYet(actions, works, clock);
    var i := 0;
    while i < |actions|
      invariant 0 <= i <= |actions| == |steps| && Progress(actions, works, clock, steps, failedStep, i)
      invariant after == StartOf(actions, works, clock, i) && !exhausted
    {
      ProgressInTime(actions, works, clock, steps, failedStep, i, d);
      if after >= budgetEnd {
        BudgetHalts(actions, works, clock, steps, failedStep, i);
        steps := FinishPending(steps[i := steps[i].(status := StepFailed)], i + 1);
        failedStep, exhausted, ran := NoteFailure(failedStep, i + 1), true, i;
        return;
      }
      var result;
      result, after := RunStep(actions[i], i, works[i], after, budgetEnd, d);
      after := after + works[i].persistTook;
      assert result == RanStep(actions, works, clock, i);
      if result.status == StepFailed && !actions[i].continueOnError {
        StepHalts(actions, works, clock, steps, failedStep, i);
        ShapeInTime(actions, works, clock, FinishPending(steps[i := result], i + 1), NoteFailure(failedStep, i + 1),
                    i + 1, false, d);
        failedStep := NoteFailure(failedStep, i + 1);
        steps, ran := FinishPending(steps[i := result], i + 1), i + 1;
        return;
      }
      StepGoesOn(actions, works, clock, steps, failedStep, i);
      steps := steps[i := result];
      if result.status == StepFailed {
        failedStep := NoteFailure(failedStep, i + 1);
      }
      i := i + 1;
    }
    ran := i;
    ProgressInTime(actions, works, clock, steps, failedStep, i, d);
    AllRan(actions, works, clock, steps, failedStep);
  }

  lemma AllRan(actions: seq<Action>, works: seq<StepWork>, clock: int, steps: seq<StepResult>, failedStep: Option<nat>)
    requires |works| == |actions| && Progress(actions, works, clock, steps, failedStep, |actions|)
    ensures RunShape(actions, works, clock, steps, failedStep, |actions|, false)
  {
    hide StartsInBudget, LetsOn, RanStep;
  }

  // Of two shapes of one run neither can have gone further.
  lemma NotFurther(actions: seq<Action>, works: seq<StepWork>, clock: int,
                   s: seq<StepResult>, f: Option<nat>, n: nat, e: bool,
                   s': seq<StepResult>, f': Option<nat>, n': nat, e': bool)
    requires |works| == |actions|
    requires RunShape(actions, works, clock, s, f, n, e) && RunShape(actions, works, clock, s', f', n', e')
    ensures n' <= n
  {
    hide StartsInBudget, LetsOn, RanStep, FirstFailure;
  }

  /** The shape leaves nothing open: what the actions met and when the loop was
      entered fix which steps ran, every record of every step, whether the budget
      ran out, and the failed step. */
  lemma ShapeIsDetermined(actions: seq<Action>, works: seq<StepWork>, clock: int,
                          s: seq<StepResult>, f: Option<nat>, n: nat, e: bool,
                          s': seq<StepResult>, f': Option<nat>, n': nat, e': bool)
    requires |works| == |actions|
    requires RunShape(actions, works, clock, s, f, n, e) && RunShape(actions, works, clock, s', f', n', e')
    ensures n == n' && e == e' && s == s' && f == f'
  {
    hide StartsInBudget, LetsOn, RanStep;
    NotFurther(actions, works, clock, s, f, n, e, s', f', n', e');
    NotFurther(actions, works, clock, s', f', n', e', s, f, n, e);
    assert forall j :: 0 <= j < |s| ==> s[j] == s'[j];
  }

  /** A run with no failed step and budget to spare is one whose every step succeeded. */
  lemma VerdictCountsSteps(actions: seq<Action>, works: seq<StepWork>, clock: int, steps: seq<StepResult>,
                           failedStep: Option<nat>, ran: nat, exhausted: bool)
    requires |works| == |actions| && RunShape(actions, works, clock, steps, failedStep, ran, exhausted)
    ensures exhausted ==> failedStep.Some?
    ensures failedStep.None? <==> forall j :: 0 <= j < |steps| ==> steps[j].status == StepSucceeded
  {
    if exhausted {
      assert steps[ran].status == StepFailed;
    } else if ran < |actions| {
      assert steps[ran - 1] == RanStep(actions, works, clock, ran - 1);
    }
    forall j | 0 <= j < ran
      ensures steps[j].status == StepFailed || steps[j].status == StepSucceeded
    {
      assert steps[j] == RanStep(actions, works, clock, j);
    }
  }

  // Step k starts within the budget and its action gets what it was for.
  predicate Answered(actions: seq<Action>, works: seq<StepWork>, clock: int, k: nat)
    requires k < |actions| == |works|
  {
    && StartOf(actions, works, clock, k) < clock + RUN_BUDGET
    && ActionSucceeds(actions[k], works[k], StartOf(actions, works, clock, k), clock + RUN_BUDGET)
  }

  /** A run has no failed step exactly when every action started in the budget and
      got what it was for. */
  lemma SucceedsIffAnswered(actions: seq<Action>, works: seq<StepWork>, clock: int, steps: seq<StepResult>,
                            failedStep: Option<nat>, ran: nat, exhausted: bool)
    requires |works| == |actions| && RunShape(actions, works, clock, steps, failedStep, ran, exhausted)
    ensures failedStep.None? <==> forall j :: 0 <= j < |actions| ==> Answered(actions, works, clock, j)
  {
    VerdictCountsSteps(actions, works, clock, steps, failedStep, ran, exhausted);
    forall j | 0 <= j < |actions|
      ensures Answered(actions, works, clock, j) <==>
              StartsInBudget(actions, works, clock, j) && !FailsAt(actions, works, clock, j)
    {
      FailsUnlessSucceeds(actions[j], works[j], StartOf(actions, works, clock, j), clock + RUN_BUDGET);
    }
    hide StartOf, StepFails, ActionSucceeds, FirstFailure, StartsInBudget, FailsAt, Answered;
    assert ran < |steps| ==> steps[ran].status != StepSucceeded;
    if forall j :: 0 <= j < |steps| ==> steps[j].status == StepSucceeded {
      forall j | 0 <= j < |actions|
        ensures Answered(actions, works, clock, j)
      {
        assert steps[j] == RanStep(actions, works, clock, j);
      }
    }
    if forall j :: 0 <= j < |actions| ==> Answered(actions, works, clock, j) {
      assert ran == |actions|;
    }
  }

  lemma AnsweredIsAnswer(actions: seq<Action>, works: seq<StepWork>, clock: int)
    requires |works| == |actions|
    ensures forall j :: 0 <= j < |actions| && Answered(actions, works, clock, j) ==>
              !works[j].fails && (actions[j].kind.RedeployContainer? ==> works[j].ready)
  {
    hide StartOf;
  }

  lemma ShapeNumbers(actions: seq<Action>, works: seq<StepWork>, clock: int, steps: seq<StepResult>,
                     failedStep: Option<nat>, ran: nat, exhausted: bool)
    requires |works| == |actions| && RunShape(actions, works, clock, steps, failedStep, ran, exhausted)
    ensures |steps| == |actions| && NoPending(steps)
    ensures forall j :: 0 <= j < |actions| ==> steps[j].step == j + 1 && steps[j].kind == actions[j].kind
  {
    hide FirstFailure, FailsAt;
    forall j | 0 <= j < ran
      ensures steps[j].status != StepPending && steps[j].step == j + 1 && steps[j].kind == actions[j].kind
    {
      assert steps[j] == RanStep(actions, works, clock, j);
    }
  }

  // ── The whole run ──────────────────────────────────────────────────────────

  datatype ClaimAnswer = Claimed | Busy | ClaimError
  datatype Verdict = RunSucceeded | RunFailed | RunSkipped

  // How long each store call of one run took.
  datatype CallTimes = CallTimes(insert: nat, reread: nat, claim: nat, overlap: nat, user: nat, finish: nat,
                                 release: nat)

  ghost predicate CallsWithin(t: CallTimes, d: nat) {
    t.insert <= d && t.reread <= d && t.claim <= d && t.overlap <= d && t.user <= d && t.finish <= d && t.release <= d
  }

  datatype Outcome = Outcome(verdict: Verdict, steps: seq<StepResult>, failedStep: Option<nat>, runError: bool,
                             endedAt: int)

  // From reading the clock for started_at to the guard being released: insert,
  // reread, claim and user, the loop, the verdict and the release.
  function RunBound(d: nat): nat {
    LoopBound(d) + 6 * d
  }

  // When the loop of an authorised run is entered.
  function LoopStart(t: CallTimes, startedAt: int): int {
    startedAt + t.insert + t.reread + t.claim + t.user
  }

  /** execute, from the clock reading that becomes started_at: create the run,
      claim, authorise, step, record, release. No panic. */
  method Execute(actions: seq<Action>, trigger: TriggerType, user: Option<User>, claim: ClaimAnswer,
                 works: seq<StepWork>, t: CallTimes, startedAt: int, ghost d: nat)
    returns (out: Outcome)
    requires |works| == |actions| && CallsWithin(t, d) && AllWithin(works, d)
    // numbering and count match the actions, and nothing is left pending
    ensures |out.steps| == |actions| && NoPending(out.steps)
    ensures forall j :: 0 <= j < |actions| ==> out.steps[j].step == j + 1 && out.steps[j].kind == actions[j].kind
    // no step starts without the guard and without authority
    ensures (exists j :: 0 <= j < |actions| && out.steps[j].startedAt.Some?) ==>
              claim == Claimed && MayRun(user, trigger, actions)
    ensures out.verdict == RunSkipped <==> claim == Busy
    ensures claim == Claimed && MayRun(user, trigger, actions) ==>
              exists ran: nat :: ran <= |actions|
                                 && RunShape(actions, works, LoopStart(t, startedAt), out.steps, out.failedStep, ran,
                                             out.runError)
                                 && out.endedAt
                                    == StartOf(actions, works, LoopStart(t, startedAt), ran) + t.finish + t.release
    // the verdict is exactly whether every step succeeded
    ensures claim == Claimed && MayRun(user, trigger, actions) ==>
              (out.verdict == RunSucceeded <==> forall j :: 0 <= j < |actions| ==> out.steps[j].status == StepSucceeded)
    // which is exactly whether every action got what it was for, in time
    ensures out.verdict == RunSucceeded <==>
            && claim == Claimed && RoleTable(user, trigger, actions)
            && forall j :: 0 <= j < |actions| ==> Answered(actions, works, LoopStart(t, startedAt), j)
    // so a failing answer, or a container not found, is never a success
    ensures out.verdict == RunSucceeded ==>
              forall j :: 0 <= j < |actions| ==>
                !works[j].fails && (actions[j].kind.RedeployContainer? ==> works[j].ready)
    ensures !(claim == Claimed && MayRun(user, trigger, actions)) ==>
              out.verdict != RunSucceeded && out.steps == FinishPending(PendingSteps(actions), 0)
    ensures out.verdict == RunFailed <==> (out.failedStep.Some? || out.runError)
    // the whole run ends in time, however many steps it has
    ensures startedAt <= out.endedAt <= startedAt + RunBound(d)
  {
    hide RunShape, StartOf, StepRefusal, IdentityRefusal, MayRun, RoleTable, Answered;
    MayRunIffTable(user, trigger, actions);
    AnsweredIsAnswer(actions, works, LoopStart(t, startedAt));
    var clock := startedAt + t.insert + t.reread + t.claim;
    var initial := PendingSteps(actions);
    if claim == Busy {
      return Outcome(RunSkipped, FinishPending(initial, 0), None, false, clock + t.overlap + t.finish);
    }
    if claim == ClaimError {
      return Outcome(RunFailed, FinishPending(initial, 0), None, true, clock + t.finish);
    }
    clock := clock + t.user;
    var refusal := Authorise(user, trigger, actions);
    if refusal.Some? {
      return Outcome(RunFailed, FinishPending(initial, 0), None, true, clock + t.finish + t.release);
    }
    var steps, failedStep, exhausted, after;
    ghost var ran;
    steps, failedStep, exhausted, after, ran := RunActions(actions, works, clock, d);
    var verdict := if failedStep.Some? || exhausted then RunFailed else RunSucceeded;
    out := Outcome(verdict, steps, failedStep, exhausted, after + t.finish + t.release);
    VerdictCountsSteps(actions, works, clock, steps, failedStep, ran, exhausted);
    ShapeNumbers(actions, works, clock, steps, failedStep, ran, exhausted);
    SucceedsIffAnswered(actions, works, clock, steps, failedStep, ran, exhausted);
    assert clock == LoopStart(t, startedAt);
    assert RunShape(actions, works, LoopStart(t, startedAt), out.steps, out.failedStep, ran, out.runError);
  }

  // ── The lease against the longest run ──────────────────────────────────────

  // started_at is a DATETIME column: it keeps whole seconds.
  function Stored(t: int): int {
    t - t % SECOND
  }

  // An authorised run with store calls of at most d that starts and ends so.
  ghost predicate RunMayEnd(d: nat, startedAt: int, endedAt: int) {
    exists actions, works, t, steps, failedStep, ran: nat, exhausted ::
      RunEnds(actions, works, t, steps, failedStep, ran, exhausted, d, startedAt, endedAt)
  }

  ghost predicate RunEnds(actions: seq<Action>, works: seq<StepWork>, t: CallTimes, steps: seq<StepResult>,
                          failedStep: Option<nat>, ran: nat, exhausted: bool, d: nat, startedAt: int, endedAt: int) {
    && |works| == |actions| && CallsWithin(t, d) && AllWithin(works, d)
    && RunShape(actions, works, LoopStart(t, startedAt), steps, failedStep, ran, exhausted)
    && endedAt == StartOf(actions, works, LoopStart(t, startedAt), ran) + t.finish + t.release
  }

  // Every such run is over before its lease, counted from the stored started_at.
  ghost predicate LeaseOutlivesRuns(d: nat) {
    forall startedAt, endedAt :: RunMayEnd(d, startedAt, endedAt) ==> endedAt <= Stored(startedAt) + CLAIM_STALE_AFTER
  }

  const SLOWEST_CALL := 4866

  lemma RunsEndInTime(d: nat, startedAt: int, endedAt: int)
    requires RunMayEnd(d, startedAt, endedAt)
    ensures startedAt <= endedAt <= startedAt + RunBound(d)
  {
    var actions, works, t, steps, failedStep, ran: nat, exhausted :|
      RunEnds(actions, works, t, steps, failedStep, ran, exhausted, d, startedAt, endedAt);
    LoopEndsInTime(actions, works, LoopStart(t, startedAt), ran, d);
  }

  // A call that takes its time and goes well; a look-up that takes as long as it
  // may, whose audit fails every time.
  function Smooth(wants: nat): StepWork {
    StepWork(wants, 0, 0, true, 0, false, [AuditTry(true, 0), AuditTry(true, 0), AuditTry(true, 0)], 0)
  }

  function Dragging(d: nat): StepWork {
    StepWork(0, d, d, false, 0, true, [AuditTry(false, d), AuditTry(false, d), AuditTry(false, d)], d)
  }

  function SlowActions(): seq<Action> {
    [Action(HttpRequest(30), false), Action(HttpRequest(30), false), Action(RedeployContainer, false)]
  }

  function SlowWorks(d: nat): seq<StepWork> {
    [Smooth(30 * SECOND), Smooth(20 * SECOND - 1), Dragging(d)]
  }

  // The redeploy starts in the last millisecond of the budget.
  lemma SlowStarts(d: nat, clock: int)
    ensures StartOf(SlowActions(), SlowWorks(d), clock, 1) == clock + 30 * SECOND
    ensures !FailsAt(SlowActions(), SlowWorks(d), clock, 0)
    ensures StartOf(SlowActions(), SlowWorks(d), clock, 2) == clock + RUN_BUDGET - 1
    ensures !FailsAt(SlowActions(), SlowWorks(d), clock, 1)
    ensures StartOf(SlowActions(), SlowWorks(d), clock, 3) == clock + LoopBound(d) - 1
    ensures FailsAt(SlowActions(), SlowWorks(d), clock, 2)
  {
    var actions, works, end := SlowActions(), SlowWorks(d), clock + RUN_BUDGET;
    assert StartOf(actions, works, clock, 0) == clock;
    assert StepEnd(actions[0], works[0], clock, end) == clock + 30 * SECOND;
    assert StartOf(actions, works, clock, 1) == clock + 30 * SECOND;
    assert StepEnd(actions[1], works[1], clock + 30 * SECOND, end) == end - 1;
    assert StartOf(actions, works, clock, 2) == end - 1;
    AuditIsBounded(works[2].audits, 0, d);
    assert StepEnd(actions[2], works[2], end - 1, end) == end - 1 + StepTail(d);
  }

  function SlowSteps(d: nat, clock: int): seq<StepResult> {
    [RanStep(SlowActions(), SlowWorks(d), clock, 0), RanStep(SlowActions(), SlowWorks(d), clock, 1),
     RanStep(SlowActions(), SlowWorks(d), clock, 2)]
  }

  // The loop that takes longest, to the millisecond.
  lemma SlowLoop(d: nat, clock: int)
    ensures AllWithin(SlowWorks(d), d) && NoPending(SlowSteps(d, clock))
    ensures RunShape(SlowActions(), SlowWorks(d), clock, SlowSteps(d, clock), Some(3), 3, false)
    ensures StartOf(SlowActions(), SlowWorks(d), clock, 3) == clock + LoopBound(d) - 1
  {
    var actions, works, steps := SlowActions(), SlowWorks(d), SlowSteps(d, clock);
    SlowStarts(d, clock);
    forall j | 0 <= j < 3
      ensures StartsInBudget(actions, works, clock, j) && steps[j] == RanStep(actions, works, clock, j)
      ensures j < 2 ==> LetsOn(actions, works, clock, j)
    {
      assert j == 0 || j == 1 || j == 2;
    }
  }

  lemma SlowRun(d: nat, startedAt: int)
    ensures RunMayEnd(d, startedAt, startedAt + RunBound(d) - 1)
  {
    var t := CallTimes(d, d, d, d, d, d, d);
    var clock := LoopStart(t, startedAt);
    SlowLoop(d, clock);
    assert RunEnds(SlowActions(), SlowWorks(d), t, SlowSteps(d, clock), Some(3), 3, false, d, startedAt,
                   startedAt + RunBound(d) - 1);
  }

  /** The lease outlives every run exactly when a store call takes at most
      4.866 s. */
  lemma LeaseOutlivesRunsIff(d: nat)
    ensures LeaseOutlivesRuns(d) <==> d <= SLOWEST_CALL
  {
    if d <= SLOWEST_CALL {
      forall startedAt, endedAt | RunMayEnd(d, startedAt, endedAt)
        ensures endedAt <= Stored(startedAt) + CLAIM_STALE_AFTER
      {
        RunsEndInTime(d, startedAt, endedAt);
      }
    } else {
      SlowRun(d, SECOND - 1);
      assert Stored(SECOND - 1) == 0;
    }
  }
}
