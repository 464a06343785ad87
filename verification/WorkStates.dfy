/** Work states across all passes: ingest, analysis, fixing, verification, lifecycle and
    commands and restarts, each taken as one step, with a fix attempt free to stop after any of its
    effects. */
module WorkStates {
  import opened Basics
  import opened Models
  import opened IngestStore
  import opened PipelineSpec
  import opened FixAttempt
  import V = Verification

  type Table = map<FpHash, Item>

  /** What a service's stored configuration and registration say. */
  datatype Settings = Settings(
    base: ServiceConfig, maxOpenPrs: nat, floor: real, hasTests: bool, allowWithoutTests: bool, repo: Option<string>)

  /** `of` gives each service its settings, `home` each fingerprint the service its hash was
      derived from; `writable` is the write allowlist, `model` whether one is configured. */
  datatype World = World(of: string -> Settings, home: FpHash -> string, writable: Option<set<string>>, model: bool)

  function RepoOf(w: World, i: Item): Option<string> { w.of(i.row.service).repo }

  // --- the gate ------------------------------------------------------------------------------

  /** The proposals a repository already has open or under way. */
  predicate Counts(w: World, i: Item, repo: Option<string>) {
    RepoOf(w, i) == repo && ((i.branch.Some? && i.row.state.AwaitingHuman?) || i.row.state.Fixing?)
  }

  function OpenPrs(w: World, t: Table, repo: Option<string>): set<FpHash> {
    set h | h in t && Counts(w, t[h], repo)
  }

  datatype Request = Request(rcaClass: string, confidence: real, human: bool)

  datatype Refusal =
    | InFlight | NotCodeFix | LowConfidence | DialTooLow | ChronicGuard | CapReached
    | NoRepo | NotWritable | NoTests | NoModel | NoProposal | NotAwaiting | NoFeedback | RetriesUsed

  function Floor(s: Settings): real {
    var floor := s.floor + (if s.allowWithoutTests && !s.hasTests then 0.1 else 0.0);
    if floor > 1.0 then 1.0 else floor
  }

  function CheckEligibility(w: World, t: Table, i: Item, req: Request): Option<Refusal> {
    var s := w.of(i.row.service);
    if req.rcaClass != "code-fix" then Some(NotCodeFix)
    else if req.confidence < Floor(s) then Some(LowConfidence)
    else if !s.base.autonomy.Fix? && !(req.human && (s.base.autonomy.Triage? || s.base.autonomy.Digest?))
    then Some(DialTooLow)
    else if i.chronic && !req.human then Some(ChronicGuard)
    else if |OpenPrs(w, t, RepoOf(w, i))| >= s.maxOpenPrs then Some(CapReached)
    else None
  }

  function Environment(w: World, i: Item): Option<Refusal> {
    var s := w.of(i.row.service);
    if s.repo.None? then Some(NoRepo)
    else if w.writable.Some? && s.repo.value !in w.writable.value then Some(NotWritable)
    else if !s.hasTests && !s.allowWithoutTests then Some(NoTests)
    else if !w.model then Some(NoModel)
    else None
  }

  function RefusalReason(w: World, t: Table, i: Item, req: Request): Option<Refusal> {
    var acknowledged := req.human && i.chronic && i.row.state.Reopened?;
    var st := i.row.state;
    if (i.branch.Some? && !acknowledged) || st.Fixing? || st.Verifying? || st.ClosedAuto? || st.Archived?
    then Some(InFlight)
    else if CheckEligibility(w, t, i, req).Some? then CheckEligibility(w, t, i, req)
    else Environment(w, i)
  }

  function RetryRefusalReason(w: World, i: Item, feedback: bool, retries: nat): Option<Refusal> {
    if i.branch.None? || !i.url then Some(NoProposal)
    else if !i.row.state.AwaitingHuman? then Some(NotAwaiting)
    else if !feedback then Some(NoFeedback)
    else if retries >= 2 then Some(RetriesUsed)
    else Environment(w, i)
  }

  // --- what it takes to start --------------------------------------------------------------------

  /** The service has a repository, it may be written to, there are tests or leave to go without,
      and a model is configured. */
  predicate Equipped(w: World, s: Settings) {
    && s.repo.Some? && (w.writable.Some? ==> s.repo.value in w.writable.value)
    && (s.hasTests || s.allowWithoutTests) && w.model
  }

  /** At least the floor, which is a tenth higher without tests but never above one. */
  predicate Confident(s: Settings, confidence: real) {
    var floor := s.floor + (if !s.hasTests && s.allowWithoutTests then 0.1 else 0.0);
    confidence >= floor || (confidence >= 1.0 && floor >= 1.0)
  }

  /** The proposals of a repository that wait for a human or are being worked on. */
  function Proposals(w: World, t: Table, repo: Option<string>): set<FpHash> {
    set h | h in t && w.of(t[h].row.service).repo == repo
            && (t[h].row.state == Fixing || (t[h].row.state == AwaitingHuman && t[h].branch != None))
  }

  /** Everything a first fix needs.  A human may ask on any dial but observe, on a chronic
      fingerprint, and past an old proposal once it was reopened as chronic. */
  predicate MayFix(w: World, t: Table, i: Item, req: Request) {
    var s := w.of(i.row.service);
    && Equipped(w, s)
    && req.rcaClass == "code-fix" && Confident(s, req.confidence)
    && (s.base.autonomy == Autonomy.Fix || (req.human && s.base.autonomy != Observe))
    && (i.chronic ==> req.human)
    && (i.branch == None || (req.human && i.chronic && i.row.state == Reopened))
    && i.row.state != Fixing && i.row.state != Verifying && i.row.state != ClosedAuto && i.row.state != Archived
    && |Proposals(w, t, s.repo)| < s.maxOpenPrs
  }

  /** Everything a retry needs: a published proposal awaiting a human, feedback, and fewer than two
      retries so far. */
  predicate MayRetry(w: World, i: Item, feedback: bool, retries: nat) {
    && Equipped(w, w.of(i.row.service))
    && i.branch != None && i.url && i.row.state == AwaitingHuman && feedback && retries < 2
  }

  lemma ProposalsAreOpen(w: World, t: Table, repo: Option<string>)
    ensures OpenPrs(w, t, repo) == Proposals(w, t, repo)
  {
  }

  /** A first fix is refused exactly when something it needs is missing. */
  lemma FixIff(w: World, t: Table, i: Item, req: Request)
    ensures RefusalReason(w, t, i, req) == None <==> MayFix(w, t, i, req)
  {
    ProposalsAreOpen(w, t, RepoOf(w, i));
  }

  lemma RetryIff(w: World, i: Item, feedback: bool, retries: nat)
    ensures RetryRefusalReason(w, i, feedback, retries) == None <==> MayRetry(w, i, feedback, retries)
  {
  }

  /** A refusal names a condition that really failed. */
  predicate Failed(w: World, t: Table, i: Item, req: Request, reason: Refusal) {
    var s := w.of(i.row.service);
    match reason
    case InFlight =>
      || (i.branch != None && !(req.human && i.chronic && i.row.state == Reopened))
      || i.row.state == Fixing || i.row.state == Verifying || i.row.state == ClosedAuto || i.row.state == Archived
    case NotCodeFix => req.rcaClass != "code-fix"
    case LowConfidence => !Confident(s, req.confidence)
    case DialTooLow => s.base.autonomy != Autonomy.Fix && (!req.human || s.base.autonomy == Observe)
    case ChronicGuard => i.chronic && !req.human
    case CapReached => |Proposals(w, t, s.repo)| >= s.maxOpenPrs
    case NoRepo => s.repo == None
    case NotWritable => s.repo.Some? && w.writable.Some? && s.repo.value !in w.writable.value
    case NoTests => !s.hasTests && !s.allowWithoutTests
    case NoModel => !w.model
    case _ => false
  }

  lemma RefusalIsTrue(w: World, t: Table, i: Item, req: Request)
    ensures var reason := RefusalReason(w, t, i, req); reason.Some? ==> Failed(w, t, i, req, reason.value)
  {
    ProposalsAreOpen(w, t, RepoOf(w, i));
  }

  // --- one attempt -----------------------------------------------------------------------------

  function Executed(w: World, t: Table, h: FpHash, req: Request, s: Script): Table {
    if h in t && RefusalReason(w, t, t[h], req).None? then t[h := Attempted(t[h], false, req.human, s).item] else t
  }

  function Retried(w: World, t: Table, h: FpHash, feedback: bool, retries: nat, s: Script): Table {
    if h in t && RetryRefusalReason(w, t[h], feedback, retries).None? then t[h := Attempted(t[h], true, false, s).item]
    else t
  }

  /** What the caller gets: a refusal, which is audited first, or the end of an attempt. */
  datatype Answer = Refused(reason: Refusal) | Busy | Ended(mode: Standing)

  function Refuse(reason: Refusal, s: Script): Answer {
    match FateOf(s, 0)
    case Fine => Refused(reason)
    case Raises => Ended(Threw)
    case Dies => Ended(Died)
  }

  function ExecuteAnswer(w: World, t: Table, i: Item, req: Request, s: Script): Answer {
    match RefusalReason(w, t, i, req)
    case Some(reason) => Refuse(reason, s)
    case None => Ended(Attempted(i, false, req.human, s).mode)
  }

  function RetryAnswer(w: World, i: Item, feedback: bool, retries: nat, s: Script): Answer {
    match RetryRefusalReason(w, i, feedback, retries)
    case Some(reason) => Refuse(reason, s)
    case None => Ended(Attempted(i, true, false, s).mode)
  }

  class FixExecutor {
    const world: World
    var table: Table
    var busy: bool                   // the execution lock

    // The attempt under way: effects used up, and how it stands.
    var used: nat
    var mode: Standing
    ghost var writes: nat

    constructor (world: World, table: Table)
      ensures this.world == world && this.table == table && !busy
    {
      this.world, this.table, busy := world, table, false;
      used, mode, writes := 0, Underway, 0;
    }

    ghost function Now(h: FpHash): Try
      requires h in table
      reads this
    {
      Try(table[h], used, writes, mode)
    }

    /** Nothing but row `h` differs from `before`. */
    twostate predicate Only(h: FpHash)
      requires old(h in table)
      reads this
    {
      h in table && table == old(table)[h := table[h]] && busy == old(busy)
    }

    method Call(h: FpHash, s: Script)
      requires h in table
      modifies this`used, this`mode
      ensures h in table && Now(h) == FixAttempt.Call(old(Now(h)), s)
    {
      if mode.Underway? {
        match FateOf(s, used) {
          case Fine =>
          case Raises => mode := Threw;
          case Dies => mode := Died;
        }
        used := used + 1;
      }
    }

    method Save(h: FpHash, i: Item, s: Script)
      requires h in table
      modifies this
      ensures Only(h) && Now(h) == WriteRow(old(Now(h)), s, i)
    {
      if mode.Underway? {
        match FateOf(s, used) {
          case Fine =>
            table := table[h := i];
            writes := writes + 1;
          case Raises => mode := Threw;
          case Dies => mode := Died;
        }
        used := used + 1;
      }
    }

    method EnsureBranch(h: FpHash, s: Script)
      requires h in table
      modifies this`used, this`mode
      ensures h in table && Now(h) == FindBranch(old(Now(h)), s)
    {
      if mode.Underway? {
        if FateOf(s, used).Dies? {
          mode := Died;
        } else if s.branch.None? {
          mode := Threw;
        }
        used := used + 1;
      }
    }

    method Finish(h: FpHash, outcome: Outcome)
      requires h in table
      modifies this`mode
      ensures h in table && Now(h) == Return(old(Now(h)), outcome)
    {
      if mode.Underway? { mode := Returned(outcome); }
    }

    method OpenProposal(h: FpHash, s: Script)
      requires h in table
      modifies this`used, this`mode
      ensures h in table && Now(h) == OpenDraft(old(Now(h)), s)
    {
      Call(h, s);
      Call(h, s);
      Call(h, s);
      if s.untested { Call(h, s); }
    }

    method StoreResult(h: FpHash, i: Item, s: Script)
      requires h in table && s.branch.Some?
      modifies this
      ensures Only(h)
      ensures Now(h) == Return(FixAttempt.Call(FixAttempt.Call(
        WriteRow(old(Now(h)), s, Published(i, s.branch.value)), s), s), Delivered)
    {
      Save(h, Published(i, s.branch.value), s);
      Call(h, s);
      Call(h, s);
      Finish(h, Delivered);
    }

    method PublishProposal(h: FpHash, i: Item, s: Script)
      requires h in table && s.branch.Some?
      modifies this
      ensures Only(h) && Now(h) == Publish(old(Now(h)), i, s)
    {
      if s.branch != i.branch { Save(h, WithBranch(i, s.branch.value), s); }
      OpenProposal(h, s);
      StoreResult(h, i, s);
    }

    method DeliverFix(h: FpHash, i: Item, retry: bool, s: Script)
      requires h in table
      modifies this
      ensures Only(h) && Now(h) == Deliver(old(Now(h)), i, retry, s)
    {
      if !s.files {
        Save(h, Fallback(i, retry), s);
        Finish(h, NotDelivered);
        return;
      }
      Call(h, s);
      EnsureBranch(h, s);
      if mode.Underway? && s.branch.Some? { PublishProposal(h, i, s); }
    }

    method VerifyResult(h: FpHash, i: Item, retry: bool, s: Script)
      requires h in table
      modifies this
      ensures Only(h) && Now(h) == Verify(old(Now(h)), i, retry, s)
    {
      if s.verdict.None? {
        DeliverFix(h, i, retry, s);
        return;
      }
      Call(h, s);
      Call(h, s);
      if s.verdict.value {
        DeliverFix(h, i, retry, s);
      } else {
        Save(h, Fallback(i, retry), s);
        if i.row.ticket.Some? {
          Call(h, s);
          Call(h, s);
        }
        Finish(h, Blocked);
      }
    }

    method GuardedBlock(h: FpHash, i: Item, retry: bool, s: Script)
      requires h in table
      modifies this
      ensures Only(h) && Now(h) == Guarded(old(Now(h)), i, retry, s)
    {
      Call(h, s);
      Call(h, s);
      if s.fixed {
        VerifyResult(h, i, retry, s);
      } else {
        Save(h, Fallback(i, retry), s);
        Call(h, s);
        Finish(h, FixFailed);
      }
    }

    /** The handler of anything the guarded block raises. */
    method Handle(h: FpHash, i: Item, retry: bool, s: Script)
      requires h in table
      modifies this
      ensures Only(h) && Now(h) == Handled(old(Now(h)), i, retry, s)
    {
      if mode.Threw? {
        mode := Underway;
        Save(h, Fallback(i, retry), s);
        Call(h, s);
        Finish(h, Errored);
      }
    }

    /** Up to the reserving write. */
    method Reserve(h: FpHash, announced: bool, s: Script)
      requires h in table
      modifies this
      ensures Only(h)
      ensures var start := Try(old(table)[h], 0, 0, Underway);
        Now(h) == WriteRow(if announced then FixAttempt.Call(start, s) else start, s, InState(old(table)[h], Fixing))
    {
      used, mode, writes := 0, Underway, 0;
      if announced { Call(h, s); }
      Save(h, InState(table[h], Fixing), s);
    }

    method RunAttempt(h: FpHash, retry: bool, announced: bool, s: Script)
      requires h in table
      modifies this
      ensures Only(h) && Now(h) == Attempted(old(table)[h], retry, announced, s)
    {
      var i := table[h];
      Reserve(h, announced, s);
      if mode.Underway? {
        GuardedBlock(h, i, retry, s);
        Handle(h, i, retry, s);
      }
    }

    /** Under the lock; a second caller is turned away. */
    method Execute(h: FpHash, req: Request, s: Script) returns (answer: Answer)
      requires h in table
      modifies this
      ensures busy == old(busy)
      ensures old(busy) ==> answer == Busy && table == old(table)
      ensures !old(busy) ==>
        && table == Executed(world, old(table), h, req, s)
        && answer == ExecuteAnswer(world, old(table), old(table)[h], req, s)
        && (answer.Refused? ==> !MayFix(world, old(table), old(table)[h], req))
      ensures table ==
        if !old(busy) && MayFix(world, old(table), old(table)[h], req)
        then old(table)[h := Attempted(old(table)[h], false, req.human, s).item] else old(table)
    {
      FixIff(world, table, table[h], req);
      if busy { return Busy; }
      busy := true;
      var refusal := RefusalReason(world, table, table[h], req);
      if refusal.Some? {
        answer := Refuse(refusal.value, s);
      } else {
        RunAttempt(h, false, req.human, s);
        answer := Ended(mode);
      }
      busy := false;
    }

    method Retry(h: FpHash, feedback: bool, retries: nat, s: Script) returns (answer: Answer)
      requires h in table
      modifies this
      ensures busy == old(busy)
      ensures old(busy) ==> answer == Busy && table == old(table)
      ensures !old(busy) ==>
        && table == Retried(world, old(table), h, feedback, retries, s)
        && answer == RetryAnswer(world, old(table)[h], feedback, retries, s)
        && (answer.Refused? ==> !MayRetry(world, old(table)[h], feedback, retries))
      ensures table ==
        if !old(busy) && MayRetry(world, old(table)[h], feedback, retries)
        then old(table)[h := Attempted(old(table)[h], true, false, s).item] else old(table)
    {
      RetryIff(world, table[h], feedback, retries);
      if busy { return Busy; }
      busy := true;
      var refusal := RetryRefusalReason(world, table[h], feedback, retries);
      if refusal.Some? {
        answer := Refuse(refusal.value, s);
      } else {
        RunAttempt(h, true, false, s);
        answer := Ended(mode);
      }
      busy := false;
    }
  }

  // --- every pass ---------------------------------------------------------------------------------

  datatype Step =
    | Ingest(ev: LogEvent, delta: nat, env: Env, ledger: Ledger, ops: nat, stop: Halt)
    | RcaPass(h: FpHash, needsHuman: bool)
    | Explain(h: FpHash, needsHuman: bool)
    | AutoFix(h: FpHash, rcaClass: string, confidence: real, script: Script)
    | HumanFix(h: FpHash, rcaClass: string, confidence: real, script: Script)
    | Retry(h: FpHash, feedback: bool, retries: nat, script: Script)
    | Merge(h: FpHash)
    | Watch(h: FpHash, verdict: V.Verdict)
    | CloseSilent(h: FpHash)
    | Drop(h: FpHash)
    | Reopen(h: FpHash)
    | Restart

  function RowBefore(t: Table, ev: LogEvent, delta: nat): Fingerprint {
    Upsert(if ev.fp in t then map[ev.fp := t[ev.fp].row] else map[], ev, delta)[ev.fp]
  }

  function Ingested(t: Table, a: Step): Table
    requires a.Ingest?
  {
    var c := Dispatch(Cell(RowBefore(t, a.ev, a.delta), a.ledger, Running, a.ops, a.stop), a.ev.service, a.env);
    t[a.ev.fp := if a.ev.fp in t then t[a.ev.fp].(row := c.row) else Item(c.row, false, None, false)]
  }

  /** The event's hash was derived from its service, whose configuration the pass reads. */
  predicate Genuine(w: World, a: Step) {
    a.Ingest? ==> a.ev.service == w.home(a.ev.fp) && a.env.cfg == w.of(a.ev.service).base
  }

  function Watched(i: Item, v: V.Verdict): Item {
    var (state, chronic) := V.Outcome(i.row.state, i.chronic, v);
    InState(i, state).(chronic := chronic)
  }

  function Moved(i: Item, a: Step): Item {
    var st := i.row.state;
    match a
    case RcaPass(_, needsHuman) => if st.QueuedRca? then InState(i, if needsHuman then AwaitingHuman else Open) else i
    case Explain(_, needsHuman) => InState(i, if needsHuman then AwaitingHuman else Open)
    case Merge(_) => if i.branch.Some? && !st.Verifying? then InState(i, Verifying) else i
    case Watch(_, v) => if st.Verifying? then Watched(i, v) else i
    case CloseSilent(_) =>
      if i.row.ticket.Some? && (st.Open? || st.Reopened? || st.Investigating?) then InState(i, ClosedAuto) else i
    case Drop(_) => InState(i, Dropped)
    case Reopen(_) => if st.ClosedAuto? || st.ClosedHuman? || st.Dropped? then InState(i, WorkState.Reopened) else i
    case Restart => i.(row := Rearmed(i.row))
    case _ => i
  }

  function Next(w: World, t: Table, a: Step): Table {
    match a
    case Ingest(_, _, _, _, _, _) => if Genuine(w, a) then Ingested(t, a) else t
    case AutoFix(h, rcaClass, confidence, s) =>
      if h in t && w.of(t[h].row.service).base.autonomy.Fix?
      then Executed(w, t, h, Request(rcaClass, confidence, false), s) else t
    case HumanFix(h, rcaClass, confidence, s) => Executed(w, t, h, Request(rcaClass, confidence, true), s)
    case Retry(h, feedback, retries, s) => Retried(w, t, h, feedback, retries, s)
    case Restart => map h | h in t :: Moved(t[h], a)
    case _ => if a.h in t then t[a.h := Moved(t[a.h], a)] else t
  }

  function Run(w: World, steps: seq<Step>): Table {
    if steps == [] then map[] else Next(w, Run(w, steps[..|steps| - 1]), steps[|steps| - 1])
  }

  // --- what ingest may do to a state -------------------------------------------------------------

  predicate IngestMoves(st: WorkState, st': WorkState, autonomy: Autonomy) {
    st' == st || st'.New? || st'.Reopened? || (if autonomy.Observe? then st'.Open? else st'.QueuedRca?)
  }

  lemma RecoverMoves(c: Cell, stored: Fingerprint, env: Env)
    requires stored == c.row.(service := stored.service)
    ensures var d := RecoverInterrupted(c, stored, env);
      (d.row.state == c.row.state || d.row.state.New?) && d.row.service == c.row.service
  {
  }

  lemma CreateMoves(c: Cell, stored: Fingerprint, env: Env)
    requires stored == c.row.(service := stored.service)
    ensures var d := CreateTicket(c, stored, env);
      && (d.row.state == c.row.state || d.row.state.New? || d.row.state == Reserve(stored, env).state)
      && d.row.service == c.row.service
  {
  }

  lemma UpdateMoves(c: Cell, stored: Fingerprint, env: Env)
    requires stored == c.row.(service := stored.service)
    ensures var d := UpdateTicket(c, stored, env);
      (d.row.state == c.row.state || d.row.state.Reopened?) && d.row.service == c.row.service
  {
  }

  lemma DispatchMoves(c: Cell, service: string, env: Env)
    ensures var d := Dispatch(c, service, env);
      IngestMoves(c.row.state, d.row.state, env.cfg.autonomy) && d.row.service == c.row.service
  {
    var c1 := RecoverInterrupted(c, StoredFor(c, service), env);
    RecoverMoves(c, StoredFor(c, service), env);
    CreateMoves(c1, StoredFor(c1, service), env);
    UpdateMoves(c1, StoredFor(c1, service), env);
  }

  lemma IngestedItem(w: World, t: Table, a: Step)
    requires a.Ingest? && Genuine(w, a)
    ensures var i := Ingested(t, a)[a.ev.fp];
      && (a.ev.fp in t ==>
            && i.chronic == t[a.ev.fp].chronic && i.branch == t[a.ev.fp].branch && i.url == t[a.ev.fp].url
            && i.row.service == t[a.ev.fp].row.service
            && IngestMoves(t[a.ev.fp].row.state, i.row.state, w.of(w.home(a.ev.fp)).base.autonomy))
      && (a.ev.fp !in t ==>
            && !i.chronic && i.branch.None? && i.row.service == w.home(a.ev.fp)
            && IngestMoves(New, i.row.state, w.of(w.home(a.ev.fp)).base.autonomy))
  {
    DispatchMoves(Cell(RowBefore(t, a.ev, a.delta), a.ledger, Running, a.ops, a.stop), a.ev.service, a.env);
  }

  // --- observe ----------------------------------------------------------------------------------------

  /** Filed under its own service; and in a service that only observes, never queued for
      analysis, never fixing, and without a proposal. */
  predicate ItemOk(w: World, h: FpHash, i: Item) {
    && i.row.service == w.home(h)
    && (w.of(w.home(h)).base.autonomy.Observe? ==> !i.row.state.QueuedRca? && !i.row.state.Fixing? && i.branch.None?)
  }

  ghost predicate Inv(w: World, t: Table) { forall h | h in t :: ItemOk(w, h, t[h]) }

  /** The attempt a step starts on a fingerprint, if it starts one. */
  function AttemptOf(w: World, t: Table, a: Step, h: FpHash): Try
    requires Starts(w, t, a, h)
  {
    Attempted(t[h], a.Retry?, a.HumanFix?, a.script)
  }

  /** A step that is not an attempt on the fingerprint moves it by ingest or by its own rule. */
  lemma StepIs(w: World, t: Table, a: Step, h: FpHash)
    requires h in t
    ensures h in Next(w, t, a)
    ensures Starts(w, t, a, h) ==> Next(w, t, a)[h] == AttemptOf(w, t, a, h).item
    ensures !Starts(w, t, a, h) ==>
      var i := Next(w, t, a)[h];
      || i == t[h]
      || (a.Ingest? && Genuine(w, a) && a.ev.fp == h && i == Ingested(t, a)[h])
      || (!a.Ingest? && (a.Restart? || a.h == h) && i == Moved(t[h], a))
  {
  }

  lemma StepKeepsItem(w: World, t: Table, a: Step, h: FpHash)
    requires (h in t ==> ItemOk(w, h, t[h])) && h in Next(w, t, a)
    ensures ItemOk(w, h, Next(w, t, a)[h])
  {
    if a.Ingest? && Genuine(w, a) && a.ev.fp == h { IngestedItem(w, t, a); }
    if h in t {
      StepIs(w, t, a, h);
      if Starts(w, t, a, h) { AttemptLeaves(t[h], a.Retry?, a.HumanFix?, a.script); }
    }
  }

  lemma {:induction false} Reachable(w: World, steps: seq<Step>)
    ensures Inv(w, Run(w, steps))
  {
    if steps != [] {
      var t, a := Run(w, steps[..|steps| - 1]), steps[|steps| - 1];
      Reachable(w, steps[..|steps| - 1]);
      forall h | h in Next(w, t, a) ensures ItemOk(w, h, Next(w, t, a)[h]) { StepKeepsItem(w, t, a, h); }
    }
  }

  /** A service kept in observe never has a fingerprint queued for analysis, being fixed, or
      with a proposal, whatever the passes, commands and failures. */
  lemma ObserveOnlyWatches(w: World, steps: seq<Step>, h: FpHash)
    requires h in Run(w, steps) && w.of(w.home(h)).base.autonomy.Observe?
    ensures var i := Run(w, steps)[h]; !i.row.state.QueuedRca? && !i.row.state.Fixing? && i.branch.None?
  {
    Reachable(w, steps);
    assert ItemOk(w, h, Run(w, steps)[h]);
  }

  // --- who may start a fix ---------------------------------------------------------------------------

  /** The step starts an attempt on the fingerprint: this is when it enters fixing. */
  predicate Starts(w: World, t: Table, a: Step, h: FpHash) {
    h in t &&
    match a
    case AutoFix(k, rcaClass, confidence, _) =>
      k == h && w.of(t[h].row.service).base.autonomy.Fix?
      && RefusalReason(w, t, t[h], Request(rcaClass, confidence, false)).None?
    case HumanFix(k, rcaClass, confidence, _) =>
      k == h && RefusalReason(w, t, t[h], Request(rcaClass, confidence, true)).None?
    case Retry(k, feedback, retries, _) => k == h && RetryRefusalReason(w, t[h], feedback, retries).None?
    case _ => false
  }

  predicate ByHuman(a: Step) { a.HumanFix? || a.Retry? }

  /** The step had everything it takes to start an attempt on the fingerprint. */
  predicate Permitted(w: World, t: Table, a: Step, h: FpHash) {
    h in t &&
    match a
    case AutoFix(k, rcaClass, confidence, _) =>
      k == h && w.of(t[h].row.service).base.autonomy == Autonomy.Fix
      && MayFix(w, t, t[h], Request(rcaClass, confidence, false))
    case HumanFix(k, rcaClass, confidence, _) => k == h && MayFix(w, t, t[h], Request(rcaClass, confidence, true))
    case Retry(k, feedback, retries, _) => k == h && MayRetry(w, t[h], feedback, retries)
    case _ => false
  }

  /** A step starts an attempt exactly when it has everything that takes; otherwise a request to fix
      or retry changes nothing at all. */
  lemma StartsIff(w: World, t: Table, a: Step, h: FpHash)
    ensures Starts(w, t, a, h) <==> Permitted(w, t, a, h)
    ensures Permitted(w, t, a, h) ==>
      && !t[h].row.state.Fixing?
      && Next(w, t, a) == t[h := Attempted(t[h], a.Retry?, a.HumanFix?, a.script).item]
    ensures (a.AutoFix? || a.HumanFix? || a.Retry?) && a.h == h && !Permitted(w, t, a, h) ==> Next(w, t, a) == t
  {
    if h in t && (a.AutoFix? || a.HumanFix?) { FixIff(w, t, t[h], Request(a.rcaClass, a.confidence, a.HumanFix?)); }
    if h in t && a.Retry? { RetryIff(w, t[h], a.feedback, a.retries); }
  }

  /** Nothing but an attempt moves a fingerprint into fixing, and only one that stopped right
      after reserving; nothing but an attempt takes a chronic mark away. */
  lemma StepEnters(w: World, t: Table, a: Step, h: FpHash)
    requires h in t
    ensures var i := Next(w, t, a)[h];
      && (i.row.state.Fixing? ==> (t[h].row.state.Fixing? && !Starts(w, t, a, h))
                                  || (Starts(w, t, a, h) && AttemptOf(w, t, a, h).writes == 1))
      && (t[h].chronic && !i.chronic ==> Starts(w, t, a, h))
  {
    StepIs(w, t, a, h);
    if Starts(w, t, a, h) {
      StartsIff(w, t, a, h);
      LeftFixingIff(t[h], a.Retry?, a.HumanFix?, a.script);
    } else if a.Ingest? && Genuine(w, a) && a.ev.fp == h {
      IngestedItem(w, t, a);
    }
  }

  /** Step `k` of a run started an attempt on the fingerprint with every leave, and the attempt
      was cut short: it reserved, and did not come to another row write. */
  ghost predicate StuckAt(w: World, steps: seq<Step>, k: nat, h: FpHash)
    requires k < |steps|
  {
    var t, a := Run(w, steps[..k]), steps[k];
    && Starts(w, t, a, h) && Permitted(w, t, a, h)
    && CutShort(t[h], a.Retry?, a.HumanFix?, a.script)
    && !AttemptOf(w, t, a, h).mode.Returned?
  }

  lemma StuckBefore(w: World, steps: seq<Step>, k: nat, h: FpHash)
    requires k < |steps| - 1 && StuckAt(w, steps[..|steps| - 1], k, h)
    ensures StuckAt(w, steps, k, h)
  {
    assert steps[..|steps| - 1][..k] == steps[..k];
  }

  /** Over every run of all passes, a fingerprint found fixing between two steps was put there
      by an attempt that had every leave to start and never returned. */
  lemma {:induction false} FixingHasACause(w: World, steps: seq<Step>, h: FpHash)
    requires h in Run(w, steps) && Run(w, steps)[h].row.state.Fixing?
    ensures exists k :: 0 <= k < |steps| && StuckAt(w, steps, k, h)
  {
    var front, n := steps[..|steps| - 1], |steps| - 1;
    var t, a := Run(w, front), steps[n];
    if h in t {
      StepEnters(w, t, a, h);
      if Starts(w, t, a, h) {
        StartsIff(w, t, a, h);
        LeftFixingIff(t[h], a.Retry?, a.HumanFix?, a.script);
        assert StuckAt(w, steps, n, h);
      } else {
        FixingHasACause(w, front, h);
        var k :| 0 <= k < |front| && StuckAt(w, front, k, h);
        StuckBefore(w, steps, k, h);
      }
    } else {
      IngestedItem(w, t, a);
    }
  }

  ghost predicate HumanAt(w: World, steps: seq<Step>, k: nat, h: FpHash)
    requires k < |steps|
  {
    ByHuman(steps[k]) && Starts(w, Run(w, steps[..k]), steps[k], h)
  }

  lemma ChronicStep(w: World, t: Table, a: Step, h: FpHash)
    requires h in t
    ensures h in Next(w, t, a)
    ensures t[h].chronic && !Next(w, t, a)[h].chronic ==> ByHuman(a) && Starts(w, t, a, h)
  {
    StepIs(w, t, a, h);
    StepEnters(w, t, a, h);
    if Starts(w, t, a, h) { StartsIff(w, t, a, h); }
  }

  /** Some step from `j` on started an attempt for a human. */
  ghost predicate HumanSince(w: World, steps: seq<Step>, j: nat, h: FpHash) {
    exists k :: j <= k < |steps| && HumanAt(w, steps, k, h)
  }

  lemma HumanSinceMore(w: World, steps: seq<Step>, j: nat, h: FpHash)
    requires steps != [] && j < |steps|
    ensures HumanSince(w, steps[..|steps| - 1], j, h) ==> HumanSince(w, steps, j, h)
    ensures HumanAt(w, steps, |steps| - 1, h) ==> HumanSince(w, steps, j, h)
  {
    var front := steps[..|steps| - 1];
    if HumanSince(w, front, j, h) {
      var k :| j <= k < |front| && HumanAt(w, front, k, h);
      assert front[..k] == steps[..k];
      assert HumanAt(w, steps, k, h);
    }
  }

  ghost predicate ChronicOrHuman(w: World, t: Table, steps: seq<Step>, j: nat, h: FpHash) {
    h in t && (t[h].chronic || HumanSince(w, steps, j, h))
  }

  lemma ChronicOneMore(w: World, steps: seq<Step>, t: Table, j: nat, h: FpHash)
    requires steps != [] && j < |steps| && t == Run(w, steps[..|steps| - 1])
    requires ChronicOrHuman(w, t, steps[..|steps| - 1], j, h)
    ensures ChronicOrHuman(w, Next(w, t, steps[|steps| - 1]), steps, j, h)
  {
    HumanSinceMore(w, steps, j, h);
    ChronicStep(w, t, steps[|steps| - 1], h);
  }

  /** Over every run, a fingerprint that was chronic and no longer is had an attempt in between
      that a human started. */
  lemma {:induction false} ChronicUntilHuman(w: World, steps: seq<Step>, j: nat, h: FpHash)
    requires j <= |steps| && h in Run(w, steps[..j]) && Run(w, steps[..j])[h].chronic
    ensures ChronicOrHuman(w, Run(w, steps), steps, j, h)
    decreases |steps|
  {
    if j == |steps| {
      assert steps[..j] == steps;
    } else {
      assert steps[..|steps| - 1][..j] == steps[..j];
      ChronicUntilHuman(w, steps[..|steps| - 1], j, h);
      ChronicOneMore(w, steps, Run(w, steps[..|steps| - 1]), j, h);
    }
  }

  // --- the cap on proposals ---------------------------------------------------------------------------

  lemma AddAtMostOne(a: set<FpHash>, b: set<FpHash>, h: FpHash)
    requires b <= a + {h}
    ensures |b| <= |a| + 1 && (h in a ==> |b| <= |a|)
  {
    if h in a {
      assert b <= a;
      assert a == b + (a - b);
    } else {
      assert a + {h} == b + ((a + {h}) - b);
    }
  }

  lemma AttemptIs(w: World, t: Table, a: Step, h: FpHash)
    requires Starts(w, t, a, h)
    ensures Next(w, t, a) == t[h := AttemptOf(w, t, a, h).item]
    ensures AttemptOf(w, t, a, h).item.row.service == t[h].row.service
  {
    AttemptLeaves(t[h], a.Retry?, a.HumanFix?, a.script);
  }

  lemma OneRowAdds(w: World, t: Table, h: FpHash, i: Item, repo: Option<string>)
    requires h in t && i.row.service == t[h].row.service
    ensures if repo == RepoOf(w, i) then OpenPrs(w, t[h := i], repo) <= OpenPrs(w, t, repo) + {h}
            else OpenPrs(w, t[h := i], repo) == OpenPrs(w, t, repo)
  {
  }

  /** Room under the cap, or a place among the counted already. */
  lemma StartsHaveRoom(w: World, t: Table, a: Step, h: FpHash)
    requires Starts(w, t, a, h)
    ensures |OpenPrs(w, t, RepoOf(w, t[h]))| < w.of(t[h].row.service).maxOpenPrs || h in OpenPrs(w, t, RepoOf(w, t[h]))
  {
  }

  /** No attempt, wherever it stops, lifts the proposals counted for any repository above the
      cap of the service it was started for. */
  lemma CapIsKept(w: World, t: Table, a: Step, h: FpHash, repo: Option<string>)
    requires Starts(w, t, a, h)
    ensures var n, n' := |OpenPrs(w, t, repo)|, |OpenPrs(w, Next(w, t, a), repo)|;
      n' <= n || n' <= w.of(t[h].row.service).maxOpenPrs
  {
    var i := AttemptOf(w, t, a, h).item;
    AttemptIs(w, t, a, h);
    OneRowAdds(w, t, h, i, repo);
    StartsHaveRoom(w, t, a, h);
    if repo == RepoOf(w, i) { AddAtMostOne(OpenPrs(w, t, repo), OpenPrs(w, t[h := i], repo), h); }
  }

  // --- the dial and retries ----------------------------------------------------------------------------

  /** A world of one service on a given dial. */
  function OneService(autonomy: Autonomy): World {
    var settings := Settings(ServiceConfig(autonomy, 5, 3, 10), 3, 0.75, true, false, Some("org/api"));
    World(_ => settings, _ => "api", None, true)
  }

  const SMOOTH := Script([], true, true, Some(true), Some("wakey/fix-1"), false)
  const BROKEN := Item(Fingerprint("fp", "api", Critical, 1, Open, Some("issue"), 0, None), false, None, false)

  lemma SmoothDelivers(i: Item, retry: bool, announced: bool)
    ensures Attempted(i, retry, announced, SMOOTH).item == Published(i, "wakey/fix-1")
    ensures Attempted(i, retry, announced, SMOOTH).mode == Returned(Delivered)
  {
    var start := Try(i, 0, 0, Underway);
    var reserved := WriteRow(if announced then FixAttempt.Call(start, SMOOTH) else start, SMOOTH, InState(i, Fixing));
    var fixer := FixAttempt.Call(FixAttempt.Call(reserved, SMOOTH), SMOOTH);
    var heard := FixAttempt.Call(FixAttempt.Call(fixer, SMOOTH), SMOOTH);
    assert heard.mode.Underway?;
    var branched := FindBranch(FixAttempt.Call(heard, SMOOTH), SMOOTH);
    assert branched.mode.Underway?;
    assert Publish(branched, i, SMOOTH).mode == Returned(Delivered);
    assert Publish(branched, i, SMOOTH).item == Published(i, "wakey/fix-1");
  }

  const PROPOSED := Published(BROKEN, "wakey/fix-1")
  const DYING := Script([Fine, Fine, Dies], true, true, None, None, false)

  lemma DeliveredOnFix()
    ensures Executed(OneService(Autonomy.Fix), map["fp" := BROKEN], "fp", Request("code-fix", 0.9, false), SMOOTH)
         == map["fp" := PROPOSED]
  {
    assert OpenPrs(OneService(Autonomy.Fix), map["fp" := BROKEN], Some("org/api")) == {};
    SmoothDelivers(BROKEN, false, false);
  }

  lemma RetryAllowed()
    ensures RetryRefusalReason(OneService(Observe), PROPOSED, true, 0) == None
  {
  }

  /** The dial is asked before a fix but not before a retry: a proposal made while the service
      was on fix is retried after it went back to observe, where a first fix is refused. */
  lemma RetriedWhileObserving()
    ensures var observing := OneService(Observe);
      var t1 := Executed(OneService(Autonomy.Fix), map["fp" := BROKEN], "fp", Request("code-fix", 0.9, false), SMOOTH);
      && t1 == map["fp" := PROPOSED]
      && RefusalReason(observing, map["fp" := BROKEN], BROKEN, Request("code-fix", 0.9, true)) == Some(DialTooLow)
      && RetryAnswer(observing, PROPOSED, true, 0, SMOOTH) == Ended(Returned(Delivered))
      && Retried(observing, t1, "fp", true, 0, DYING) == map["fp" := InState(PROPOSED, Fixing)]
  {
    DeliveredOnFix();
    RetryAllowed();
    SmoothDelivers(PROPOSED, true, false);
    var reserved := Try(InState(PROPOSED, Fixing), 1, 1, Underway);
    assert FixAttempt.Call(FixAttempt.Call(reserved, DYING), DYING) == Try(InState(PROPOSED, Fixing), 3, 1, Died);
    assert Attempted(PROPOSED, true, false, DYING).item == InState(PROPOSED, Fixing);
  }
}
