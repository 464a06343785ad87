/** One pass of the ingest pipeline over one event, with failures everywhere.

    A `Cell` is what the pass works on: the row of one fingerprint, a ledger of what the
    forge really did for it, and the fate of the process.  `ops` is the number of storage
    transactions that still succeed: the next one after that does not happen, and the
    process is left raising an exception or dead (`stop`).  Forge calls fail as their
    replies say, and a reply may also be the death of the process during the call.  Every
    point between two effects is therefore a possible crash. */
module PipelineSpec {
  import opened Basics
  import opened Models
  import opened IngestStore

  datatype Mode = Running | Raised | Crashed

  type Halt = m: Mode | !m.Running? witness Raised

  /** What happened at the forge for one fingerprint.  `landed` counts tickets the forge
      accepted, `lost` the faults that hit one of them before it was bound, `posted` the
      recurrence comments accepted, `persisted` the ones the fingerprint row remembers. */
  datatype Ledger = Ledger(landed: nat, lost: nat, posted: nat, persisted: nat, unsaved: nat)

  const NO_TRAFFIC := Ledger(0, 0, 0, 0, 0)

  datatype Cell = Cell(row: Fingerprint, ledger: Ledger, mode: Mode, ops: nat, stop: Halt)

  // --- the forge as the environment ----------------------------------------------

  datatype ForgeException =
    | Unreachable | AuthError | RateLimited | ForgeError(status: Option<int>) | ProgrammingError

  predicate IsAmbiguousWrite(exc: ForgeException) {
    match exc
    case Unreachable => true
    case AuthError => false
    case RateLimited => false
    case ForgeError(status) => status.None? || status.value >= 500
    case ProgrammingError => false
  }

  datatype CreateReply
    = Accepted(ref: TicketRef) | CreateFailed(exc: ForgeException, landed: bool) | CreateDied(landed: bool)
  /** The forge really took the ticket, whatever it answered. */
  predicate ReplyLanded(reply: CreateReply) {
    match reply
    case Accepted(_) => true
    case CreateFailed(_, landed) => landed
    case CreateDied(landed) => landed
  }

  datatype LookupReply = Found(ref: TicketRef) | Absent | LookupFailed | LookupDied
  datatype CallReply = Done | CallFailed(landed: bool) | CallDied(landed: bool)

  /** Everything one pass reads from outside: clock, counters, configuration, replies. */
  datatype Env = Env(
    now: int, cfg: ServiceConfig, rateInWindow: nat, ticketsThisHour: nat,
    staleLookup: LookupReply, create: CreateReply, lookup: LookupReply, call: CallReply)

  /** The port contract: a definite rejection wrote nothing. */
  predicate HonestForge(env: Env) {
    env.create.CreateFailed? && env.create.landed ==> IsAmbiguousWrite(env.create.exc)
  }

  // --- storage transactions that may not happen ------------------------------------

  /** A full-row write of `f`; the `service` column is never updated on conflict. */
  function Save(c: Cell, f: Fingerprint): Cell {
    if c.mode.Running? && c.ops > 0 then c.(row := f.(service := c.row.service), ops := c.ops - 1)
    else if c.mode.Running? then c.(mode := c.stop)
    else c
  }

  /** An audit append: it changes no ingest table but can fail like any transaction. */
  function Audit(c: Cell): Cell { Save(c, c.row) }

  // --- policy gate -------------------------------------------------------------------

  datatype Action = Wake | Record | Absorbed | Suppressed

  predicate ShouldWake(f: Fingerprint, cfg: ServiceConfig, rate: nat) {
    f.severity.Rank() >= 4 || f.occurrences >= cfg.immediateCount || rate >= cfg.ratePerMin
  }

  function Decide(f: Fingerprint, cfg: ServiceConfig, rate: nat): Action {
    if f.severity.Rank() < Severity.Error.Rank() then Record
    else if f.state.Busy() then Absorbed
    else if f.state.Dropped? || f.state.ClosedHuman? then Suppressed
    else if ShouldWake(f, cfg, rate) then Wake
    else Record
  }

  // --- tickets -------------------------------------------------------------------------

  const STALE_SECONDS: int := 120

  /** A ticket the marker lookup reports; the forge only reports tickets it holds. */
  function Reconcile(c: Cell, reply: LookupReply): Option<TicketRef> {
    if reply.Found? && c.ledger.landed > 0 then Some(reply.ref) else None
  }

  function Bind(c: Cell, reserved: Fingerprint, ref: TicketRef): Cell {
    Audit(Save(c, reserved.(ticket := Some(ref), reservedAt := None)))
  }

  function RecoverInterrupted(c: Cell, stored: Fingerprint, env: Env): Cell {
    if stored.ticket.Some? || stored.reservedAt.None? then c
    else if !stored.state.QueuedRca? && !stored.state.Open? then c
    else if env.now - stored.reservedAt.value < STALE_SECONDS then c
    else if env.staleLookup.LookupDied? then c.(mode := Crashed)
    else match Reconcile(c, env.staleLookup)
      case Some(ref) => Bind(c, stored, ref)
      case None => Save(c, stored.(state := New, reservedAt := None))
  }

  /** The forge accepted one more ticket for this fingerprint. */
  function Land(c: Cell): Cell {
    c.(ledger := c.ledger.(landed := c.ledger.landed + 1))
  }

  /** A fault hit an accepted ticket before it was bound. */
  function Lose(c: Cell): Cell {
    c.(ledger := c.ledger.(lost := c.ledger.lost + 1))
  }

  /** Binding a ticket this call created: if the row write does not happen, it is lost. */
  function BindFresh(c: Cell, reserved: Fingerprint, ref: TicketRef): Cell {
    var saved := Save(c, reserved.(ticket := Some(ref), reservedAt := None));
    if saved.mode.Running? then Audit(saved) else Lose(saved)
  }

  function Reserve(stored: Fingerprint, env: Env): Fingerprint {
    stored.(state := if env.cfg.autonomy.Observe? then Open else QueuedRca, reservedAt := Some(env.now))
  }

  /** The handling of a create call that raised; `c` already has its effect at the forge. */
  function AfterFailedCreate(c: Cell, stored: Fingerprint, reserved: Fingerprint, env: Env): Cell
    requires env.create.CreateFailed?
  {
    var landed := env.create.landed;
    if IsAmbiguousWrite(env.create.exc) then
      if env.lookup.LookupDied? then
        (if landed then Lose(c) else c).(mode := Crashed)
      else match Reconcile(c, env.lookup)
        case Some(ref) => if landed then BindFresh(c, reserved, ref) else Bind(c, reserved, ref)
        case None => (if landed then Lose(c) else c).(mode := Raised)
    else
      var c1 := Save(c, stored.(state := New, reservedAt := None));
      if c1.mode.Running? then c1.(mode := Raised) else c1
  }

  function CreateTicket(c: Cell, stored: Fingerprint, env: Env): Cell {
    if env.ticketsThisHour > env.cfg.maxTicketsPerHour then c
    else
      var reserved := Reserve(stored, env);
      var c1 := Save(c, reserved);
      if !c1.mode.Running? then c1
      else
        var c2 := if ReplyLanded(env.create) then Land(c1) else c1;
        match env.create
        case Accepted(ref) => BindFresh(c2, reserved, ref)
        case CreateFailed(_, _) => AfterFailedCreate(c2, stored, reserved, env)
        case CreateDied(landed) => (if landed then Lose(c2) else c2).(mode := Crashed)
  }

  // --- recurrence on an open ticket -----------------------------------------------------

  function CommentFloor(f: Fingerprint): nat {
    if f.commentedAt * 2 > 4 then f.commentedAt * 2 else 4
  }

  /** A comment call that failed; it may still have reached the forge. */
  function Unsaved(c: Cell, landed: bool): Cell {
    if landed then c.(ledger := c.ledger.(posted := c.ledger.posted + 1, unsaved := c.ledger.unsaved + 1)) else c
  }

  /** Whether the comment's row write went through decides how it is entered in the ledger. */
  function Remembered(c: Cell): Cell {
    if c.mode.Running? then c.(ledger := c.ledger.(persisted := c.ledger.persisted + 1))
    else c.(ledger := c.ledger.(unsaved := c.ledger.unsaved + 1))
  }

  /** Post a recurrence comment, then move the throttle anchor to the current count. */
  function Comment(c: Cell, stored: Fingerprint, reply: CallReply): Cell {
    match reply
    case Done =>
      var c1 := c.(ledger := c.ledger.(posted := c.ledger.posted + 1));
      var c2 := Save(c1, stored.(commentedAt := stored.occurrences));
      Remembered(c2)
    case CallFailed(landed) => Unsaved(c, landed).(mode := Raised)
    case CallDied(landed) => Unsaved(c, landed).(mode := Crashed)
  }

  function UpdateTicket(c: Cell, stored: Fingerprint, env: Env): Cell {
    if stored.state.ClosedAuto? then
      var c1 := Save(c, stored.(state := Reopened));
      if !c1.mode.Running? then c1
      else match env.call
        case Done => c1
        case CallFailed(_) => c1.(mode := Raised)
        case CallDied(_) => c1.(mode := Crashed)
    else if stored.occurrences < CommentFloor(stored) then c
    else Comment(c, stored, env.call)
  }

  // --- policy for one claimed event -------------------------------------------------------

  function Policy(c: Cell, stored: Fingerprint, env: Env): Cell {
    match Decide(stored, env.cfg, env.rateInWindow)
    case Record => c
    case Absorbed => c
    case Suppressed => c
    case Wake => if stored.ticket.None? then CreateTicket(c, stored, env) else UpdateTicket(c, stored, env)
  }

  /** The fingerprint the pass sees: the table row under the event's own service. */
  function StoredFor(c: Cell, service: string): Fingerprint {
    c.row.(service := service)
  }

  function Dispatch(c: Cell, service: string, env: Env): Cell {
    var c1 := RecoverInterrupted(c, StoredFor(c, service), env);
    if c1.mode.Running? then Policy(c1, StoredFor(c1, service), env) else c1
  }

  // --- one event against the whole process ------------------------------------------------

  /** What really happened at the forge, for every fingerprint there could be. */
  type Remote = f: imap<FpHash, Ledger> | (forall h :: h in f) ghost witness Untouched()

  ghost function Untouched(): imap<FpHash, Ledger> { imap h: FpHash | 0 <= |h| :: NO_TRAFFIC }

  datatype Proc = Proc(store: Store, forge: Remote, mode: Mode, ops: nat, stop: Halt)

  function Write(p: Proc, st: Store): Proc {
    if p.mode.Running? && p.ops > 0 then p.(store := st, ops := p.ops - 1)
    else if p.mode.Running? then p.(mode := p.stop)
    else p
  }

  function CellOf(p: Proc, h: FpHash): Cell
    requires h in p.store.fps
  {
    Cell(p.store.fps[h], p.forge[h], p.mode, p.ops, p.stop)
  }

  function PutCell(p: Proc, h: FpHash, c: Cell): Proc {
    Proc(p.store.(fps := p.store.fps[h := c.row]), p.forge[h := c.ledger], c.mode, c.ops, c.stop)
  }

  /** Everything after the claim: skipped for an event whose policy already ran. */
  function PolicyPass(p: Proc, ev: LogEvent, env: Env): Proc
    requires ev.fp in p.store.fps
  {
    if EventRowOf(p.store, ev.id).dispatched then p
    else
      var q := PutCell(p, ev.fp, Dispatch(CellOf(p, ev.fp), ev.service, env));
      if q.mode.Running? then Write(q, MarkDispatched(q.store, ev.id)) else q
  }

  function HandleEvent(p: Proc, ev: LogEvent, env: Env): Proc {
    var p1 := Write(p, Claim(p.store, ev));
    if p1.mode.Running? then PolicyPass(p1, ev, env) else p1
  }
}
