/** The relay end to end: webhooks into the broker's queue, batches out to a deployment
    that saves locally and only then acknowledges, with crashes and revocations between. */
module RelayRuns {
  import opened Basics
  import opened ConnectSpec
  import P = PairingRuns

  /** One record of a webhook's snapshot of the connected pairings, still to be relayed. */
  datatype Spool = Spool(id: Id, seen: Conn, hook: Webhook, delivery: DeliveryId)

  /** A deployment's receive loop: events still to handle, and whether the first is saved. */
  datatype Client = Opened | Holding(batch: seq<DeliveryId>, saved: bool)

  /** `home` says which deployment holds a pairing's credential; `inbox` is the local
      delivery table of each deployment; `accepted` remembers what the broker took, and when. */
  datatype Sys = Sys(
    p: P.Pairing, relay: Relay, spools: map<nat, Spool>, clients: map<Id, Client>,
    inbox: map<nat, seq<DeliveryId>>, accepted: map<Key, int>)

  datatype Step =
    | Broker(step: P.Step)
    | Snapshot(g: nat, id: Id, hook: Webhook, delivery: DeliveryId)
    | RelayOne(g: nat)
    | Open(id: Id)
    | Fetch(id: Id, batch: seq<DeliveryId>)
    | SaveLocal(id: Id)
    | Ack(id: Id)
    | ClientDies(id: Id)

  const START := Sys(P.START, map[], map[], map[], map[], map[])

  function Inbox(s: Sys, home: Id -> nat, id: Id): seq<DeliveryId> {
    if home(id) in s.inbox then s.inbox[home(id)] else []
  }

  /** Revocation deletes the pairing's queue in the same transaction. */
  function RelayAfter(p: P.Pairing, step: P.Step, relay: Relay): Relay {
    match step
    case Revoke(id) => WithoutConnection(relay, id)
    case EndPoll(f, reply) =>
      if reply.Refused? && f in p.flights && p.flights[f].Polling?
        then WithoutConnection(relay, p.flights[f].id) else relay
    case _ => relay
  }

  function Pairs(s: Sys, step: P.Step): Sys {
    s.(p := P.Next(s.p, step), relay := RelayAfter(s.p, step, s.relay))
  }

  function Queue(s: Sys, sp: Spool): Sys
    requires sp.seen.data.Bound?
  {
    var k := Key(sp.id, sp.delivery);
    s.(relay := Enqueued(s.relay, k, sp.hook, s.p.now),
    accepted := if CanEnqueue(s.relay, k, s.p.now) && k !in Purged(s.relay, s.p.now)
        then s.accepted[k := s.p.now] else s.accepted)
  }

  function Relayed(s: Sys, sp: Spool): Sys {
    if !sp.seen.data.Bound? then s
    else if RevokesGrant(sp.seen.data.owner, sp.seen.data.repository, sp.hook) then Pairs(s, P.Revoke(sp.id))
    else if Concerns(sp.seen.data.repository, sp.hook) then Queue(s, sp)
    else s
  }

  function SaveDelivery(inbox: seq<DeliveryId>, d: DeliveryId): seq<DeliveryId> {
    if d in inbox then inbox else inbox + [d]
  }

  ghost function Next(s: Sys, home: Id -> nat, a: Step): Sys {
    match a
    case Broker(step) => Pairs(s, step)
    case Snapshot(g, id, hook, delivery) =>
      if g !in s.spools && id in s.p.conns && s.p.conns[id].phase.Connected?
      then s.(spools := s.spools[g := Spool(id, s.p.conns[id], hook, delivery)]) else s
    case RelayOne(g) =>
      if g in s.spools then Relayed(s, s.spools[g]).(spools := s.spools - {g}) else s
    case Open(id) =>
      if P.CanRead(s.p, id) && s.p.conns[id].phase.Connected? then s.(clients := s.clients[id := Opened]) else s
    case Fetch(id, batch) =>
      if id in s.clients && s.clients[id].Opened? && IsBatch(s.relay, id, s.p.now, batch)
      then s.(clients := s.clients[id := Holding(batch, false)]) else s
    case SaveLocal(id) =>
      if id in s.clients && s.clients[id].Holding? && s.clients[id].batch != [] && !s.clients[id].saved
      then s.(inbox := s.inbox[home(id) := SaveDelivery(Inbox(s, home, id), s.clients[id].batch[0])],
              clients := s.clients[id := s.clients[id].(saved := true)])
      else s
    case Ack(id) =>
      if id in s.clients && s.clients[id].Holding? && s.clients[id].batch != [] && s.clients[id].saved then
        if P.CanRead(s.p, id)
        then s.(relay := Acknowledged(s.relay, Key(id, s.clients[id].batch[0])),
                clients := s.clients[id := Holding(s.clients[id].batch[1..], false)])
        else s.(clients := s.clients - {id})
      else s
    case ClientDies(id) => s.(clients := s.clients - {id})
  }

  // --- the invariant ---------------------------------------------------------------------

  /** The pairing is still connected. */
  predicate Live(p: P.Pairing, id: Id) { id in p.conns && p.conns[id].phase.Connected? }

  /** A queued event matches the repository its pairing was bound to, and an acknowledged
      one is in the deployment's own table. */
  predicate RowOk(s: Sys, home: Id -> nat, k: Key) {
    k in s.relay ==>
      && k.id in s.p.bound
      && s.relay[k].hook.installation == Some(s.p.bound[k.id].installation)
      && s.relay[k].hook.repository == Some(s.p.bound[k.id].id)
      && (s.relay[k].acknowledged ==> k.delivery in Inbox(s, home, k.id))
  }

  /** Nothing accepted is lost: it reached the deployment, or it is still waiting, or the
      pairing was revoked, or it is more than a day old. */
  predicate AcceptedOk(s: Sys, home: Id -> nat, k: Key) {
    k in s.accepted ==>
      && k.id in s.p.bound
      && (|| k.delivery in Inbox(s, home, k.id)
          || (k in s.relay && !s.relay[k].acknowledged && s.relay[k].created == s.accepted[k])
          || !Live(s.p, k.id)
          || s.accepted[k] < s.p.now - DAY)
  }

  predicate SpoolOk(p: P.Pairing, sp: Spool) {
    && sp.id in p.used && sp.seen.phase.Connected? && sp.seen.data.Bound?
    && sp.id in p.bound && p.bound[sp.id] == sp.seen.data.repository
  }

  predicate ClientOk(s: Sys, home: Id -> nat, id: Id, c: Client) {
    id in s.p.used && (c.Holding? && c.saved ==> c.batch != [] && c.batch[0] in Inbox(s, home, id))
  }

  predicate NoDuplicates(ds: seq<DeliveryId>) {
    forall i, j :: 0 <= i < j < |ds| ==> ds[i] != ds[j]
  }

  ghost predicate Inv(s: Sys, home: Id -> nat) {
    && P.Inv(s.p)
    && (forall k :: RowOk(s, home, k))
    && (forall k :: AcceptedOk(s, home, k))
    && (forall id :: |Waiting(s.relay, id)| <= CAPACITY)
    && (forall g | g in s.spools :: SpoolOk(s.p, s.spools[g]))
    && (forall id | id in s.clients :: ClientOk(s, home, id, s.clients[id]))
    && (forall d | d in s.inbox :: NoDuplicates(s.inbox[d]))
  }

  // --- the queue bound ---------------------------------------------------------------------

  lemma SubsetSize<T>(a: set<T>, b: set<T>)
    requires a <= b
    ensures |a| <= |b|
  {
    assert b == a + (b - a);
  }

  lemma EnqueueBound(relay: Relay, k: Key, hook: Webhook, now: int, id: Id)
    requires |Waiting(relay, id)| <= CAPACITY
    ensures |Waiting(Enqueued(relay, k, hook, now), id)| <= CAPACITY
  {
    var relay' := Enqueued(relay, k, hook, now);
    var purged := Purged(relay, now);
    SubsetSize(Waiting(purged, id), Waiting(relay, id));
    if CanEnqueue(relay, k, now) && k !in purged && id == k.id {
      assert Waiting(relay', id) == Waiting(purged, id) + {k};
    } else if CanEnqueue(relay, k, now) {
      assert Waiting(relay', id) == Waiting(purged, id);
    }
  }

  lemma ShrinkBound(relay: Relay, relay': Relay, id: Id)
    requires |Waiting(relay, id)| <= CAPACITY && Waiting(relay', id) <= Waiting(relay, id)
    ensures |Waiting(relay', id)| <= CAPACITY
  {
    SubsetSize(Waiting(relay', id), Waiting(relay, id));
  }

  // --- one step ------------------------------------------------------------------------------

  /** What any pairing step leaves true: bindings and ids stay, and a bound pairing that
      is not live never is again. */
  predicate PairingGrew(p: P.Pairing, p': P.Pairing, id: Id) {
    && p'.now >= p.now
    && (id in p.used ==> id in p'.used)
    && (id in p.bound ==> id in p'.bound && p'.bound[id] == p.bound[id])
    && (id in p.bound && Live(p', id) ==> Live(p, id))
  }

  lemma PairingGrows(p: P.Pairing, step: P.Step, id: Id)
    requires P.Inv(p)
    ensures PairingGrew(p, P.Next(p, step), id)
  {
    P.CallersTellTheTruth(p, step);
    assert P.SlotOk(P.SlotOf(p, id), p.now);
    P.StepMoves(p, step, id);
    var t, t' := P.SlotOf(p, id), P.SlotOf(P.Next(p, step), id);
    assert P.Grows(t, t') && P.SlotOk(t', P.Next(p, step).now);
    TimePasses(p, step);
  }

  lemma TimePasses(p: P.Pairing, step: P.Step)
    ensures P.Next(p, step).now >= p.now
  {
  }

  /** A row that leaves the queue this way belongs to a pairing that is no longer live. */
  lemma DroppedRowsAreDead(p: P.Pairing, step: P.Step, relay: Relay, k: Key)
    requires k in relay
    ensures if k in RelayAfter(p, step, relay)
      then RelayAfter(p, step, relay)[k] == relay[k] else !Live(P.Next(p, step), k.id)
  {
  }

  lemma PairsKey(s: Sys, home: Id -> nat, step: P.Step, k: Key)
    requires P.Inv(s.p) && RowOk(s, home, k) && AcceptedOk(s, home, k)
    ensures RowOk(Pairs(s, step), home, k) && AcceptedOk(Pairs(s, step), home, k)
  {
    var s' := Pairs(s, step);
    PairingGrows(s.p, step, k.id);
    if k in s.relay { DroppedRowsAreDead(s.p, step, s.relay, k); }
    assert k in s'.relay ==> k in s.relay;
    assert Inbox(s', home, k.id) == Inbox(s, home, k.id);
  }

  lemma PairsKeeps(s: Sys, home: Id -> nat, step: P.Step)
    requires Inv(s, home)
    ensures Inv(Pairs(s, step), home)
  {
    var s' := Pairs(s, step);
    P.StepKeeps(s.p, step);
    forall k ensures RowOk(s', home, k) && AcceptedOk(s', home, k) { PairsKey(s, home, step, k); }
    forall id ensures |Waiting(s'.relay, id)| <= CAPACITY { ShrinkBound(s.relay, s'.relay, id); }
    forall g | g in s.spools ensures SpoolOk(s'.p, s.spools[g]) { PairingGrows(s.p, step, s.spools[g].id); }
    forall id | id in s.clients ensures ClientOk(s', home, id, s.clients[id]) { PairingGrows(s.p, step, id); }
  }

  lemma QueueKey(s: Sys, home: Id -> nat, sp: Spool, k: Key)
    requires SpoolOk(s.p, sp) && Concerns(sp.seen.data.repository, sp.hook)
    requires RowOk(s, home, k) && AcceptedOk(s, home, k)
    ensures RowOk(Queue(s, sp), home, k) && AcceptedOk(Queue(s, sp), home, k)
  {
    assert Inbox(Queue(s, sp), home, k.id) == Inbox(s, home, k.id);
  }

  lemma QueueKeeps(s: Sys, home: Id -> nat, sp: Spool)
    requires Inv(s, home) && SpoolOk(s.p, sp) && Concerns(sp.seen.data.repository, sp.hook)
    ensures Inv(Queue(s, sp), home)
  {
    var s' := Queue(s, sp);
    forall k ensures RowOk(s', home, k) && AcceptedOk(s', home, k) { QueueKey(s, home, sp, k); }
    forall id ensures |Waiting(s'.relay, id)| <= CAPACITY {
      EnqueueBound(s.relay, Key(sp.id, sp.delivery), sp.hook, s.p.now, id);
    }
  }

  /** Saving locally is idempotent, and only ever adds to a deployment's table. */
  lemma SaveKeepsUnique(inbox: seq<DeliveryId>, d: DeliveryId)
    requires NoDuplicates(inbox)
    ensures NoDuplicates(SaveDelivery(inbox, d)) && d in SaveDelivery(inbox, d)
    ensures forall e :: e in inbox ==> e in SaveDelivery(inbox, d)
  {
  }

  lemma SaveKeeps(s: Sys, home: Id -> nat, id: Id)
    requires Inv(s, home)
    ensures Inv(Next(s, home, SaveLocal(id)), home)
  {
    var s' := Next(s, home, SaveLocal(id));
    if s' != s {
      assert NoDuplicates(Inbox(s, home, id));
      SaveKeepsUnique(Inbox(s, home, id), s.clients[id].batch[0]);
      assert forall i, d :: d in Inbox(s, home, i) ==> d in Inbox(s', home, i);
      forall k ensures RowOk(s', home, k) && AcceptedOk(s', home, k) {
        assert RowOk(s, home, k) && AcceptedOk(s, home, k);
      }
      forall i | i in s'.clients ensures ClientOk(s', home, i, s'.clients[i]) {
        assert ClientOk(s, home, i, s.clients[i]);
      }
    }
  }

  function AckAt(s: Sys, id: Id): Sys
    requires id in s.clients && s.clients[id].Holding? && s.clients[id].batch != []
  {
    s.(relay := Acknowledged(s.relay, Key(id, s.clients[id].batch[0])),
    clients := s.clients[id := Holding(s.clients[id].batch[1..], false)])
  }

  lemma AckKey(s: Sys, home: Id -> nat, id: Id, k: Key)
    requires id in s.clients && s.clients[id].Holding? && s.clients[id].batch != []
    requires s.clients[id].batch[0] in Inbox(s, home, id)
    requires RowOk(s, home, k) && AcceptedOk(s, home, k)
    ensures RowOk(AckAt(s, id), home, k) && AcceptedOk(AckAt(s, id), home, k)
  {
    assert Inbox(AckAt(s, id), home, k.id) == Inbox(s, home, k.id);
  }

  lemma AckKeeps(s: Sys, home: Id -> nat, id: Id)
    requires Inv(s, home)
    requires id in s.clients && s.clients[id].Holding? && s.clients[id].batch != [] && s.clients[id].saved
    ensures Inv(AckAt(s, id), home)
  {
    var s' := AckAt(s, id);
    assert ClientOk(s, home, id, s.clients[id]);
    forall k ensures RowOk(s', home, k) && AcceptedOk(s', home, k) { AckKey(s, home, id, k); }
    forall i ensures |Waiting(s'.relay, i)| <= CAPACITY { ShrinkBound(s.relay, s'.relay, i); }
    forall i | i in s'.clients ensures ClientOk(s', home, i, s'.clients[i]) {
      assert ClientOk(s, home, i, s.clients[i]);
      assert Inbox(s', home, i) == Inbox(s, home, i);
    }
  }

  lemma ClientsKeep(s: Sys, home: Id -> nat, clients: map<Id, Client>)
    requires Inv(s, home) && forall id | id in clients :: ClientOk(s, home, id, clients[id])
    ensures Inv(s.(clients := clients), home)
  {
    var s' := s.(clients := clients);
    forall k ensures RowOk(s', home, k) && AcceptedOk(s', home, k) {
      assert RowOk(s, home, k) && AcceptedOk(s, home, k);
    }
    forall id | id in clients ensures ClientOk(s', home, id, clients[id]) {
      assert Inbox(s', home, id) == Inbox(s, home, id);
    }
  }

  lemma SpoolsKeep(s: Sys, home: Id -> nat, spools: map<nat, Spool>)
    requires Inv(s, home) && forall g | g in spools :: SpoolOk(s.p, spools[g])
    ensures Inv(s.(spools := spools), home)
  {
    var s' := s.(spools := spools);
    forall k ensures RowOk(s', home, k) && AcceptedOk(s', home, k) {
      assert RowOk(s, home, k) && AcceptedOk(s, home, k);
    }
    forall id | id in s.clients ensures ClientOk(s', home, id, s.clients[id]) {
      assert ClientOk(s, home, id, s.clients[id]);
    }
  }

  lemma RelayedKeeps(s: Sys, home: Id -> nat, sp: Spool)
    requires Inv(s, home) && SpoolOk(s.p, sp)
    ensures Inv(Relayed(s, sp), home) && Relayed(s, sp).spools == s.spools
    ensures forall g | g in s.spools :: SpoolOk(Relayed(s, sp).p, s.spools[g])
  {
    PairsKeeps(s, home, P.Revoke(sp.id));
    if Concerns(sp.seen.data.repository, sp.hook) { QueueKeeps(s, home, sp); }
  }

  lemma SnapshotKnows(p: P.Pairing, id: Id, hook: Webhook, delivery: DeliveryId)
    requires P.Inv(p) && id in p.conns && p.conns[id].phase.Connected?
    ensures SpoolOk(p, Spool(id, p.conns[id], hook, delivery))
  {
    assert P.SlotOk(P.SlotOf(p, id), p.now);
  }

  lemma StepKeeps(s: Sys, home: Id -> nat, a: Step)
    requires Inv(s, home)
    ensures Inv(Next(s, home, a), home)
  {
    match a
    case Broker(step) => PairsKeeps(s, home, step);
    case Snapshot(g, id, hook, delivery) =>
      if g !in s.spools && id in s.p.conns && s.p.conns[id].phase.Connected? {
        SnapshotKnows(s.p, id, hook, delivery);
        SpoolsKeep(s, home, s.spools[g := Spool(id, s.p.conns[id], hook, delivery)]);
      }
    case RelayOne(g) =>
      if g in s.spools {
        RelayedKeeps(s, home, s.spools[g]);
        SpoolsKeep(Relayed(s, s.spools[g]), home, s.spools - {g});
      }
    case Open(id) =>
      assert P.SlotOk(P.SlotOf(s.p, id), s.p.now);
      if P.CanRead(s.p, id) && s.p.conns[id].phase.Connected? { ClientsKeep(s, home, s.clients[id := Opened]); }
    case Fetch(id, batch) =>
      if id in s.clients { ClientsKeep(s, home, s.clients[id := Holding(batch, false)]); }
    case SaveLocal(id) => SaveKeeps(s, home, id);
    case Ack(id) =>
      if id in s.clients && s.clients[id].Holding? && s.clients[id].batch != [] && s.clients[id].saved {
        AckKeeps(s, home, id);
        ClientsKeep(s, home, s.clients - {id});
      }
    case ClientDies(id) => ClientsKeep(s, home, s.clients - {id});
  }

  // --- whole runs ------------------------------------------------------------------------------

  ghost function Run(home: Id -> nat, steps: seq<Step>): Sys
    decreases |steps|
  {
    if steps == [] then START else Next(Run(home, steps[..|steps| - 1]), home, steps[|steps| - 1])
  }

  lemma {:induction false} Reachable(home: Id -> nat, steps: seq<Step>)
    ensures Inv(Run(home, steps), home)
    decreases |steps|
  {
    if steps == [] {
      P.Reachable([]);
    } else {
      Reachable(home, steps[..|steps| - 1]);
      StepKeeps(Run(home, steps[..|steps| - 1]), home, steps[|steps| - 1]);
    }
  }

  /** The broker holds an event as acknowledged only once it is in the deployment's own
      table, each deployment holds each event once however often it is sent again, and no
      pairing has more than a thousand events waiting. */
  lemma AcknowledgedIsSavedOnce(home: Id -> nat, steps: seq<Step>, k: Key)
    ensures var s := Run(home, steps);
      && (k in s.relay && s.relay[k].acknowledged ==> k.delivery in Inbox(s, home, k.id))
      && NoDuplicates(Inbox(s, home, k.id))
      && |Waiting(s.relay, k.id)| <= 1000
  {
    Reachable(home, steps);
    assert RowOk(Run(home, steps), home, k);
  }

  /** Nothing the broker accepted goes missing: it reached the deployment, or still waits
      unacknowledged, or its pairing is no longer connected, or it is over a day old. */
  lemma NothingAcceptedIsLost(home: Id -> nat, steps: seq<Step>, k: Key)
    requires var s := Run(home, steps); k in s.accepted && Live(s.p, k.id) && s.accepted[k] >= s.p.now - DAY
    ensures var s := Run(home, steps); k.delivery in Inbox(s, home, k.id) || Deliverable(s.relay, k, k.id, s.p.now)
  {
    Reachable(home, steps);
    assert AcceptedOk(Run(home, steps), home, k);
  }

  /** Every webhook handed out was about the installation and repository its pairing is, or was
      until revoked, bound to. */
  lemma BatchesMatchTheirBinding(home: Id -> nat, steps: seq<Step>, id: Id, batch: seq<DeliveryId>, i: nat)
    requires var s := Run(home, steps); IsBatch(s.relay, id, s.p.now, batch) && i < |batch|
    ensures var s := Run(home, steps);
      var hook := s.relay[Key(id, batch[i])].hook;
      && id in s.p.bound
      && hook.installation == Some(s.p.bound[id].installation) && hook.repository == Some(s.p.bound[id].id)
      && (Live(s.p, id) ==> s.p.conns[id].data.Bound? && s.p.conns[id].data.repository == s.p.bound[id])
  {
    Reachable(home, steps);
    var s := Run(home, steps);
    assert Deliverable(s.relay, Key(id, batch[i]), id, s.p.now);
    assert RowOk(s, home, Key(id, batch[i])) && P.SlotOk(P.SlotOf(s.p, id), s.p.now);
  }

  /** An unacknowledged event leaves the broker only when its pairing is revoked or it is
      over a day old. */
  lemma LeavesOnlyByRevocationOrAge(s: Sys, home: Id -> nat, a: Step, k: Key)
    requires k in s.relay && k !in Next(s, home, a).relay
    ensures !Live(Next(s, home, a).p, k.id) || s.relay[k].created < s.p.now - DAY
  {
    match a
    case Broker(step) => DroppedRowsAreDead(s.p, step, s.relay, k);
    case RelayOne(g) =>
      var sp := s.spools[g];
      if sp.seen.data.Bound? && RevokesGrant(sp.seen.data.owner, sp.seen.data.repository, sp.hook) {
        DroppedRowsAreDead(s.p, P.Revoke(sp.id), s.relay, k);
      }
    case _ =>
  }
}
