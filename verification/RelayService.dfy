/** The two loops at the ends of the relay: a webhook spread over the connected pairings, and
    a deployment's receive. */
module RelayService {
  import opened Basics
  import opened ConnectSpec
  import opened ConnectStores
  import P = PairingRuns
  import R = RelayRuns

  datatype Tables = Tables(connections: Table, relay: Relay)

  /** What one webhook does for one connected record of its snapshot. */
  function Spread(t: Tables, id: Id, seen: Conn, hook: Webhook, delivery: DeliveryId, now: int): Tables
    requires seen.data.Bound?
  {
    var repo := seen.data.repository;
    if RevokesGrant(seen.data.owner, repo, hook)
    then Tables(RevokedIn(t.connections, id), WithoutConnection(t.relay, id))
    else if Concerns(repo, hook) then t.(relay := Enqueued(t.relay, Key(id, delivery), hook, now))
    else t
  }

  predicate Blocked(t: Tables, id: Id, seen: Conn, hook: Webhook, delivery: DeliveryId, now: int)
    requires seen.data.Bound?
  {
    && !RevokesGrant(seen.data.owner, seen.data.repository, hook) && Concerns(seen.data.repository, hook)
    && !CanEnqueue(t.relay, Key(id, delivery), now)
  }

  function SpreadAll(t: Tables, records: seq<(Id, Conn)>, hook: Webhook, delivery: DeliveryId, now: int): Tables
    requires forall i :: 0 <= i < |records| ==> records[i].1.data.Bound?
  {
    if records == [] then t
    else
      var last := records[|records| - 1];
      Spread(SpreadAll(t, records[..|records| - 1], hook, delivery, now), last.0, last.1, hook, delivery, now)
  }

  /** No record met a full queue. */
  predicate Unblocked(t: Tables, records: seq<(Id, Conn)>, hook: Webhook, delivery: DeliveryId, now: int)
    requires forall i :: 0 <= i < |records| ==> records[i].1.data.Bound?
  {
    records == []
    || var front, last := records[..|records| - 1], records[|records| - 1];
       Unblocked(t, front, hook, delivery, now)
       && !Blocked(SpreadAll(t, front, hook, delivery, now), last.0, last.1, hook, delivery, now)
  }

  /** One record's turn is the relay machine's own step. */
  lemma SpreadIsRelayed(s: R.Sys, sp: R.Spool)
    requires sp.seen.data.Bound?
    ensures var t := Spread(Tables(s.p.conns, s.relay), sp.id, sp.seen, sp.hook, sp.delivery, s.p.now);
      R.Relayed(s, sp).p.conns == t.connections && R.Relayed(s, sp).relay == t.relay
  {
    RevokeIsPairs(s, sp.id);
    QueueIsEnqueued(s, sp);
  }

  lemma RevokeIsPairs(s: R.Sys, id: Id)
    ensures var s' := R.Pairs(s, P.Revoke(id));
      s'.p.conns == RevokedIn(s.p.conns, id) && s'.relay == WithoutConnection(s.relay, id)
  {
  }

  lemma QueueIsEnqueued(s: R.Sys, sp: R.Spool)
    requires sp.seen.data.Bound?
    ensures var s' := R.Queue(s, sp);
      && s'.p.conns == s.p.conns
      && s'.relay == Enqueued(s.relay, Key(sp.id, sp.delivery), sp.hook, s.p.now)
  {
  }

  /** Relaying goes record by record and stops at the first full queue. */
  method Relay(store: ConnectStore, records: seq<(Id, Conn)>, hook: Webhook, delivery: DeliveryId, now: int)
    returns (done: nat)
    requires store.Valid() && forall i :: 0 <= i < |records| ==> records[i].1.data.Bound?
    modifies store
    ensures store.Valid() && done <= |records|
    ensures var t := SpreadAll(old(Tables(store.connections, store.relay)), records[..done], hook, delivery, now);
      && t == Tables(store.connections, store.relay)
      && (done < |records| ==> Blocked(t, records[done].0, records[done].1, hook, delivery, now))
    ensures Unblocked(old(Tables(store.connections, store.relay)), records[..done], hook, delivery, now)
  {
    ghost var before := Tables(store.connections, store.relay);
    done := 0;
    while done < |records|
      invariant store.Valid() && done <= |records|
      invariant Tables(store.connections, store.relay) == SpreadAll(before, records[..done], hook, delivery, now)
      invariant Unblocked(before, records[..done], hook, delivery, now)
    {
      var (id, seen) := records[done];
      var repo := seen.data.repository;
      assert records[..done + 1][..done] == records[..done];
      var revoke :=
        hook.kind == "github_app_authorization" && hook.action == "revoked" && hook.sender == Some(seen.data.owner);
      if hook.installation == Some(repo.installation) {
        revoke := revoke || (hook.kind == "installation" && (hook.action == "deleted" || hook.action == "suspend"));
        revoke := revoke || Some(repo.id) in hook.removed;
      }
      if revoke {
        store.RevokeId(id);
      } else if hook.installation == Some(repo.installation) && hook.repository == Some(repo.id) {
        var ok := store.Enqueue(id, delivery, hook, now);
        if !ok { return; }
      }
      done := done + 1;
    }
  }

  // --- whom a webhook reaches ---------------------------------------------------------------------

  /** The webhook withdraws the grant of a pairing: its owner revoked the app, or its installation was
      deleted or suspended, or lost the repository. */
  predicate Withdraws(seen: Conn, hook: Webhook)
    requires seen.data.Bound?
  {
    || (hook.kind == "github_app_authorization" && hook.action == "revoked" && hook.sender == Some(seen.data.owner))
    || (hook.installation == Some(seen.data.repository.installation) && hook.kind == "installation"
        && (hook.action == "deleted" || hook.action == "suspend"))
    || (hook.installation == Some(seen.data.repository.installation) && Some(seen.data.repository.id) in hook.removed)
  }

  /** The webhook is about the installation and the repository a pairing is bound to. */
  predicate IsAbout(hook: Webhook, seen: Conn)
    requires seen.data.Bound?
  {
    hook.installation == Some(seen.data.repository.installation) && hook.repository == Some(seen.data.repository.id)
  }

  /** The queue of a pairing gained nothing, and lost at most what is over a day old. */
  ghost predicate GainedNothing(before: Relay, after: Relay, id: Id, now: int) {
    forall k: Key | k.id == id ::
      && (k in after ==> k in before && after[k] == before[k])
      && (k in before && before[k].created >= now - 86400 ==> k in after)
  }

  predicate SameRow(before: Table, after: Table, id: Id) {
    (id in after <==> id in before) && (id in before ==> after[id] == before[id])
  }

  /** What a webhook has done to one pairing. */
  ghost predicate Reached(
      before: Tables, after: Tables, id: Id, seen: Conn, hook: Webhook, delivery: DeliveryId, now: int)
    requires seen.data.Bound?
  {
    var k := Key(id, delivery);
    if Withdraws(seen, hook) then
      && (forall j | j in after.relay :: j.id != id)
      && (id in before.connections ==>
            id in after.connections
            && after.connections[id] == before.connections[id].(phase := Revoked, data := Blank))
    else if IsAbout(hook, seen) then
      && SameRow(before.connections, after.connections, id)
      && k in after.relay
      && after.relay[k] == (if k in before.relay && before.relay[k].created >= now - 86400 then before.relay[k]
                            else Row(hook, now, false))
      && GainedNothing(before.relay - {k}, after.relay - {k}, id, now)
    else
      SameRow(before.connections, after.connections, id) && GainedNothing(before.relay, after.relay, id, now)
  }

  lemma SpreadHere(t: Tables, id: Id, seen: Conn, hook: Webhook, delivery: DeliveryId, now: int)
    requires seen.data.Bound? && !Blocked(t, id, seen, hook, delivery, now)
    ensures Reached(t, Spread(t, id, seen, hook, delivery, now), id, seen, hook, delivery, now)
  {
  }

  lemma SpreadElsewhere(t: Tables, other: Id, seen: Conn, hook: Webhook, delivery: DeliveryId, now: int, id: Id)
    requires seen.data.Bound? && id != other
    ensures var t' := Spread(t, other, seen, hook, delivery, now);
      SameRow(t.connections, t'.connections, id) && GainedNothing(t.relay, t'.relay, id, now)
  {
  }

  lemma {:induction false} AllElsewhere(
      t: Tables, records: seq<(Id, Conn)>, hook: Webhook, delivery: DeliveryId, now: int, id: Id)
    requires forall i :: 0 <= i < |records| ==> records[i].1.data.Bound? && records[i].0 != id
    ensures var t' := SpreadAll(t, records, hook, delivery, now);
      SameRow(t.connections, t'.connections, id) && GainedNothing(t.relay, t'.relay, id, now)
  {
    if records != [] {
      var front, last := records[..|records| - 1], records[|records| - 1];
      AllElsewhere(t, front, hook, delivery, now, id);
      SpreadElsewhere(SpreadAll(t, front, hook, delivery, now), last.0, last.1, hook, delivery, now, id);
    }
  }

  lemma ReachedLater(
      t: Tables, here: Tables, after: Tables, id: Id, seen: Conn, hook: Webhook, delivery: DeliveryId, now: int)
    requires seen.data.Bound? && Reached(t, here, id, seen, hook, delivery, now)
    requires SameRow(here.connections, after.connections, id) && GainedNothing(here.relay, after.relay, id, now)
    ensures Reached(t, after, id, seen, hook, delivery, now)
  {
  }

  lemma ReachedAfter(
      t: Tables, before: Tables, here: Tables, id: Id, seen: Conn, hook: Webhook, delivery: DeliveryId, now: int)
    requires seen.data.Bound? && Reached(before, here, id, seen, hook, delivery, now)
    requires SameRow(t.connections, before.connections, id) && GainedNothing(t.relay, before.relay, id, now)
    ensures Reached(t, here, id, seen, hook, delivery, now)
  {
  }

  /** Once a webhook has gone through its records, each pairing has what the webhook means for it and
      nothing else: revoked with its queue gone, or the event in its queue, or nothing gained. */
  lemma {:induction false} RelayReaches(
      t: Tables, records: seq<(Id, Conn)>, hook: Webhook, delivery: DeliveryId, now: int, i: nat)
    requires forall j :: 0 <= j < |records| ==> records[j].1.data.Bound?
    requires forall j, k :: 0 <= j < k < |records| ==> records[j].0 != records[k].0
    requires Unblocked(t, records, hook, delivery, now) && i < |records|
    ensures Reached(t, SpreadAll(t, records, hook, delivery, now), records[i].0, records[i].1, hook, delivery, now)
  {
    var front, last := records[..|records| - 1], records[|records| - 1];
    var t1 := SpreadAll(t, front, hook, delivery, now);
    var t2 := Spread(t1, last.0, last.1, hook, delivery, now);
    if i == |records| - 1 {
      AllElsewhere(t, front, hook, delivery, now, last.0);
      SpreadHere(t1, last.0, last.1, hook, delivery, now);
      ReachedAfter(t, t1, t2, last.0, last.1, hook, delivery, now);
    } else {
      RelayReaches(t, front, hook, delivery, now, i);
      SpreadElsewhere(t1, last.0, last.1, hook, delivery, now, records[i].0);
      ReachedLater(t, t1, t2, records[i].0, records[i].1, hook, delivery, now);
    }
  }

  /** Relaying stops only where the event is for the pairing, is not queued already, and a thousand
      others of the last day wait there unacknowledged. */
  lemma BlockedIff(t: Tables, id: Id, seen: Conn, hook: Webhook, delivery: DeliveryId, now: int)
    requires seen.data.Bound?
    ensures Blocked(t, id, seen, hook, delivery, now) <==>
      && !Withdraws(seen, hook) && IsAbout(hook, seen)
      && (Key(id, delivery) !in t.relay || t.relay[Key(id, delivery)].created < now - 86400)
      && |set k | k in t.relay && k.id == id && !t.relay[k].acknowledged && t.relay[k].created >= now - 86400| >= 1000
  {
    assert Waiting(Purged(t.relay, now), id)
        == set k | k in t.relay && k.id == id && !t.relay[k].acknowledged && t.relay[k].created >= now - 86400;
  }

  // --- a deployment ---------------------------------------------------------------------------

  function SavedAll(inbox: seq<DeliveryId>, batch: seq<DeliveryId>): seq<DeliveryId> {
    if batch == [] then inbox else R.SaveDelivery(SavedAll(inbox, batch[..|batch| - 1]), batch[|batch| - 1])
  }

  function AcknowledgedAll(relay: Relay, id: Id, batch: seq<DeliveryId>): Relay {
    if batch == [] then relay
    else Acknowledged(AcknowledgedAll(relay, id, batch[..|batch| - 1]), Key(id, batch[|batch| - 1]))
  }

  /** Where a receive breaks off: the events never arrive, a local save fails, or an
      acknowledgement fails, which may still have reached the broker. */
  datatype Fault = Smooth | FetchLost | SaveFails(at: nat) | AckLost(at: nat, landed: bool)

  /** How many events of a batch are saved, and how many acknowledged. */
  function SavedUpTo(n: nat, fault: Fault): (k: nat)
    ensures k <= n
    ensures fault.Smooth? ==> k == n
  {
    match fault
    case Smooth => n
    case FetchLost => 0
    case SaveFails(at) => if at < n then at else n
    case AckLost(at, _) => if at < n then at + 1 else n
  }

  function AckedUpTo(n: nat, fault: Fault): (k: nat)
    ensures k <= SavedUpTo(n, fault) <= k + 1
    ensures fault.Smooth? ==> k == n
  {
    match fault
    case AckLost(at, landed) => if at < n && !landed then at else SavedUpTo(n, fault)
    case _ => SavedUpTo(n, fault)
  }

  class ConnectClient {
    const credential: Credential
    const connected: bool
    var inbox: seq<DeliveryId>

    constructor (credential: Credential, connected: bool)
      ensures this.credential == credential && this.connected == connected && inbox == []
    {
      this.credential, this.connected, inbox := credential, connected, [];
    }

    /** Each event of a batch is saved locally, then acknowledged, until something fails. */
    method TakeBatch(store: ConnectStore, id: Id, batch: seq<DeliveryId>, now: int, fault: Fault)
      requires store.Valid() && store.Serves(credential) && !fault.FetchLost?
      requires id in store.connections && store.connections[id].credential == credential
      modifies this, store`relay
      ensures inbox == SavedAll(old(inbox), batch[..SavedUpTo(|batch|, fault)])
      ensures store.relay == AcknowledgedAll(old(store.relay), id, batch[..AckedUpTo(|batch|, fault)])
    {
      for i := 0 to |batch|
        invariant inbox == SavedAll(old(inbox), batch[..i])
        invariant store.relay == AcknowledgedAll(old(store.relay), id, batch[..i])
        invariant (fault.SaveFails? || fault.AckLost?) ==> fault.at >= i
      {
        assert batch[..i + 1][..i] == batch[..i];
        if fault == SaveFails(i) { return; }
        if batch[i] !in inbox { inbox := inbox + [batch[i]]; }
        if fault == AckLost(i, false) { return; }
        AcknowledgeOne(store, id, batch[i], now);
        if fault == AckLost(i, true) { return; }
      }
      assert batch[..|batch|] == batch;
    }

    method AcknowledgeOne(store: ConnectStore, id: Id, delivery: DeliveryId, now: int)
      requires store.Valid() && store.Serves(credential)
      requires id in store.connections && store.connections[id].credential == credential
      modifies store`relay
      ensures store.relay == Acknowledged(old(store.relay), Key(id, delivery))
    {
      var ok := store.Acknowledge(credential, delivery, now);
      assert ok;
    }

    /** A deployment that is not connected asks for nothing, and a broker that does not serve
        the credential gives nothing. */
    method Receive(store: ConnectStore, id: Id, now: int, fault: Fault) returns (batch: seq<DeliveryId>)
      requires store.Valid() && (store.Serves(credential) ==> id in store.connections)
      requires id in store.connections ==> store.connections[id].credential == credential
      modifies this, store`relay
      ensures !connected || !store.Serves(credential) || fault.FetchLost? ==>
        batch == [] && inbox == old(inbox) && store.relay == old(store.relay)
      ensures connected && store.Serves(credential) && !fault.FetchLost? ==>
        && IsBatch(old(store.relay), id, now, batch)
        && inbox == SavedAll(old(inbox), batch[..SavedUpTo(|batch|, fault)])
        && store.relay == AcknowledgedAll(old(store.relay), id, batch[..AckedUpTo(|batch|, fault)])
    {
      batch := [];
      if !connected { return; }
      var given := store.Events(credential, now);
      if given.None? || fault.FetchLost? { return; }
      batch := given.value;
      TakeBatch(store, id, batch, now, fault);
    }
  }

  lemma InPrefix(batch: seq<DeliveryId>, n: nat, i: nat)
    requires n <= |batch| && i < |batch| && forall j, k :: 0 <= j < k < |batch| ==> batch[j] != batch[k]
    ensures batch[i] in batch[..n] <==> i < n
  {
    if i < n { assert batch[..n][i] == batch[i]; }
  }

  /** However a receive breaks off, what it acknowledged it had saved, and what it did not
      acknowledge is still to be sent. */
  lemma BrokenReceiveLosesNothing(
      relay: Relay, inbox: seq<DeliveryId>, id: Id, batch: seq<DeliveryId>, now: int, fault: Fault, i: nat)
    requires IsBatch(relay, id, now, batch) && R.NoDuplicates(inbox) && i < |batch|
    ensures var inbox' := SavedAll(inbox, batch[..SavedUpTo(|batch|, fault)]);
      var relay' := AcknowledgedAll(relay, id, batch[..AckedUpTo(|batch|, fault)]);
      && R.NoDuplicates(inbox')
      && (batch[i] in inbox' || Deliverable(relay', Key(id, batch[i]), id, now))
      && (i < AckedUpTo(|batch|, fault) <==> !Deliverable(relay', Key(id, batch[i]), id, now))
  {
    var s, a := SavedUpTo(|batch|, fault), AckedUpTo(|batch|, fault);
    forall k | 0 <= k < |batch| ensures Key(id, batch[k]) in relay {
      assert Deliverable(relay, Key(id, batch[k]), id, now);
    }
    ReceiveSettles(relay, inbox, id, batch[..s]);
    ReceiveSettles(relay, inbox, id, batch[..a]);
    InPrefix(batch, a, i);
    InPrefix(batch, s, i);
    StillDeliverable(relay, AcknowledgedAll(relay, id, batch[..a]), id, batch[i], now, batch[i] in batch[..a]);
  }

  lemma StillDeliverable(relay: Relay, relay': Relay, id: Id, d: DeliveryId, now: int, acked: bool)
    requires Deliverable(relay, Key(id, d), id, now) && Key(id, d) in relay'
    requires relay'[Key(id, d)] == relay[Key(id, d)].(acknowledged := relay[Key(id, d)].acknowledged || acked)
    ensures Deliverable(relay', Key(id, d), id, now) <==> !acked
  {
  }

  /** A complete receive leaves no event of its batch to be sent again, has all of them in the
      local table, keeps what was there, and never holds an event twice. */
  lemma {:induction false} ReceiveSettles(relay: Relay, inbox: seq<DeliveryId>, id: Id, batch: seq<DeliveryId>)
    requires R.NoDuplicates(inbox)
    requires forall i :: 0 <= i < |batch| ==> Key(id, batch[i]) in relay
    ensures R.NoDuplicates(SavedAll(inbox, batch)) && inbox <= SavedAll(inbox, batch)
    ensures forall d :: d in SavedAll(inbox, batch) <==> d in inbox || d in batch
    ensures AcknowledgedAll(relay, id, batch).Keys == relay.Keys
    ensures forall k | k in relay ::
      AcknowledgedAll(relay, id, batch)[k]
      == relay[k].(acknowledged := relay[k].acknowledged || (k.id == id && k.delivery in batch))
  {
    if batch != [] {
      var rest, last := batch[..|batch| - 1], batch[|batch| - 1];
      ReceiveSettles(relay, inbox, id, rest);
      R.SaveKeepsUnique(SavedAll(inbox, rest), last);
      assert forall d :: d in batch <==> d in rest || d == last;
    }
  }
}
