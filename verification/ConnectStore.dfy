/** The broker's store in place: every method is one transaction over the tables, and does
    what the pairing and relay machines say that step does. */
module ConnectStores {
  import opened Basics
  import opened ConnectSpec
  import C = Ceilings
  import P = PairingRuns

  class ConnectStore {
    var connections: Table
    var relay: Relay
    var admission: Option<C.Admission>

    constructor ()
      ensures connections == map[] && relay == map[] && admission == None && Valid()
    {
      connections, relay, admission := map[], map[], None;
    }

    /** Credentials are unique. */
    ghost predicate Valid()
      reads this`connections
    {
      forall a, b | a in connections && b in connections
                    && connections[a].credential == connections[b].credential :: a == b
    }

    method AdmitPairing(now: C.Time) returns (ok: bool)
      modifies this`admission
      ensures admission == Some(C.Admitted(old(admission), now))
      ensures ok == (C.Admitted(old(admission), now).count <= C.ADMISSIONS)
    {
      var row := match admission
        case None => C.Admission(now, 1)
        case Some(r) =>
          C.Admission(
            if r.started < now - C.MINUTE then now else r.started,
            if r.started < now - C.MINUTE then 1 else r.count + 1);
      admission := Some(row);
      ok := row.count <= 60;
    }

    /** Ids and credentials are random: a clash breaks a key constraint, and like the refusal
        at capacity it undoes the sweep. */
    method Create(now: int, id: Id, credential: Credential, code: string, interval: int, ttl: int) returns (ok: bool)
      requires Valid()
      modifies this`connections
      ensures Valid()
      ensures ok <==> CanCreate(old(connections), now) && id !in Swept(old(connections), now)
                      && forall a | a in Swept(old(connections), now) :: old(connections)[a].credential != credential
      ensures connections ==
        if ok then Created(old(connections), id, credential, code, interval, ttl, now) else old(connections)
    {
      var before := connections;
      connections := Swept(connections, now);
      var unfinished := Unfinished(connections);
      if |unfinished| >= 1000 || id in connections
         || exists a :: a in connections && connections[a].credential == credential {
        connections := before;
        return false;
      }
      connections := connections[id := Conn(credential, Pending, now + ttl, now + interval, Device(code, interval))];
      ok := true;
    }

    /** The credential opens a row. */
    ghost predicate Opens(credential: Credential, now: int)
      reads this`connections
    {
      exists a :: a in connections && connections[a].credential == credential && Readable(connections[a], now)
    }

    /** The row a credential opens, unless it is revoked or expired. */
    method Read(credential: Credential, now: int) returns (r: Option<Id>)
      requires Valid()
      ensures r.Some? ==> r.value in connections && connections[r.value].credential == credential
                          && Readable(connections[r.value], now)
      ensures r.None? ==> forall a | a in connections && connections[a].credential == credential ::
                            !Readable(connections[a], now)
    {
      if exists a :: a in connections && connections[a].credential == credential {
        var a :| a in connections && connections[a].credential == credential;
        var row := connections[a];
        if row.phase.Revoked? { return None; }
        if !row.phase.Connected? && row.expires < now { return None; }
        return Some(a);
      }
      r := None;
    }

    /** True when the row still was in the phase the caller read. */
    method Write(id: Id, from: Phase, to: Phase, data: Data, now: int) returns (ok: bool)
      requires Valid()
      modifies this`connections
      ensures Valid() && ok == CanWrite(old(connections), id, from)
      ensures connections == Written(old(connections), id, from, to, data, now)
    {
      ok := false;
      if id in connections && connections[id].phase == from {
        var interval := match data case Device(_, n) => n case _ => 5;
        connections := connections[id := connections[id].(phase := to, data := data, nextPoll := now + interval)];
        ok := true;
      }
    }

    method ClaimPoll(id: Id, interval: int, now: int) returns (ok: bool)
      requires Valid()
      modifies this`connections
      ensures Valid() && ok == CanClaim(old(connections), id, now)
      ensures connections == PollClaimed(old(connections), id, interval, now)
    {
      ok := false;
      if id in connections && connections[id].phase.Pending? && connections[id].nextPoll <= now {
        connections := connections[id := connections[id].(nextPoll := now + interval)];
        ok := true;
      }
    }

    method RevokeId(id: Id)
      requires Valid()
      modifies this`connections, this`relay
      ensures Valid() && connections == RevokedIn(old(connections), id)
      ensures relay == WithoutConnection(old(relay), id)
    {
      if id in connections {
        connections := connections[id := connections[id].(phase := Revoked, data := Blank)];
      }
      relay := map k | k in relay && k.id != id :: relay[k];
    }

    /** Old rows are purged first; a delivery already queued is not queued again, and a full
        queue refuses and undoes the purge. */
    method Enqueue(id: Id, delivery: DeliveryId, hook: Webhook, now: int) returns (ok: bool)
      modifies this`relay
      ensures ok == CanEnqueue(old(relay), Key(id, delivery), now)
      ensures relay == Enqueued(old(relay), Key(id, delivery), hook, now)
    {
      var before := relay;
      relay := Purged(relay, now);
      if Key(id, delivery) in relay { return true; }
      var waiting := Waiting(relay, id);
      if |waiting| >= 1000 {
        relay := before;
        return false;
      }
      relay := relay[Key(id, delivery) := Row(hook, now, false)];
      ok := true;
    }

    /** The credential has to open its row, connected or not. */
    method Acknowledge(credential: Credential, delivery: DeliveryId, now: int) returns (ok: bool)
      requires Valid()
      modifies this`relay
      ensures ok <==> Opens(credential, now)
      ensures !ok ==> relay == old(relay)
      ensures forall id | id in connections && connections[id].credential == credential ::
        ok ==> relay == Acknowledged(old(relay), Key(id, delivery))
    {
      var id := Read(credential, now);
      if id.None? { return false; }
      assert forall a | a in connections && connections[a].credential == credential :: a == id.value;
      if Key(id.value, delivery) in relay {
        relay := relay[Key(id.value, delivery) := relay[Key(id.value, delivery)].(acknowledged := true)];
      }
      ok := true;
      assert Readable(connections[id.value], now);
    }

    /** The credential opens a connected row. */
    ghost predicate Serves(credential: Credential)
      reads this`connections
    {
      exists a :: a in connections && connections[a].credential == credential && connections[a].phase.Connected?
    }

    /** The events a deployment is given, once it has chosen a repository. */
    method Events(credential: Credential, now: int) returns (batch: Option<seq<DeliveryId>>)
      requires Valid()
      ensures batch.Some? <==> Serves(credential)
      ensures forall id | id in connections && connections[id].credential == credential ::
        batch.Some? ==>
          && IsBatch(relay, id, now, batch.value)
          && (forall i :: 0 <= i < |batch.value| ==>
                var row := relay[Key(id, batch.value[i])]; !row.acknowledged && row.created >= now - 86400)
          && (forall k | k in relay && k.id == id && !relay[k].acknowledged && relay[k].created >= now - 86400 ::
                k.delivery in batch.value || |batch.value| == 25)
    {
      var id := Read(credential, now);
      if id.None? || !connections[id.value].phase.Connected? { return None; }
      assert forall a | a in connections && connections[a].credential == credential :: a == id.value;
      var oldest := OldestWaiting(id.value, now);
      batch := Some(oldest);
    }

    /** The oldest events still to be acknowledged, at most 25, oldest first. */
    method OldestWaiting(id: Id, now: int) returns (batch: seq<DeliveryId>)
      ensures IsBatch(relay, id, now, batch)
    {
      batch := [];
      var rest := set k | k in relay && Deliverable(relay, k, id, now);
      while |batch| < BATCH && rest != {}
        invariant |batch| <= BATCH && Picked(relay, id, now, batch) && Unpicked(relay, id, now, batch, rest)
        decreases rest
      {
        OldestExists(relay, rest);
        var k :| k in rest && forall j :: j in rest ==> relay[k].created <= relay[j].created;
        PickOldest(relay, id, now, batch, rest, k);
        batch := batch + [k.delivery];
        rest := rest - {k};
      }
      PickedIsBatch(relay, id, now, batch, rest);
    }
  }

  /** A batch in the making is distinct, deliverable and oldest first. */
  predicate Picked(relay: Relay, id: Id, now: int, batch: seq<DeliveryId>) {
    && (forall i :: 0 <= i < |batch| ==> Deliverable(relay, Key(id, batch[i]), id, now))
    && (forall i, j :: 0 <= i < j < |batch| ==> batch[i] != batch[j])
    && (forall i, j :: 0 <= i < j < |batch| ==> relay[Key(id, batch[i])].created <= relay[Key(id, batch[j])].created)
  }

  /** The rest is everything else that can be delivered, and none of it is older. */
  ghost predicate Unpicked(relay: Relay, id: Id, now: int, batch: seq<DeliveryId>, rest: set<Key>)
    requires Picked(relay, id, now, batch)
  {
    && (forall k :: k in rest <==> Deliverable(relay, k, id, now) && k.delivery !in batch)
    && (forall i, k :: 0 <= i < |batch| && k in rest ==> relay[Key(id, batch[i])].created <= relay[k].created)
  }

  lemma PickOldest(relay: Relay, id: Id, now: int, batch: seq<DeliveryId>, rest: set<Key>, k: Key)
    requires Picked(relay, id, now, batch) && Unpicked(relay, id, now, batch, rest) && k in rest
    requires forall j :: j in rest ==> j in relay && relay[k].created <= relay[j].created
    ensures Picked(relay, id, now, batch + [k.delivery]) && Unpicked(relay, id, now, batch + [k.delivery], rest - {k})
  {
    var more := batch + [k.delivery];
    assert k == Key(id, k.delivery) && k.delivery !in batch;
    PickOneMore(relay, id, now, batch, k);
    forall j ensures j in rest - {k} <==> Deliverable(relay, j, id, now) && j.delivery !in more {
      assert j.delivery in more <==> j.delivery in batch || j.delivery == k.delivery;
    }
    forall i, j | 0 <= i < |more| && j in rest - {k} ensures relay[Key(id, more[i])].created <= relay[j].created {
      if i < |batch| { assert more[i] == batch[i]; }
    }
  }

  lemma PickOneMore(relay: Relay, id: Id, now: int, batch: seq<DeliveryId>, k: Key)
    requires Picked(relay, id, now, batch) && Deliverable(relay, k, id, now) && k.delivery !in batch
    requires forall i :: 0 <= i < |batch| ==> relay[Key(id, batch[i])].created <= relay[k].created
    ensures Picked(relay, id, now, batch + [k.delivery])
  {
    assert k == Key(id, k.delivery);
  }

  lemma PickedIsBatch(relay: Relay, id: Id, now: int, batch: seq<DeliveryId>, rest: set<Key>)
    requires Picked(relay, id, now, batch) && Unpicked(relay, id, now, batch, rest)
    requires |batch| <= BATCH && (|batch| == BATCH || rest == {})
    ensures IsBatch(relay, id, now, batch)
  {
  }

  lemma {:induction false} OldestExists(relay: Relay, ks: set<Key>)
    requires ks != {} && forall k :: k in ks ==> k in relay
    ensures exists k :: k in ks && forall j :: j in ks ==> relay[k].created <= relay[j].created
  {
    var k :| k in ks;
    if ks != {k} {
      OldestExists(relay, ks - {k});
      var other :| other in ks - {k} && forall j :: j in ks - {k} ==> relay[other].created <= relay[j].created;
      var least := if relay[k].created <= relay[other].created then k else other;
      assert forall j :: j in ks ==> j == k || j in ks - {k};
      assert least in ks && forall j :: j in ks ==> relay[least].created <= relay[j].created;
    }
  }

  // --- the handlers, section by section -----------------------------------------------------

  /** Polls are at least five seconds apart, and a pairing is open for fifteen minutes at most. */
  function Longer(interval: int): int { if interval > 5 then interval else 5 }
  function Shorter(ttl: int): int { if ttl < 900 then ttl else 900 }

  /** The broker's request handlers, cut where they wait for GitHub: what runs between two
      waits is one method.  Each is exactly one step of the pairing machine, so every
      interleaving of handlers is a run of it. */
  class Broker {
    const store: ConnectStore
    var now: int
    var flights: map<nat, P.Flight>
    var tokens: seq<(Id, Repo)>

    // What the machine remembers beyond the tables.
    ghost var used: set<Id>
    ghost var derived: map<Id, seq<Repo>>
    ghost var bound: map<Id, Repo>
    ghost var polled: map<Id, int>

    constructor (store: ConnectStore)
      requires store.connections == map[] && store.Valid()
      ensures this.store == store && State() == P.START && Valid()
    {
      this.store := store;
      now, flights, tokens, used, derived, bound, polled := 0, map[], [], {}, map[], map[], map[];
      new;
      P.Reachable([]);
    }

    ghost function State(): P.Pairing
      reads this, store
    {
      P.Pairing(store.connections, now, flights, used, derived, bound, polled, tokens)
    }

    /** The store is sound, the machine's invariant holds, and the credential a handler read
        opens no row but the one it read. */
    ghost predicate Valid()
      reads this, store
    {
      && store.Valid() && P.Inv(State())
      && forall f | f in flights :: Known(flights[f].id, flights[f].seen.credential)
    }

    ghost predicate Known(id: Id, credential: Credential)
      reads this, store
    {
      forall a | a in store.connections && store.connections[a].credential == credential :: a == id
    }

    /** What a step of the machine has to keep besides. */
    lemma Kept(before: P.Pairing, a: P.Step)
      requires P.Inv(before) && State() == P.Next(before, a)
      ensures P.Inv(State())
    {
      P.StepKeeps(before, a);
    }

    /** Time passes. */
    method Wait(seconds: nat)
      requires Valid()
      modifies this`now
      ensures Valid() && State() == P.Next(old(State()), P.Tick(seconds))
    {
      now := now + seconds;
      Kept(old(State()), P.Tick(seconds));
    }

    /** The pair handler once GitHub has given a device code.  Ids and credentials are random,
        so new to the broker and to every handler in flight. */
    method PairCreates(id: Id, credential: Credential, code: string, interval: int, ttl: int) returns (ok: bool)
      requires Valid() && id !in used
      requires forall a | a in store.connections :: store.connections[a].credential != credential
      requires forall f | f in flights :: flights[f].seen.credential != credential
      modifies this`used, store`connections
      ensures Valid() && ok == CanCreate(old(store.connections), now)
      ensures State() == P.Next(old(State()), P.Pair(id, credential, code, Longer(interval), Shorter(ttl)))
    {
      assert P.SlotOk(P.SlotOf(State(), id), now);
      ok := store.Create(now, id, credential, code, Longer(interval), Shorter(ttl));
      used := used + {id};
      Kept(old(State()), P.Pair(id, credential, code, Longer(interval), Shorter(ttl)));
    }

    /** The poll handler up to its claim: the row is read, then the poll is claimed. */
    method PollReads(f: nat, credential: Credential) returns (id: Option<Id>)
      requires Valid() && f !in flights
      modifies this
      ensures Valid()
      ensures id.None? ==> State() == old(State()) && !store.Opens(credential, now)
      ensures id.Some? ==> State() == P.Next(old(State()), P.BeginPoll(f, id.value))
      ensures id.Some? ==> id.value in store.connections && store.connections[id.value].credential == credential
    {
      id := store.Read(credential, now);
      if id.Some? && store.connections[id.value].phase.Pending? {
        flights := flights[f := P.Asking(id.value, store.connections[id.value])];
      }
      if id.Some? { Kept(old(State()), P.BeginPoll(f, id.value)); }
    }

    /** True when GitHub is to be asked. */
    method PollClaims(f: nat) returns (ask: bool)
      requires Valid() && f in flights && flights[f].Asking?
      modifies this, store
      ensures Valid() && State() == P.Next(old(State()), P.ClaimPoll(f))
      ensures ask <==> f in flights
    {
      var fl := flights[f];
      ask := store.ClaimPoll(fl.id, IntervalOf(fl.seen.data), now);
      if ask {
        flights := flights[f := P.Polling(fl.id, fl.seen)];
        polled := polled[fl.id := now];
      } else {
        flights := flights - {f};
      }
      Kept(old(State()), P.ClaimPoll(f));
    }

    /** What GitHub's answer does to the row. */
    method StoreAnswer(fl: P.Flight, reply: P.Reply) returns (ok: bool)
      requires store.Valid() && fl.Polling? && fl.seen.data.Device?
      modifies this`derived, store
      ensures store.Valid() && State() == P.PollEnds(old(State()), fl, reply)
      ensures ok <==> reply.AuthorizationPending?
                      || ((reply.SlowDown? || reply.Granted?)
                          && CanWrite(old(store.connections), fl.id, fl.seen.phase))
    {
      ok := true;
      match reply {
        case SlowDown =>
          ok := store.Write(fl.id, fl.seen.phase, Pending, Device(fl.seen.data.code, fl.seen.data.interval + 5), now);
        case AuthorizationPending =>
        case Granted(owner, repositories) =>
          ok := store.Write(fl.id, fl.seen.phase, Selecting, Choices(owner, repositories), now);
          if ok { derived := derived[fl.id := repositories]; }
        case Refused =>
          store.RevokeId(fl.id);
          ok := false;
        case Lost =>
          ok := false;
      }
    }

    /** GitHub answered a poll; false when the row moved on in the meantime. */
    method PollAnswers(f: nat, reply: P.Reply) returns (ok: bool)
      requires Valid() && f in flights && flights[f].Polling?
      modifies this, store
      ensures Valid() && State() == P.Next(old(State()), P.EndPoll(f, reply))
      ensures ok <==> reply.AuthorizationPending?
                      || ((reply.SlowDown? || reply.Granted?)
                          && CanWrite(old(store.connections), old(flights)[f].id, old(flights)[f].seen.phase))
    {
      var fl := flights[f];
      assert P.FlightOk(P.SlotOf(State(), fl.id), fl);
      ok := StoreAnswer(fl, reply);
      flights := flights - {f};
      Kept(old(State()), P.EndPoll(f, reply));
    }

    /** The select handler up to the permission probe. */
    method SelectReads(f: nat, credential: Credential, repository: int) returns (chosen: Option<(Id, Repo)>)
      requires Valid() && f !in flights
      modifies this
      ensures Valid()
      ensures chosen.None? ==> State() == old(State())
      ensures chosen.None? ==> !exists a ::
        && a in store.connections && store.connections[a].credential == credential
        && Readable(store.connections[a], now)
        && store.connections[a].phase.Selecting? && store.connections[a].data.Choices?
        && exists i :: 0 <= i < |store.connections[a].data.repositories|
                       && store.connections[a].data.repositories[i].id == repository
      ensures chosen.Some? ==> State() == P.Next(old(State()), P.BeginSelect(f, chosen.value.0, chosen.value.1))
      ensures chosen.Some? ==> f in flights && chosen.value.1.id == repository
    {
      var id := store.Read(credential, now);
      if id.None? { return None; }
      var row := store.connections[id.value];
      if !row.phase.Selecting? || !row.data.Choices? { return None; }
      var choices := row.data.repositories;
      for i := 0 to |choices|
        invariant State() == old(State()) && Valid()
        invariant forall j :: 0 <= j < i ==> choices[j].id != repository
      {
        if choices[i].id == repository {
          flights := flights[f := P.Probing(id.value, row, choices[i])];
          Kept(old(State()), P.BeginSelect(f, id.value, choices[i]));
          return Some((id.value, choices[i]));
        }
      }
      chosen := None;
    }

    /** Confirms the choice, if GitHub grants the repository's permissions. */
    method StoreChoice(fl: P.Flight, granted: bool) returns (ok: bool)
      requires store.Valid() && fl.Probing? && fl.seen.data.Choices?
      modifies this`bound, store`connections
      ensures store.Valid() && ok == (granted && CanWrite(old(store.connections), fl.id, fl.seen.phase))
      ensures store.connections == if granted
        then Written(old(store.connections), fl.id, fl.seen.phase, Connected, Bound(fl.seen.data.owner, fl.repo), now)
        else old(store.connections)
      ensures bound == if ok then old(bound)[fl.id := fl.repo] else old(bound)
    {
      ok := false;
      if granted {
        ok := store.Write(fl.id, fl.seen.phase, Connected, Bound(fl.seen.data.owner, fl.repo), now);
        if ok { bound := bound[fl.id := fl.repo]; }
      }
    }

    method SelectWrites(f: nat, granted: bool) returns (ok: bool)
      requires Valid() && f in flights && flights[f].Probing?
      modifies this, store
      ensures Valid() && State() == P.Next(old(State()), P.EndSelect(f, granted))
      ensures ok <==> granted && CanWrite(old(store.connections), old(flights)[f].id, old(flights)[f].seen.phase)
    {
      var fl := flights[f];
      assert P.FlightOk(P.SlotOf(State(), fl.id), fl);
      ok := StoreChoice(fl, granted);
      flights := flights - {f};
      Kept(old(State()), P.EndSelect(f, granted));
    }

    method TokenReads(f: nat, credential: Credential) returns (id: Option<Id>)
      requires Valid() && f !in flights
      modifies this
      ensures Valid()
      ensures id.None? ==> State() == old(State())
      ensures id.None? ==> forall a | a in store.connections && store.connections[a].credential == credential ::
        !store.connections[a].phase.Connected?
      ensures id.Some? ==> State() == P.Next(old(State()), P.BeginToken(f, id.value)) && f in flights
    {
      id := store.Read(credential, now);
      if id.Some? {
        if store.connections[id.value].phase.Connected? {
          flights := flights[f := P.Minting(id.value, store.connections[id.value])];
          Kept(old(State()), P.BeginToken(f, id.value));
        } else {
          id := None;
        }
      }
    }

    /** The token is handed out only if the credential still opens its row. */
    method TokenReturns(f: nat, minted: bool) returns (token: Option<Repo>)
      requires Valid() && f in flights && flights[f].Minting?
      modifies this
      ensures Valid() && State() == P.Next(old(State()), P.EndToken(f, minted))
      ensures token.Some? <==> tokens != old(tokens)
    {
      var fl := flights[f];
      assert P.FlightOk(P.SlotOf(State(), fl.id), fl) && Known(fl.id, fl.seen.credential);
      token := None;
      if minted {
        var id := store.Read(fl.seen.credential, now);
        if id.Some? {
          token := Some(fl.seen.data.repository);
          tokens := tokens + [(fl.id, fl.seen.data.repository)];
        }
      }
      flights := flights - {f};
      Kept(old(State()), P.EndToken(f, minted));
    }

    method Disconnect(id: Id)
      requires Valid()
      modifies this, store
      ensures Valid() && State() == P.Next(old(State()), P.Revoke(id))
    {
      store.RevokeId(id);
      Kept(old(State()), P.Revoke(id));
    }
  }
}
