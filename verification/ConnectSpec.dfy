/** The tables of the pairing broker as values, and what each store operation does to them. */
module ConnectSpec {
  import opened Basics

  type Id = string
  type Credential = string
  type DeliveryId = string

  datatype Phase = Pending | Selecting | Connected | Revoked

  datatype Repo = Repo(id: int, installation: int)

  /** What a connection row carries in each phase. */
  datatype Data =
    | Device(code: string, interval: int)
    | Choices(owner: int, repositories: seq<Repo>)
    | Bound(owner: int, repository: Repo)
    | Blank

  datatype Conn = Conn(credential: Credential, phase: Phase, expires: int, nextPoll: int, data: Data)

  type Table = map<Id, Conn>

  const CAPACITY: nat := 1000
  const MIN_INTERVAL: int := 5

  // --- connections ----------------------------------------------------------------

  predicate Stale(c: Conn, now: int) { !c.phase.Connected? && c.expires < now }

  function Swept(conns: Table, now: int): Table {
    map id | id in conns && !Stale(conns[id], now) :: conns[id]
  }

  function Unfinished(conns: Table): set<Id> {
    set id | id in conns && !conns[id].phase.Connected?
  }

  /** Creation sweeps stale rows first; a refusal rolls the sweep back. */
  predicate CanCreate(conns: Table, now: int) {
    |Unfinished(Swept(conns, now))| < CAPACITY
  }

  function Created(
      conns: Table, id: Id, credential: Credential, code: string, interval: int, ttl: int, now: int): Table {
    if CanCreate(conns, now)
    then Swept(conns, now)[id := Conn(credential, Pending, now + ttl, now + interval, Device(code, interval))]
    else conns
  }

  /** A row that `read` hands out. */
  predicate Readable(c: Conn, now: int) {
    !c.phase.Revoked? && (c.phase.Connected? || c.expires >= now)
  }

  function IntervalOf(data: Data): int {
    if data.Device? then data.interval else MIN_INTERVAL
  }

  /** Compare-and-swap on the phase name alone. */
  predicate CanWrite(conns: Table, id: Id, from: Phase) {
    id in conns && conns[id].phase == from
  }

  function Written(conns: Table, id: Id, from: Phase, to: Phase, data: Data, now: int): Table {
    if CanWrite(conns, id, from)
    then conns[id := conns[id].(phase := to, data := data, nextPoll := now + IntervalOf(data))]
    else conns
  }

  predicate CanClaim(conns: Table, id: Id, now: int) {
    id in conns && conns[id].phase.Pending? && conns[id].nextPoll <= now
  }

  function PollClaimed(conns: Table, id: Id, interval: int, now: int): Table {
    if CanClaim(conns, id, now) then conns[id := conns[id].(nextPoll := now + interval)] else conns
  }

  function RevokedIn(conns: Table, id: Id): Table {
    if id in conns then conns[id := conns[id].(phase := Revoked, data := Blank)] else conns
  }

  // --- relay --------------------------------------------------------------------------

  /** What matters of a webhook: who sent it and which installation and repository it is about. */
  datatype Webhook = Webhook(
    kind: string, action: string, sender: Option<int>, installation: Option<int>,
    repository: Option<int>, removed: seq<Option<int>>)

  /** The webhook itself, encrypted, and when it was queued. */
  datatype Row = Row(hook: Webhook, created: int, acknowledged: bool)

  datatype Key = Key(id: Id, delivery: DeliveryId)

  type Relay = map<Key, Row>

  const DAY: int := 86400
  const BATCH: nat := 25

  function Purged(relay: Relay, now: int): Relay {
    map k | k in relay && relay[k].created >= now - DAY :: relay[k]
  }

  function Waiting(relay: Relay, id: Id): set<Key> {
    set k | k in relay && k.id == id && !relay[k].acknowledged
  }

  predicate CanEnqueue(relay: Relay, k: Key, now: int) {
    k in Purged(relay, now) || |Waiting(Purged(relay, now), k.id)| < CAPACITY
  }

  /** A full queue refuses and rolls the purge back; a known delivery changes nothing more. */
  function Enqueued(relay: Relay, k: Key, hook: Webhook, now: int): Relay {
    if !CanEnqueue(relay, k, now) then relay
    else if k in Purged(relay, now) then Purged(relay, now)
    else Purged(relay, now)[k := Row(hook, now, false)]
  }

  function WithoutConnection(relay: Relay, id: Id): Relay {
    map k | k in relay && k.id != id :: relay[k]
  }

  function Acknowledged(relay: Relay, k: Key): Relay {
    if k in relay then relay[k := relay[k].(acknowledged := true)] else relay
  }

  predicate Deliverable(relay: Relay, k: Key, id: Id, now: int) {
    k in relay && k.id == id && !relay[k].acknowledged && relay[k].created >= now - DAY
  }

  /** A batch handed to a deployment: the oldest deliverable events, at most 25. */
  ghost predicate IsBatch(relay: Relay, id: Id, now: int, batch: seq<DeliveryId>) {
    && |batch| <= BATCH
    && (forall i :: 0 <= i < |batch| ==> Deliverable(relay, Key(id, batch[i]), id, now))
    && (forall i, j :: 0 <= i < j < |batch| ==> batch[i] != batch[j])
    && (forall i, j :: 0 <= i < j < |batch| ==>
          relay[Key(id, batch[i])].created <= relay[Key(id, batch[j])].created)
    && (forall k | Deliverable(relay, k, id, now) && k.delivery !in batch ::
          |batch| == BATCH && forall i :: 0 <= i < |batch| ==> relay[Key(id, batch[i])].created <= relay[k].created)
  }

  // --- webhooks -----------------------------------------------------------------------

  predicate RevokesGrant(owner: int, repo: Repo, hook: Webhook) {
    || (hook.kind == "github_app_authorization" && hook.action == "revoked" && hook.sender == Some(owner))
    || (hook.installation == Some(repo.installation)
        && ((hook.kind == "installation" && (hook.action == "deleted" || hook.action == "suspend"))
            || Some(repo.id) in hook.removed))
  }

  predicate Concerns(repo: Repo, hook: Webhook) {
    hook.installation == Some(repo.installation) && hook.repository == Some(repo.id)
  }
}
