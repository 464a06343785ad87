/** Pairing under every interleaving: handlers read a record, call GitHub, then write, and
    anything may happen between those three. */
module PairingRuns {
  import opened Basics
  import opened ConnectSpec

  /** A handler between its steps, with the record it read. */
  datatype Flight =
    | Asking(id: Id, seen: Conn)                // poll: read, not yet claimed
    | Polling(id: Id, seen: Conn)               // poll: claimed, GitHub asked
    | Probing(id: Id, seen: Conn, repo: Repo)   // select: checked, installation probed
    | Minting(id: Id, seen: Conn)               // token: read connected, GitHub minting

  datatype Reply = SlowDown | AuthorizationPending | Granted(owner: int, repositories: seq<Repo>) | Refused | Lost

  /** `used` remembers every id ever made, `derived` the list GitHub gave, `bound` the
      repository chosen, `polled` the last claimed poll, and `tokens` the pairings a token
      was returned for, with the repository it was minted for. */
  datatype Pairing = Pairing(
    conns: Table, now: int, flights: map<nat, Flight>, used: set<Id>,
    derived: map<Id, seq<Repo>>, bound: map<Id, Repo>, polled: map<Id, int>, tokens: seq<(Id, Repo)>)

  datatype Step =
    | Tick(seconds: nat)
    | Pair(id: Id, credential: Credential, code: string, interval: int, ttl: int)
    | BeginPoll(f: nat, id: Id)
    | ClaimPoll(f: nat)
    | EndPoll(f: nat, reply: Reply)
    | BeginSelect(f: nat, id: Id, repo: Repo)
    | EndSelect(f: nat, granted: bool)
    | BeginToken(f: nat, id: Id)
    | EndToken(f: nat, minted: bool)
    | Revoke(id: Id)                            // disconnect, or a webhook

  const START := Pairing(map[], 0, map[], {}, map[], map[], map[], [])

  function Land(s: Pairing, f: nat): Pairing { s.(flights := s.flights - {f}) }

  predicate CanRead(s: Pairing, id: Id) { id in s.conns && Readable(s.conns[id], s.now) }

  function PollEnds(s: Pairing, fl: Flight, reply: Reply): Pairing
    requires fl.Polling?
  {
    match reply
    case SlowDown =>
      if fl.seen.data.Device? then
        var slower := fl.seen.data.(interval := fl.seen.data.interval + 5);
        s.(conns := Written(s.conns, fl.id, fl.seen.phase, Pending, slower, s.now))
      else s
    case AuthorizationPending => s
    case Granted(owner, repositories) =>
      s.(conns := Written(s.conns, fl.id, fl.seen.phase, Selecting, Choices(owner, repositories), s.now),
      derived := if CanWrite(s.conns, fl.id, fl.seen.phase) then s.derived[fl.id := repositories] else s.derived)
    case Refused => s.(conns := RevokedIn(s.conns, fl.id))
    case Lost => s
  }

  function Next(s: Pairing, a: Step): Pairing {
    match a
    case Tick(seconds) => s.(now := s.now + seconds)
    case Pair(id, credential, code, interval, ttl) =>
      if id in s.used || interval < MIN_INTERVAL then s
      else s.(conns := Created(s.conns, id, credential, code, interval, ttl, s.now), used := s.used + {id})
    case BeginPoll(f, id) =>
      if f !in s.flights && CanRead(s, id) && s.conns[id].phase.Pending?
      then s.(flights := s.flights[f := Asking(id, s.conns[id])]) else s
    case ClaimPoll(f) =>
      if f !in s.flights || !s.flights[f].Asking? then s
      else
        var fl := s.flights[f];
        if CanClaim(s.conns, fl.id, s.now) then
          s.(conns := PollClaimed(s.conns, fl.id, IntervalOf(fl.seen.data), s.now),
          flights := s.flights[f := Polling(fl.id, fl.seen)], polled := s.polled[fl.id := s.now])
        else Land(s, f)
    case EndPoll(f, reply) =>
      if f !in s.flights || !s.flights[f].Polling? then s else Land(PollEnds(s, s.flights[f], reply), f)
    case BeginSelect(f, id, repo) =>
      if f !in s.flights && CanRead(s, id) && s.conns[id].phase.Selecting? && s.conns[id].data.Choices?
         && repo in s.conns[id].data.repositories
      then s.(flights := s.flights[f := Probing(id, s.conns[id], repo)]) else s
    case EndSelect(f, granted) =>
      if f !in s.flights || !s.flights[f].Probing? || !s.flights[f].seen.data.Choices? then s
      else
        var fl := s.flights[f];
        var bound := Bound(fl.seen.data.owner, fl.repo);
        var s1 := s.(
          conns := Written(s.conns, fl.id, fl.seen.phase, Connected, bound, s.now),
          bound := if CanWrite(s.conns, fl.id, fl.seen.phase) then s.bound[fl.id := fl.repo] else s.bound);
        Land(if granted then s1 else s, f)
    case BeginToken(f, id) =>
      if f !in s.flights && CanRead(s, id) && s.conns[id].phase.Connected?
      then s.(flights := s.flights[f := Minting(id, s.conns[id])]) else s
    case EndToken(f, minted) =>
      if f !in s.flights || !s.flights[f].Minting? || !s.flights[f].seen.data.Bound? then s
      else
        var fl := s.flights[f];
        Land(if minted && CanRead(s, fl.id) then s.(tokens := s.tokens + [(fl.id, fl.seen.data.repository)]) else s, f)
    case Revoke(id) => s.(conns := RevokedIn(s.conns, id))
  }

  // --- the invariant ------------------------------------------------------------------

  /** Everything the state says about one pairing. */
  datatype Slot = Slot(
    used: bool, conn: Option<Conn>, derived: Option<seq<Repo>>, bound: Option<Repo>, polled: Option<int>)

  function SlotOf(s: Pairing, id: Id): Slot {
    Slot(
      id in s.used,
      if id in s.conns then Some(s.conns[id]) else None,
      if id in s.derived then Some(s.derived[id]) else None,
      if id in s.bound then Some(s.bound[id]) else None,
      if id in s.polled then Some(s.polled[id]) else None)
  }

  /** Each phase has its own kind of data, and choices come from GitHub's list. */
  predicate ConnOk(t: Slot, c: Conn) {
    match c.phase
    case Pending => c.data.Device? && c.data.interval >= MIN_INTERVAL
    case Selecting => c.data.Choices? && t.derived == Some(c.data.repositories)
    case Connected =>
      c.data.Bound? && t.bound == Some(c.data.repository) && t.derived.Some? && c.data.repository in t.derived.value
    case Revoked => c.data.Blank?
  }

  predicate SlotOk(t: Slot, now: int) {
    && (!t.used ==> t.conn.None? && t.derived.None? && t.bound.None? && t.polled.None?)
    && (t.conn.Some? ==> ConnOk(t, t.conn.value))
    && (t.conn.Some? && t.conn.value.phase.Pending? ==> t.derived.None?)
    && (t.conn.Some? && Rank(t.conn.value.phase) < 2 ==> t.bound.None?)
    && (t.polled.Some? ==> t.polled.value <= now)
    && (t.polled.Some? && t.conn.Some? ==> t.polled.value + MIN_INTERVAL <= t.conn.value.nextPoll)
  }

  function Rank(p: Phase): nat {
    match p
    case Pending => 0
    case Selecting => 1
    case Connected => 2
    case Revoked => 3
  }

  /** From a record once read to the row now: phases only advance, and in the same phase
      the row still is what was read, except that a pending one may have a new interval.
      This is why comparing the phase name is enough: there is no way back to it. */
  predicate Since(seen: Conn, c: Conn) {
    && Rank(seen.phase) <= Rank(c.phase)
    && c.credential == seen.credential && c.expires == seen.expires
    && (seen.phase == c.phase && !c.phase.Pending? ==> c.data == seen.data)
    && (seen.phase == c.phase && c.phase.Pending? ==>
          c.data.Device? && seen.data.Device? && c.data.code == seen.data.code)
  }

  /** What survives in a slot: ids are not reused, GitHub's list is fixed, rows move on. */
  predicate Grows(t: Slot, t': Slot) {
    && (t.used ==> t'.used)
    && (t.derived.Some? ==> t'.derived == t.derived)
    && (t.bound.Some? ==> t'.bound == t.bound)
    && (t.used && t'.conn.Some? ==> t.conn.Some? && Since(t.conn.value, t'.conn.value))
  }

  predicate FlightOk(t: Slot, fl: Flight) {
    && t.used && ConnOk(t, fl.seen)
    && (t.conn.Some? ==> Since(fl.seen, t.conn.value))
    && (match fl
        case Asking(_, seen) => seen.phase.Pending?
        case Polling(_, seen) => seen.phase.Pending?
        case Probing(_, seen, repo) => seen.phase.Selecting? && repo in seen.data.repositories
        case Minting(_, seen) => seen.phase.Connected?)
  }

  ghost predicate Inv(s: Pairing) {
    && (forall id :: SlotOk(SlotOf(s, id), s.now))
    && (forall f | f in s.flights :: FlightOk(SlotOf(s, s.flights[f].id), s.flights[f]))
  }

  /** The moves a pairing may make: a new one starts pending, a stale unfinished one is
      deleted, and otherwise pending stays or becomes selecting, selecting becomes connected
      to one of the repositories GitHub listed, and anything may be revoked. */
  predicate Allowed(t: Slot, t': Slot, now: int) {
    if t.conn.None? then t'.conn.Some? ==> t'.conn.value.phase.Pending? && !t.used
    else if t'.conn.None? then !t.conn.value.phase.Connected? && t.conn.value.expires < now
    else
      var c, c' := t.conn.value, t'.conn.value;
      || c' == c
      || (c.phase.Pending? && c'.phase.Pending? && Since(c, c'))
      || (c.phase.Pending? && c'.phase.Selecting?)
      || (c.phase.Selecting? && c'.phase.Connected? && t.derived.Some? && c'.data.Bound?
          && c'.data.repository in t.derived.value)
      || c'.phase.Revoked?
  }

  /** The flight an action lands, if any, was telling the truth. */
  predicate CallerOk(s: Pairing, a: Step) {
    match a
    case ClaimPoll(f) => f in s.flights ==> FlightOk(SlotOf(s, s.flights[f].id), s.flights[f])
    case EndPoll(f, _) => f in s.flights ==> FlightOk(SlotOf(s, s.flights[f].id), s.flights[f])
    case EndSelect(f, _) => f in s.flights ==> FlightOk(SlotOf(s, s.flights[f].id), s.flights[f])
    case EndToken(f, _) => f in s.flights ==> FlightOk(SlotOf(s, s.flights[f].id), s.flights[f])
    case _ => true
  }

  /** One step seen from one slot: it stays sound, what was read stays known, and the row
      makes an allowed move. */
  predicate SlotMoves(s: Pairing, a: Step, id: Id) {
    var t, t' := SlotOf(s, id), SlotOf(Next(s, a), id);
    SlotOk(t', Next(s, a).now) && Grows(t, t') && Allowed(t, t', s.now)
  }

  /** What pairing does to one slot. */
  lemma PairSlot(s: Pairing, a: Step, id: Id)
    requires a.Pair?
    ensures var t, t' := SlotOf(s, id), SlotOf(Next(s, a), id);
      && t'.derived == t.derived && t'.bound == t.bound && t'.polled == t.polled && Next(s, a).now == s.now
      && (t' == t
          || (t'.used == t.used && t'.conn.None? && t.conn.Some? && Stale(t.conn.value, s.now))
          || (!t.used && t'.used && id == a.id && a.interval >= MIN_INTERVAL
              && (t'.conn == t.conn || t'.conn.None?
                  || t'.conn == Some(Conn(
                       a.credential, Pending, s.now + a.ttl, s.now + a.interval, Device(a.code, a.interval))))))
  {
  }

  lemma PairMoves(s: Pairing, a: Step, id: Id)
    requires a.Pair? && SlotOk(SlotOf(s, id), s.now) && CallerOk(s, a)
    ensures SlotMoves(s, a, id)
  {
    PairSlot(s, a, id);
  }

  /** What claiming a poll does to one slot. */
  lemma ClaimSlot(s: Pairing, a: Step, id: Id)
    requires a.ClaimPoll?
    ensures var t, t' := SlotOf(s, id), SlotOf(Next(s, a), id);
      && Next(s, a).now == s.now
      && (t' == t
          || (a.f in s.flights && s.flights[a.f].Asking? && s.flights[a.f].id == id
              && t.conn.Some? && t.conn.value.phase.Pending?
              && var next := s.now + IntervalOf(s.flights[a.f].seen.data);
              t' == t.(conn := Some(t.conn.value.(nextPoll := next)), polled := Some(s.now))))
  {
  }

  lemma ClaimMoves(s: Pairing, a: Step, id: Id)
    requires a.ClaimPoll? && SlotOk(SlotOf(s, id), s.now) && CallerOk(s, a)
    ensures SlotMoves(s, a, id)
  {
    ClaimSlot(s, a, id);
  }

  predicate Moves(t: Slot, t': Slot, now: int) {
    SlotOk(t', now) && Grows(t, t') && Allowed(t, t', now)
  }

  lemma SlowDownMoves(s: Pairing, fl: Flight, id: Id)
    requires fl.Polling? && SlotOk(SlotOf(s, id), s.now) && FlightOk(SlotOf(s, fl.id), fl)
    ensures Moves(SlotOf(s, id), SlotOf(PollEnds(s, fl, SlowDown), id), s.now)
  {
  }

  lemma GrantedMoves(s: Pairing, fl: Flight, owner: int, repositories: seq<Repo>, id: Id)
    requires fl.Polling? && SlotOk(SlotOf(s, id), s.now) && FlightOk(SlotOf(s, fl.id), fl)
    ensures Moves(SlotOf(s, id), SlotOf(PollEnds(s, fl, Granted(owner, repositories)), id), s.now)
  {
  }

  lemma OtherReplyMoves(s: Pairing, fl: Flight, reply: Reply, id: Id)
    requires fl.Polling? && !reply.SlowDown? && !reply.Granted? && SlotOk(SlotOf(s, id), s.now)
    ensures Moves(SlotOf(s, id), SlotOf(PollEnds(s, fl, reply), id), s.now)
  {
  }

  lemma PollEndsMoves(s: Pairing, fl: Flight, reply: Reply, id: Id)
    requires fl.Polling? && SlotOk(SlotOf(s, id), s.now) && FlightOk(SlotOf(s, fl.id), fl)
    ensures Moves(SlotOf(s, id), SlotOf(PollEnds(s, fl, reply), id), s.now)
  {
    match reply
    case SlowDown => SlowDownMoves(s, fl, id);
    case Granted(owner, repositories) => GrantedMoves(s, fl, owner, repositories, id);
    case AuthorizationPending => OtherReplyMoves(s, fl, reply, id);
    case Refused => OtherReplyMoves(s, fl, reply, id);
    case Lost => OtherReplyMoves(s, fl, reply, id);
  }

  lemma LandSlot(s: Pairing, f: nat, id: Id)
    ensures SlotOf(Land(s, f), id) == SlotOf(s, id) && Land(s, f).now == s.now
  {
  }

  lemma EndPollMoves(s: Pairing, a: Step, id: Id)
    requires a.EndPoll? && SlotOk(SlotOf(s, id), s.now) && CallerOk(s, a)
    ensures SlotMoves(s, a, id)
  {
    if a.f in s.flights && s.flights[a.f].Polling? {
      PollEndsMoves(s, s.flights[a.f], a.reply, id);
      LandSlot(PollEnds(s, s.flights[a.f], a.reply), a.f, id);
    }
  }

  /** What confirming a choice does to one slot. */
  lemma EndSelectSlot(s: Pairing, a: Step, id: Id)
    requires a.EndSelect?
    ensures var t, t' := SlotOf(s, id), SlotOf(Next(s, a), id);
      && Next(s, a).now == s.now
      && (t' == t
          || (a.f in s.flights && s.flights[a.f].Probing? && s.flights[a.f].id == id
              && s.flights[a.f].seen.data.Choices?
              && t.conn.Some? && t.conn.value.phase == s.flights[a.f].seen.phase
              && var bound := Bound(s.flights[a.f].seen.data.owner, s.flights[a.f].repo);
              t' == t.(conn := Some(t.conn.value.(phase := Connected, data := bound, nextPoll := s.now + MIN_INTERVAL)),
                       bound := Some(s.flights[a.f].repo))))
  {
  }

  lemma EndSelectMoves(s: Pairing, a: Step, id: Id)
    requires a.EndSelect? && SlotOk(SlotOf(s, id), s.now) && CallerOk(s, a)
    ensures SlotMoves(s, a, id)
  {
    EndSelectSlot(s, a, id);
  }

  lemma RevokeMoves(s: Pairing, a: Step, id: Id)
    requires a.Revoke? && SlotOk(SlotOf(s, id), s.now)
    ensures SlotMoves(s, a, id)
  {
  }

  predicate Reads(a: Step) {
    a.Tick? || a.BeginPoll? || a.BeginSelect? || a.BeginToken? || a.EndToken?
  }

  lemma ReadsMoveNothing(s: Pairing, a: Step, id: Id)
    requires Reads(a)
    ensures SlotOf(Next(s, a), id) == SlotOf(s, id) && Next(s, a).now >= s.now
  {
  }

  lemma RestMoves(s: Pairing, a: Step, id: Id)
    requires Reads(a) && SlotOk(SlotOf(s, id), s.now)
    ensures SlotMoves(s, a, id)
  {
    ReadsMoveNothing(s, a, id);
  }

  lemma StepMoves(s: Pairing, a: Step, id: Id)
    requires SlotOk(SlotOf(s, id), s.now) && CallerOk(s, a)
    ensures SlotMoves(s, a, id)
  {
    match a
    case Pair(_, _, _, _, _) => PairMoves(s, a, id);
    case ClaimPoll(_) => ClaimMoves(s, a, id);
    case EndPoll(_, _) => EndPollMoves(s, a, id);
    case EndSelect(_, _) => EndSelectMoves(s, a, id);
    case Revoke(_) => RevokeMoves(s, a, id);
    case _ => RestMoves(s, a, id);
  }

  /** A flight's knowledge survives any allowed growth of its slot. */
  lemma FlightSurvives(t: Slot, t': Slot, fl: Flight)
    requires FlightOk(t, fl) && Grows(t, t')
    ensures FlightOk(t', fl)
  {
  }

  /** A handler that has just read a row knows it. */
  lemma BeginKnows(s: Pairing, a: Step, id: Id)
    requires SlotOk(SlotOf(s, id), s.now) && CanRead(s, id)
    requires a.BeginPoll? || a.BeginSelect? || a.BeginToken?
    requires a.id == id && a.f !in s.flights && a.f in Next(s, a).flights
    ensures FlightOk(SlotOf(s, id), Next(s, a).flights[a.f])
  {
  }

  /** A flight that goes on is the one it was, but for having claimed its poll. */
  lemma OldFlight(s: Pairing, a: Step, f: nat)
    requires f in s.flights && f in Next(s, a).flights
    ensures var fl, fl' := s.flights[f], Next(s, a).flights[f];
      fl' == fl || (fl.Asking? && fl' == Polling(fl.id, fl.seen))
  {
  }

  lemma NewFlight(s: Pairing, a: Step, f: nat)
    requires Inv(s) && f in Next(s, a).flights
    ensures var fl := Next(s, a).flights[f]; FlightOk(SlotOf(s, fl.id), fl)
  {
    if f in s.flights {
      OldFlight(s, a, f);
      assert FlightOk(SlotOf(s, s.flights[f].id), s.flights[f]);
    } else {
      assert SlotOk(SlotOf(s, a.id), s.now);
      BeginKnows(s, a, a.id);
    }
  }

  lemma StepKeeps(s: Pairing, a: Step)
    requires Inv(s)
    ensures Inv(Next(s, a))
  {
    var s' := Next(s, a);
    forall id ensures SlotOk(SlotOf(s', id), s'.now) {
      StepMoves(s, a, id);
    }
    forall f | f in s'.flights ensures FlightOk(SlotOf(s', s'.flights[f].id), s'.flights[f]) {
      NewFlight(s, a, f);
      StepMoves(s, a, s'.flights[f].id);
      FlightSurvives(SlotOf(s, s'.flights[f].id), SlotOf(s', s'.flights[f].id), s'.flights[f]);
    }
  }

  // --- whole runs -----------------------------------------------------------------------

  function Run(s: Pairing, steps: seq<Step>): Pairing
    decreases |steps|
  {
    if steps == [] then s else Next(Run(s, steps[..|steps| - 1]), steps[|steps| - 1])
  }

  lemma {:induction false} Reachable(steps: seq<Step>)
    ensures Inv(Run(START, steps))
    decreases |steps|
  {
    if steps != [] {
      Reachable(steps[..|steps| - 1]);
      StepKeeps(Run(START, steps[..|steps| - 1]), steps[|steps| - 1]);
    }
  }

  lemma CallersTellTheTruth(s: Pairing, a: Step)
    requires Inv(s)
    ensures CallerOk(s, a)
  {
  }

  /** Every step of every interleaving moves every pairing only as allowed. */
  lemma MovesAreAllowed(steps: seq<Step>, a: Step, id: Id)
    ensures var s := Run(START, steps); Allowed(SlotOf(s, id), SlotOf(Next(s, a), id), s.now)
  {
    Reachable(steps);
    CallersTellTheTruth(Run(START, steps), a);
    StepMoves(Run(START, steps), a, id);
  }

  /** A connected pairing is bound to a repository GitHub listed for it. */
  lemma ConnectedWasListed(steps: seq<Step>, id: Id)
    requires var s := Run(START, steps); id in s.conns && s.conns[id].phase.Connected?
    ensures var s := Run(START, steps);
      s.conns[id].data.Bound? && id in s.derived && s.conns[id].data.repository in s.derived[id]
  {
    Reachable(steps);
    assert SlotOk(SlotOf(Run(START, steps), id), Run(START, steps).now);
  }

  lemma {:induction false} RunGrows(s: Pairing, steps: seq<Step>, id: Id)
    requires Inv(s)
    ensures Inv(Run(s, steps)) && Grows(SlotOf(s, id), SlotOf(Run(s, steps), id))
    decreases |steps|
  {
    if steps != [] {
      var t, a := Run(s, steps[..|steps| - 1]), steps[|steps| - 1];
      RunGrows(s, steps[..|steps| - 1], id);
      StepKeeps(t, a);
      CallersTellTheTruth(t, a);
      StepMoves(t, a, id);
    }
  }

  /** A revoked pairing is never anything else, and a connected one never changes what it is
      connected to: it stays as it is until it is revoked. */
  lemma RevokedAndConnectedAreFinal(s: Pairing, steps: seq<Step>, id: Id)
    requires Inv(s) && id in s.conns && id in Run(s, steps).conns
    ensures var c, c' := s.conns[id], Run(s, steps).conns[id];
      && (c.phase.Revoked? ==> c'.phase.Revoked?)
      && (c.phase.Connected? ==> c'.phase.Revoked? || (c'.phase.Connected? && c'.data == c.data))
  {
    assert SlotOk(SlotOf(s, id), s.now);
    RunGrows(s, steps, id);
  }

  /** The compare-and-swap needs nothing but the phase name: when it succeeds, the row still
      has the credential, the deadline and the choices or device code the handler read, whatever
      happened in between.  Only what a poll moves may differ: its interval and due time. */
  lemma NoAba(steps: seq<Step>, f: nat)
    requires var s := Run(START, steps);
      f in s.flights && CanWrite(s.conns, s.flights[f].id, s.flights[f].seen.phase)
    ensures var s := Run(START, steps);
      var fl := s.flights[f];
      var c := s.conns[fl.id];
      && c.credential == fl.seen.credential && c.expires == fl.seen.expires
      && (fl.Probing? || fl.Minting? ==> c.data == fl.seen.data)
      && (fl.Asking? || fl.Polling? ==>
            c.data.Device? && fl.seen.data.Device? && c.data.code == fl.seen.data.code && fl.id !in s.derived)
  {
    Reachable(steps);
    var s := Run(START, steps);
    assert FlightOk(SlotOf(s, s.flights[f].id), s.flights[f]) && SlotOk(SlotOf(s, s.flights[f].id), s.now);
  }

  /** A token is returned only for a pairing still connected after minting, and it was
      minted for the repository that pairing is connected to. */
  lemma TokensOnlyWhileConnected(steps: seq<Step>, f: nat, minted: bool)
    requires var s := Run(START, steps); Next(s, EndToken(f, minted)).tokens != s.tokens
    ensures var s := Run(START, steps);
      && f in s.flights
      && var fl := s.flights[f];
      && fl.id in s.conns && s.conns[fl.id].phase.Connected? && s.conns[fl.id].data.Bound?
      && Next(s, EndToken(f, minted)).tokens == s.tokens + [(fl.id, s.conns[fl.id].data.repository)]
  {
    Reachable(steps);
    var s := Run(START, steps);
    assert FlightOk(SlotOf(s, s.flights[f].id), s.flights[f]);
  }

  /** Two claimed polls of one pairing are at least five seconds apart. */
  lemma PollsAreApart(steps: seq<Step>, f: nat)
    requires var s := Run(START, steps);
      f in s.flights && s.flights[f].Asking? && CanClaim(s.conns, s.flights[f].id, s.now) && s.flights[f].id in s.polled
    ensures var s := Run(START, steps);
      var id := s.flights[f].id;
      s.polled[id] + 5 <= s.now == Next(s, ClaimPoll(f)).polled[id]
  {
    Reachable(steps);
    var s := Run(START, steps);
    assert SlotOk(SlotOf(s, s.flights[f].id), s.now);
  }

  /** A slow-down reply lengthens the stored interval by five seconds, as section 3.5 of
      RFC 8628 asks, exactly when no other reply changed it since this handler read it. */
  lemma SlowDownLengthens(steps: seq<Step>, f: nat)
    requires var s := Run(START, steps);
      f in s.flights && s.flights[f].Polling? && CanWrite(s.conns, s.flights[f].id, Pending)
    ensures var s := Run(START, steps);
      var fl := s.flights[f];
      var s' := Next(s, EndPoll(f, SlowDown));
      && s.conns[fl.id].data.Device? && fl.seen.data.Device? && s'.conns[fl.id].data.Device?
      && (s'.conns[fl.id].data.interval == s.conns[fl.id].data.interval + 5
          <==> s.conns[fl.id].data.interval == fl.seen.data.interval)
  {
    Reachable(steps);
    var s := Run(START, steps);
    assert FlightOk(SlotOf(s, s.flights[f].id), s.flights[f]) && SlotOk(SlotOf(s, s.flights[f].id), s.now);
  }

  // --- what each answer does ---------------------------------------------------------------------

  /** What a handler in flight can rely on. */
  lemma Knows(steps: seq<Step>, f: nat)
    requires f in Run(START, steps).flights
    ensures var s := Run(START, steps);
      var fl := s.flights[f];
      && (fl.Asking? || fl.Polling? ==> fl.seen.phase == Pending && fl.seen.data.Device?)
      && (fl.Probing? ==> fl.seen.phase == Selecting && fl.seen.data.Choices? && fl.repo in fl.seen.data.repositories)
      && (fl.Minting? ==> fl.seen.data.Bound?)
      && (fl.Minting? && fl.id in s.conns && s.conns[fl.id].phase == Connected ==> s.conns[fl.id].data == fl.seen.data)
  {
    Reachable(steps);
    var s := Run(START, steps);
    assert FlightOk(SlotOf(s, s.flights[f].id), s.flights[f]);
  }

  /** GitHub refused this pairing's own claimed poll. */
  predicate RefusedPoll(s: Pairing, a: Step, id: Id) {
    a.EndPoll? && a.reply == Refused && a.f in s.flights && s.flights[a.f].Polling? && s.flights[a.f].id == id
  }

  predicate IsRevoked(conns: Table, id: Id) { id in conns && conns[id].phase == Revoked }

  lemma AnswerRevokes(s: Pairing, fl: Flight, reply: Reply, id: Id)
    requires fl.Polling? && id in s.conns && !IsRevoked(s.conns, id)
    ensures IsRevoked(PollEnds(s, fl, reply).conns, id) <==> reply == Refused && fl.id == id
  {
  }

  lemma PairRevokesNone(s: Pairing, a: Step, id: Id)
    requires a.Pair? && id in s.conns && !IsRevoked(s.conns, id)
    ensures !IsRevoked(Next(s, a).conns, id)
  {
  }

  lemma RevokedStep(s: Pairing, a: Step, id: Id)
    requires id in s.conns && !IsRevoked(s.conns, id)
    ensures IsRevoked(Next(s, a).conns, id) <==> a == Revoke(id) || RefusedPoll(s, a, id)
  {
    match a
    case EndPoll(f, reply) =>
      if f in s.flights && s.flights[f].Polling? { AnswerRevokes(s, s.flights[f], reply, id); }
    case Pair(_, _, _, _, _) => PairRevokesNone(s, a, id);
    case _ =>
  }

  /** A pairing becomes revoked exactly by its own disconnect, a webhook that revokes it, or
      GitHub's refusal of its own poll: no other answer, and nobody else's, revokes it. */
  lemma RevokedIff(steps: seq<Step>, a: Step, id: Id)
    requires var s := Run(START, steps); id in s.conns && s.conns[id].phase != Revoked
    ensures var s := Run(START, steps);
      (id in Next(s, a).conns && Next(s, a).conns[id].phase == Revoked) <==> a == Revoke(id) || RefusedPoll(s, a, id)
  {
    RevokedStep(Run(START, steps), a, id);
  }

  predicate InPhase(conns: Table, id: Id, phase: Phase) { id in conns && conns[id].phase == phase }

  /** GitHub's answer to a claimed poll.  A wait or a lost answer leaves every pairing as it was; on
      a pairing still pending a slow-down moves its interval and due time, and a grant makes it
      selecting among exactly the repositories listed; a refusal revokes it. */
  function Answered(s: Pairing, fl: Flight, reply: Reply): Table
    requires fl.seen.data.Device?
  {
    match reply
    case AuthorizationPending => s.conns
    case Lost => s.conns
    case SlowDown =>
      if !InPhase(s.conns, fl.id, Pending) then s.conns
      else
        var row, interval := s.conns[fl.id], fl.seen.data.interval + 5;
        s.conns[fl.id :=
          Conn(row.credential, Pending, row.expires, s.now + interval, Device(fl.seen.data.code, interval))]
    case Granted(owner, repositories) =>
      if !InPhase(s.conns, fl.id, Pending) then s.conns
      else
        var row := s.conns[fl.id];
        s.conns[fl.id := Conn(row.credential, Selecting, row.expires, s.now + 5, Choices(owner, repositories))]
    case Refused =>
      if fl.id !in s.conns then s.conns
      else
        var row := s.conns[fl.id];
        s.conns[fl.id := Conn(row.credential, Revoked, row.expires, row.nextPoll, Blank)]
  }

  lemma AnswerStep(s: Pairing, fl: Flight, reply: Reply)
    requires fl.Polling? && fl.seen.phase == Pending && fl.seen.data.Device?
    ensures PollEnds(s, fl, reply).conns == Answered(s, fl, reply)
  {
  }

  lemma LandedPoll(s: Pairing, f: nat, reply: Reply)
    requires f in s.flights && s.flights[f].Polling?
    ensures Next(s, EndPoll(f, reply)).conns == PollEnds(s, s.flights[f], reply).conns
  {
  }

  lemma AnswerIs(steps: seq<Step>, f: nat, reply: Reply)
    requires var s := Run(START, steps); f in s.flights && s.flights[f].Polling?
    ensures var s := Run(START, steps);
      s.flights[f].seen.data.Device? && Next(s, EndPoll(f, reply)).conns == Answered(s, s.flights[f], reply)
  {
    var s := Run(START, steps);
    Knows(steps, f);
    AnswerStep(s, s.flights[f], reply);
    LandedPoll(s, f, reply);
  }

  /** The probe of a chosen repository: granted on a pairing still selecting it connects the pairing
      to exactly that repository, and otherwise every pairing stays as it was. */
  function Chosen(s: Pairing, fl: Flight, granted: bool): Table
    requires fl.Probing? && fl.seen.data.Choices?
  {
    if !granted || !InPhase(s.conns, fl.id, Selecting) then s.conns
    else
      var row := s.conns[fl.id];
      s.conns[fl.id := Conn(row.credential, Connected, row.expires, s.now + 5, Bound(fl.seen.data.owner, fl.repo))]
  }

  lemma ChoiceStep(s: Pairing, f: nat, granted: bool)
    requires f in s.flights && s.flights[f].Probing?
    requires s.flights[f].seen.phase == Selecting && s.flights[f].seen.data.Choices?
    ensures Next(s, EndSelect(f, granted)).conns == Chosen(s, s.flights[f], granted)
  {
  }

  lemma ChoiceIs(steps: seq<Step>, f: nat, granted: bool)
    requires var s := Run(START, steps); f in s.flights && s.flights[f].Probing?
    ensures var s := Run(START, steps);
      && s.flights[f].seen.data.Choices? && s.flights[f].repo in s.flights[f].seen.data.repositories
      && Next(s, EndSelect(f, granted)).conns == Chosen(s, s.flights[f], granted)
  {
    Knows(steps, f);
    ChoiceStep(Run(START, steps), f, granted);
  }

  /** A poll is put to GitHub exactly when the pairing is still pending and its time has come; it is
      then not due again before the interval has passed. */
  predicate ClaimedOnlyWhenDue(s: Pairing, f: nat)
    requires f in s.flights && s.flights[f].seen.data.Device?
  {
    var fl, s' := s.flights[f], Next(s, ClaimPoll(f));
    if InPhase(s.conns, fl.id, Pending) && s.conns[fl.id].nextPoll <= s.now
    then s'.flights == s.flights[f := Polling(fl.id, fl.seen)]
         && s'.conns == s.conns[fl.id := s.conns[fl.id].(nextPoll := s.now + fl.seen.data.interval)]
    else s'.flights == s.flights - {f} && s'.conns == s.conns
  }

  lemma ClaimStep(s: Pairing, f: nat)
    requires f in s.flights && s.flights[f].Asking? && s.flights[f].seen.data.Device?
    ensures ClaimedOnlyWhenDue(s, f)
  {
  }

  lemma ClaimIs(steps: seq<Step>, f: nat)
    requires var s := Run(START, steps); f in s.flights && s.flights[f].Asking?
    ensures var s := Run(START, steps); s.flights[f].seen.data.Device? && ClaimedOnlyWhenDue(s, f)
  {
    Knows(steps, f);
    ClaimStep(Run(START, steps), f);
  }

  lemma TokenStep(s: Pairing, f: nat, minted: bool)
    requires f in s.flights && s.flights[f].Minting? && s.flights[f].seen.data.Bound?
    ensures var fl := s.flights[f];
      Next(s, EndToken(f, minted)).tokens ==
        if minted && fl.id in s.conns && Readable(s.conns[fl.id], s.now)
        then s.tokens + [(fl.id, fl.seen.data.repository)] else s.tokens
  {
  }

  /** A handler that read the row connected finds it connected or revoked, or gone. */
  lemma StillConnected(steps: seq<Step>, f: nat)
    requires var s := Run(START, steps); f in s.flights && s.flights[f].Minting? && s.flights[f].id in s.conns
    ensures var s := Run(START, steps);
      var c := s.conns[s.flights[f].id];
      c.phase == Connected || c.phase == Revoked
  {
    Reachable(steps);
    var s := Run(START, steps);
    assert FlightOk(SlotOf(s, s.flights[f].id), s.flights[f]);
  }

  /** A minted token goes out exactly when the pairing still is connected. */
  lemma TokenIs(steps: seq<Step>, f: nat, minted: bool)
    requires var s := Run(START, steps); f in s.flights && s.flights[f].Minting?
    ensures var s := Run(START, steps);
      var fl := s.flights[f];
      && fl.seen.data.Bound?
      && Next(s, EndToken(f, minted)).tokens ==
           if minted && InPhase(s.conns, fl.id, Connected)
           then s.tokens + [(fl.id, fl.seen.data.repository)] else s.tokens
  {
    Knows(steps, f);
    var s := Run(START, steps);
    TokenStep(s, f, minted);
    if s.flights[f].id in s.conns { StillConnected(steps, f); }
  }

  /** Who gets to start: a poll on a pending pairing and a choice among the listed repositories of
      a selecting one until they expire, and a token on a connected one at any time. */
  lemma BeginIs(s: Pairing, f: nat, id: Id, repo: Repo)
    requires f !in s.flights
    ensures Next(s, BeginPoll(f, id)).flights ==
      if InPhase(s.conns, id, Pending) && s.conns[id].expires >= s.now
      then s.flights[f := Asking(id, s.conns[id])] else s.flights
    ensures Next(s, BeginSelect(f, id, repo)).flights ==
      if InPhase(s.conns, id, Selecting) && s.conns[id].expires >= s.now && s.conns[id].data.Choices?
         && repo in s.conns[id].data.repositories
      then s.flights[f := Probing(id, s.conns[id], repo)] else s.flights
    ensures Next(s, BeginToken(f, id)).flights ==
      if InPhase(s.conns, id, Connected) then s.flights[f := Minting(id, s.conns[id])] else s.flights
  {
  }

  /** Rows that take up room: not connected, and not past their time. */
  function Unexpired(conns: Table, now: int): set<Id> {
    set k | k in conns && conns[k].phase != Connected && conns[k].expires >= now
  }

  /** Connected, or not past its time. */
  function Kept(conns: Table, now: int): Table {
    map k | k in conns && (conns[k].phase == Connected || conns[k].expires >= now) :: conns[k]
  }

  lemma SweptIsKept(conns: Table, now: int)
    ensures Swept(conns, now) == Kept(conns, now) && Unfinished(Swept(conns, now)) == Unexpired(conns, now)
  {
  }

  lemma PairStep(s: Pairing, a: Step)
    requires a.Pair? && a.id !in s.used && a.interval >= 5
    ensures Next(s, a).conns ==
      if CanCreate(s.conns, s.now)
      then Swept(s.conns, s.now)
             [a.id := Conn(a.credential, Pending, s.now + a.ttl, s.now + a.interval, Device(a.code, a.interval))]
      else s.conns
  {
  }

  /** A new pairing is made exactly while fewer than a thousand are unfinished and not expired, and
      it starts out pending.  Making it removes what has expired and nothing else; refusing it
      removes nothing. */
  lemma PairIs(s: Pairing, a: Step)
    requires a.Pair? && a.id !in s.used && a.interval >= 5
    ensures Next(s, a).conns ==
      if |Unexpired(s.conns, s.now)| < 1000
      then Kept(s.conns, s.now)
             [a.id := Conn(a.credential, Pending, s.now + a.ttl, s.now + a.interval, Device(a.code, a.interval))]
      else s.conns
  {
    SweptIsKept(s.conns, s.now);
    PairStep(s, a);
  }

  // --- two polls in flight --------------------------------------------------------------------

  lemma RunAppend(s: Pairing, steps: seq<Step>, a: Step)
    ensures Run(s, steps + [a]) == Next(Run(s, steps), a)
  {
    assert (steps + [a])[..|steps|] == steps;
  }

  /** A pairing polled twice, five seconds apart, before GitHub has answered the first. */
  const TWO_POLLS: seq<Step> :=
    [Pair("p", "secret", "code", 5, 900), Tick(5), BeginPoll(0, "p"), ClaimPoll(0),
     Tick(5), BeginPoll(1, "p"), ClaimPoll(1)]

  const PAIRED := Conn("secret", Pending, 900, 5, Device("code", 5))

  lemma FirstPoll(s0: Pairing)
    requires s0.conns == map["p" := PAIRED] && s0.now == 0 && s0.flights == map[]
    ensures var s := Next(Next(Next(s0, TWO_POLLS[1]), TWO_POLLS[2]), TWO_POLLS[3]);
      s.conns == map["p" := PAIRED.(nextPoll := 10)] && s.now == 5 && s.flights == map[0 := Polling("p", PAIRED)]
  {
    var s2 := Next(Next(s0, TWO_POLLS[1]), TWO_POLLS[2]);
    assert s2.flights == map[0 := Asking("p", PAIRED)];
  }

  lemma SecondPoll(s0: Pairing)
    requires s0.conns == map["p" := PAIRED.(nextPoll := 10)] && s0.now == 5
    requires s0.flights == map[0 := Polling("p", PAIRED)]
    ensures var s := Next(Next(Next(s0, TWO_POLLS[4]), TWO_POLLS[5]), TWO_POLLS[6]);
      && s.conns == map["p" := PAIRED.(nextPoll := 15)]
      && s.flights == map[0 := Polling("p", PAIRED), 1 := Polling("p", PAIRED.(nextPoll := 10))]
  {
    var s2 := Next(Next(s0, TWO_POLLS[4]), TWO_POLLS[5]);
    assert s2.conns == s0.conns && s2.now == 10;
    assert s2.flights == map[0 := Polling("p", PAIRED), 1 := Asking("p", PAIRED.(nextPoll := 10))];
  }

  lemma PairedFirst()
    ensures var s := Next(START, TWO_POLLS[0]); s.conns == map["p" := PAIRED] && s.now == 0 && s.flights == map[]
  {
    assert Swept(map[], 0) == map[];
    assert Unfinished(map[]) == {};
  }

  /** Three more steps, through the states they lead to. */
  lemma RunThree(s: Pairing, steps: seq<Step>, more: seq<Step>, s1: Pairing, s2: Pairing)
    requires |more| == 3 && s1 == Next(Run(s, steps), more[0]) && s2 == Next(s1, more[1])
    ensures Run(s, steps + more) == Next(s2, more[2])
  {
    var one := steps + [more[0]];
    var two := one + [more[1]];
    assert two + [more[2]] == steps + more;
    RunAppend(s, steps, more[0]);
    RunAppend(s, one, more[1]);
    RunAppend(s, two, more[2]);
  }

  lemma TwoPollsRun()
    ensures var s := Run(START, TWO_POLLS);
      && s.conns == map["p" := PAIRED.(nextPoll := 15)]
      && s.flights == map[0 := Polling("p", PAIRED), 1 := Polling("p", PAIRED.(nextPoll := 10))]
  {
    var one := [TWO_POLLS[0]];
    var four := one + TWO_POLLS[1..4];
    assert [] + [TWO_POLLS[0]] == one && four + TWO_POLLS[4..] == TWO_POLLS;
    RunAppend(START, [], TWO_POLLS[0]);
    PairedFirst();
    var s0 := Run(START, one);
    var s1 := Next(s0, TWO_POLLS[1]);
    RunThree(START, one, TWO_POLLS[1..4], s1, Next(s1, TWO_POLLS[2]));
    FirstPoll(s0);
    var s3 := Run(START, four);
    var s4 := Next(s3, TWO_POLLS[4]);
    RunThree(START, four, TWO_POLLS[4..], s4, Next(s4, TWO_POLLS[5]));
    SecondPoll(s3);
  }

  lemma SlowedDown(s: Pairing)
    requires s.conns == map["p" := PAIRED.(nextPoll := 15)]
    requires s.flights == map[0 := Polling("p", PAIRED), 1 := Polling("p", PAIRED.(nextPoll := 10))]
    ensures var s1 := Next(s, EndPoll(0, SlowDown));
      && 1 in s1.flights && s1.flights[1].Polling? && CanWrite(s1.conns, "p", Pending)
      && s1.conns["p"].data == Device("code", 10)
      && Next(s1, EndPoll(1, SlowDown)).conns["p"].data == Device("code", 10)
  {
    var s1 := Next(s, EndPoll(0, SlowDown));
    assert s1.flights[1] == Polling("p", PAIRED.(nextPoll := 10));
  }

  /** Both are told to slow down, and the interval goes from five to ten, not to fifteen. */
  lemma OverlappingSlowDowns()
    ensures var s := Run(START, TWO_POLLS + [EndPoll(0, SlowDown)]);
      && 1 in s.flights && s.flights[1].Polling? && CanWrite(s.conns, "p", Pending)
      && s.conns["p"].data == Device("code", 10)
      && Next(s, EndPoll(1, SlowDown)).conns["p"].data == Device("code", 10)
  {
    TwoPollsRun();
    SlowedDown(Run(START, TWO_POLLS));
    RunAppend(START, TWO_POLLS, EndPoll(0, SlowDown));
  }
}
