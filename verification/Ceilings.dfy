/** The hourly ceilings built on the sliding windows, and the pairing admission window.
    Each is only checked when a call asks, but has to hold at every instant. */
module Ceilings {
  import opened Basics
  import W = Windows

  type Time = W.Time
  type Key = W.Key

  const HOUR: Time := 3600.0

  // --- the dispatch budget ---------------------------------------------------------------

  datatype Spent = Spent(at: Time, tokens: nat)

  datatype Budget = Budget(w: W.Table, tokens: seq<Spent>)

  function Live(events: seq<Spent>, now: Time): seq<Spent> {
    if events == [] then []
    else Live(events[..|events| - 1], now)
         + (if events[|events| - 1].at > now - HOUR then [events[|events| - 1]] else [])
  }

  function Sum(events: seq<Spent>): nat {
    if events == [] then 0 else Sum(events[..|events| - 1]) + events[|events| - 1].tokens
  }

  const RCA: Key := "rca"

  function Taken(b: Budget, cap: nat, tokenCap: nat, maxKeys: nat, now: Time, tokens: nat): (Budget, bool) {
    var w := W.Expire(b.w, RCA, now - HOUR);
    var live := Live(b.tokens, now);
    if |W.Deque(w, RCA)| >= cap then (Budget(w, b.tokens), false)
    else if Sum(live) + tokens > tokenCap then (Budget(w, live), false)
    else (Budget(W.Recorded(w, RCA, now, HOUR, maxKeys), live + [Spent(now, tokens)]), true)
  }

  class RcaBudget {
    const maxPerHour: nat
    const maxTokensPerHour: nat
    const counters: W.SlidingWindowCounters
    var tokenEvents: seq<Spent>

    constructor (maxPerHour: nat, maxTokensPerHour: nat)
      ensures this.maxPerHour == maxPerHour && this.maxTokensPerHour == maxTokensPerHour
      ensures State() == Budget(W.EMPTY, []) && fresh(counters)
      ensures counters.width == HOUR && counters.maxKeys == 10000
    {
      this.maxPerHour, this.maxTokensPerHour, tokenEvents := maxPerHour, maxTokensPerHour, [];
      counters := new W.SlidingWindowCounters(HOUR, 10000);
    }

    function State(): Budget
      reads this, counters
    {
      Budget(counters.State(), tokenEvents)
    }

    method TryTake(now: Time, tokens: nat) returns (ok: bool)
      requires counters.width == HOUR
      modifies this, counters
      ensures (State(), ok) == Taken(old(State()), maxPerHour, maxTokensPerHour, counters.maxKeys, now, tokens)
    {
      var n := counters.CountInWindow(RCA, now);
      assert n == |W.Deque(counters.State(), RCA)|;
      if n >= maxPerHour { return false; }
      var live := [];
      var sum := 0;
      for i := 0 to |tokenEvents|
        invariant live == Live(tokenEvents[..i], now) && sum == Sum(live)
      {
        assert tokenEvents[..i + 1][..i] == tokenEvents[..i];
        if tokenEvents[i].at > now - HOUR {
          live, sum := live + [tokenEvents[i]], sum + tokenEvents[i].tokens;
          assert live[..|live| - 1] == Live(tokenEvents[..i], now);
        }
      }
      assert tokenEvents[..|tokenEvents|] == tokenEvents;
      tokenEvents := live;
      if sum + tokens > maxTokensPerHour { return false; }
      counters.Record(RCA, now);
      tokenEvents := tokenEvents + [Spent(now, tokens)];
      ok := true;
    }
  }

  // --- the budget over a run ------------------------------------------------------------------

  /** The budget after a run of calls, with everything it accepted. */
  datatype Account = Account(b: Budget, accepted: seq<Spent>)

  function Charge(a: Account, cap: nat, tokenCap: nat, maxKeys: nat, call: Spent): Account {
    var (b, ok) := Taken(a.b, cap, tokenCap, maxKeys, call.at, call.tokens);
    Account(b, if ok then a.accepted + [call] else a.accepted)
  }

  function Charged(cap: nat, tokenCap: nat, maxKeys: nat, calls: seq<Spent>): Account {
    if calls == [] then Account(Budget(W.EMPTY, []), [])
    else Charge(Charged(cap, tokenCap, maxKeys, calls[..|calls| - 1]), cap, tokenCap, maxKeys, calls[|calls| - 1])
  }

  function Times(events: seq<Spent>): seq<Time> {
    seq(|events|, i requires 0 <= i < |events| => events[i].at)
  }

  /** Tokens spent in (lo, hi]. */
  function TokensIn(events: seq<Spent>, lo: Time, hi: Time): nat {
    if events == [] then 0
    else
      var last := events[|events| - 1];
      TokensIn(events[..|events| - 1], lo, hi) + (if lo < last.at <= hi then last.tokens else 0)
  }

  predicate Monotone(calls: seq<Spent>) {
    forall i, j :: 0 <= i <= j < |calls| ==> calls[i].at <= calls[j].at
  }

  /** The table of a counter that only ever sees one key. */
  function One(deque: seq<Time>): W.Table {
    if deque == [] then W.EMPTY else W.Table([RCA], map[RCA := deque])
  }

  predicate Within(events: seq<Spent>, cap: nat, tokenCap: nat, t: Time) {
    W.CountIn(Times(events), t - HOUR, t) <= cap && TokensIn(events, t - HOUR, t) <= tokenCap
  }

  /** The deque is what the accepted times leave within the hour. */
  predicate WindowOk(w: W.Table, accepted: seq<Spent>, clock: Time) {
    && w == One(W.Deque(w, RCA))
    && W.DequeOk(W.Track(Times(accepted), 0, clock, 0), W.Deque(w, RCA), HOUR)
  }

  /** The token list stands for everything accepted, from now on. */
  ghost predicate TokensOk(tokens: seq<Spent>, accepted: seq<Spent>, clock: Time) {
    forall now :: now >= clock ==> Live(tokens, now) == Live(accepted, now)
  }

  ghost predicate CeilingsOk(accepted: seq<Spent>, cap: nat, tokenCap: nat) {
    forall t :: Within(accepted, cap, tokenCap, t)
  }

  ghost predicate AccountOk(a: Account, cap: nat, tokenCap: nat, clock: Time) {
    && WindowOk(a.b.w, a.accepted, clock)
    && TokensOk(a.b.tokens, a.accepted, clock)
    && CeilingsOk(a.accepted, cap, tokenCap)
  }

  lemma {:induction false} LiveSplits(a: seq<Spent>, b: seq<Spent>, now: Time)
    ensures Live(a + b, now) == Live(a, now) + Live(b, now)
    decreases |b|
  {
    if b == [] {
      assert a + b == a && Live(b, now) == [] && Live(a, now) + [] == Live(a, now);
    } else {
      var rest, last := b[..|b| - 1], b[|b| - 1];
      var tail := if last.at > now - HOUR then [last] else [];
      LiveSplits(a, rest, now);
      assert (a + b)[..|a + b| - 1] == a + rest && (a + b)[|a + b| - 1] == last;
      assert (Live(a, now) + Live(rest, now)) + tail == Live(a, now) + (Live(rest, now) + tail);
    }
  }

  lemma {:induction false} LiveTwice(events: seq<Spent>, earlier: Time, now: Time)
    requires earlier <= now
    ensures Live(Live(events, earlier), now) == Live(events, now)
  {
    if events != [] {
      var rest, last := events[..|events| - 1], [events[|events| - 1]];
      LiveTwice(rest, earlier, now);
      LiveSplits(Live(rest, earlier), if last[0].at > earlier - HOUR then last else [], now);
    }
  }

  lemma {:induction false} LiveTokens(events: seq<Spent>, now: Time)
    requires forall i :: 0 <= i < |events| ==> events[i].at <= now
    ensures Sum(Live(events, now)) == TokensIn(events, now - HOUR, now)
  {
    if events != [] {
      var rest := events[..|events| - 1];
      LiveTokens(rest, now);
      if events[|events| - 1].at > now - HOUR {
        assert Live(events, now)[..|Live(events, now)| - 1] == Live(rest, now);
      } else {
        assert Live(events, now) == Live(rest, now);
      }
    }
  }

  /** A later window over the same past holds no more. */
  lemma {:induction false} LaterHoldsLess(times: seq<Time>, u: Time, t: Time)
    requires u <= t && forall i :: 0 <= i < |times| ==> times[i] <= u
    ensures W.CountIn(times, t - HOUR, t) <= W.CountIn(times, u - HOUR, u)
  {
    if times != [] { LaterHoldsLess(times[..|times| - 1], u, t); }
  }

  lemma {:induction false} LaterSpendsLess(events: seq<Spent>, u: Time, t: Time)
    requires u <= t && forall i :: 0 <= i < |events| ==> events[i].at <= u
    ensures TokensIn(events, t - HOUR, t) <= TokensIn(events, u - HOUR, u)
  {
    if events != [] { LaterSpendsLess(events[..|events| - 1], u, t); }
  }

  /** One more accepted call keeps every instant within the ceilings, if there was room
      for it when it came. */
  lemma OneMoreCounts(times: seq<Time>, u: Time, cap: nat, t: Time)
    requires forall i :: 0 <= i < |times| ==> times[i] <= u
    requires W.CountIn(times, t - HOUR, t) <= cap && W.CountIn(times, u - HOUR, u) < cap
    ensures W.CountIn(times + [u], t - HOUR, t) <= cap
  {
    assert (times + [u])[..|times|] == times;
    if u <= t { LaterHoldsLess(times, u, t); }
  }

  lemma OneMoreSpends(events: seq<Spent>, call: Spent, tokenCap: nat, t: Time)
    requires forall i :: 0 <= i < |events| ==> events[i].at <= call.at
    requires TokensIn(events, t - HOUR, t) <= tokenCap
    requires TokensIn(events, call.at - HOUR, call.at) + call.tokens <= tokenCap
    ensures TokensIn(events + [call], t - HOUR, t) <= tokenCap
  {
    assert (events + [call])[..|events|] == events;
    if call.at <= t { LaterSpendsLess(events, call.at, t); }
  }

  lemma OneExpires(deque: seq<Time>, cutoff: Time)
    ensures W.Expire(One(deque), RCA, cutoff) == One(W.Fresh(deque, cutoff))
  {
    if deque != [] {
      assert W.Remove([RCA], RCA) == [] by { assert [RCA][1..] == []; }
      assert map[RCA := deque] - {RCA} == map[];
      assert map[RCA := deque][RCA := W.Fresh(deque, cutoff)] == map[RCA := W.Fresh(deque, cutoff)];
    }
  }

  lemma OneRecords(deque: seq<Time>, ts: Time, maxKeys: nat)
    requires maxKeys > 0
    ensures W.Recorded(One(deque), RCA, ts, HOUR, maxKeys) == One(W.Fresh(deque, ts - HOUR) + [ts])
  {
    OneExpires(deque, ts - HOUR);
    var w := One(W.Fresh(deque, ts - HOUR));
    assert W.Remove(w.order, RCA) == [] by { assert [RCA][1..] == []; }
    assert W.Touch(w, RCA, ts) == One(W.Fresh(deque, ts - HOUR) + [ts]);
    assert w.order[..0] == [];
  }

  lemma FreshTwice(deque: seq<Time>, cutoff: Time)
    ensures W.Fresh(W.Fresh(deque, cutoff), cutoff) == W.Fresh(deque, cutoff)
  {
    W.FreshKeepsTheEnd(deque, cutoff);
  }

  /** The call sees exactly the dispatches of the last hour, and their tokens. */
  lemma WindowSees(w: W.Table, accepted: seq<Spent>, clock: Time, now: Time)
    requires clock <= now && WindowOk(w, accepted, clock)
    ensures |W.Fresh(W.Deque(w, RCA), now - HOUR)| == W.CountIn(Times(accepted), now - HOUR, now)
  {
    DequeSees(W.Track(Times(accepted), 0, clock, 0), W.Deque(w, RCA), now);
  }

  lemma DequeSees(t: W.Track, deque: seq<Time>, now: Time)
    requires W.DequeOk(t, deque, HOUR) && t.clock <= now && t.evicted == 0
    ensures |W.Fresh(deque, now - HOUR)| == W.CountIn(t.times, now - HOUR, now)
  {
    var kept := W.Fresh(deque, now - HOUR);
    W.ExpireKeepsDeque(t, deque, HOUR, now);
    W.FreshIsRecent(t, deque, kept, HOUR, now);
    W.DequeAgrees(W.At(t, now), kept, HOUR);
  }

  lemma WindowAges(w: W.Table, accepted: seq<Spent>, clock: Time, now: Time)
    requires clock <= now && WindowOk(w, accepted, clock)
    ensures WindowOk(W.Expire(w, RCA, now - HOUR), accepted, now)
  {
    var deque := W.Deque(w, RCA);
    OneExpires(deque, now - HOUR);
    W.ExpireKeepsDeque(W.Track(Times(accepted), 0, clock, 0), deque, HOUR, now);
  }

  lemma AllPast(w: W.Table, accepted: seq<Spent>, clock: Time)
    requires WindowOk(w, accepted, clock)
    ensures forall i :: 0 <= i < |accepted| ==> accepted[i].at <= clock
    ensures forall i :: 0 <= i < |Times(accepted)| ==> Times(accepted)[i] <= clock
  {
    assert forall i :: 0 <= i < |accepted| ==> accepted[i].at == Times(accepted)[i];
  }

  lemma WindowIs(deque: seq<Time>, accepted: seq<Spent>, clock: Time)
    requires W.DequeOk(W.Track(Times(accepted), 0, clock, 0), deque, HOUR)
    ensures WindowOk(One(deque), accepted, clock)
  {
  }

  /** Expired and recorded, the table holds what was recent and the new time. */
  lemma RecordsOne(deque: seq<Time>, ts: Time, maxKeys: nat)
    requires maxKeys > 0
    ensures W.Recorded(W.Expire(One(deque), RCA, ts - HOUR), RCA, ts, HOUR, maxKeys)
         == One(W.Fresh(deque, ts - HOUR) + [ts])
  {
    OneExpires(deque, ts - HOUR);
    FreshTwice(deque, ts - HOUR);
    OneRecords(W.Fresh(deque, ts - HOUR), ts, maxKeys);
  }

  lemma HistoryRecords(accepted: seq<Spent>, deque: seq<Time>, clock: Time, call: Spent)
    requires clock <= call.at && W.DequeOk(W.Track(Times(accepted), 0, clock, 0), deque, HOUR)
    ensures W.DequeOk(
      W.Track(Times(accepted + [call]), 0, call.at, 0), W.Fresh(deque, call.at - HOUR) + [call.at], HOUR)
  {
    W.AppendKeepsDeque(W.Track(Times(accepted), 0, clock, 0), deque, HOUR, call.at, 0);
    assert Times(accepted + [call]) == Times(accepted) + [call.at];
  }

  lemma WindowRecords(w: W.Table, accepted: seq<Spent>, maxKeys: nat, clock: Time, call: Spent)
    requires maxKeys > 0 && clock <= call.at && WindowOk(w, accepted, clock)
    ensures WindowOk(
      W.Recorded(W.Expire(w, RCA, call.at - HOUR), RCA, call.at, HOUR, maxKeys), accepted + [call], call.at)
  {
    var deque := W.Deque(w, RCA);
    RecordsOne(deque, call.at, maxKeys);
    HistoryRecords(accepted, deque, clock, call);
    WindowIs(W.Fresh(deque, call.at - HOUR) + [call.at], accepted + [call], call.at);
  }

  lemma TokensCarry(tokens: seq<Spent>, accepted: seq<Spent>, clock: Time, call: Spent)
    requires clock <= call.at && TokensOk(tokens, accepted, clock)
    ensures TokensOk(tokens, accepted, call.at) && TokensOk(Live(tokens, call.at), accepted, call.at)
    ensures TokensOk(Live(tokens, call.at) + [call], accepted + [call], call.at)
  {
    var live := Live(tokens, call.at);
    forall now | now >= call.at
      ensures Live(live, now) == Live(accepted, now) && Live(live + [call], now) == Live(accepted + [call], now)
    {
      LiveTwice(tokens, call.at, now);
      LiveSplits(live, [call], now);
      LiveSplits(accepted, [call], now);
    }
  }

  lemma CeilingsCarry(accepted: seq<Spent>, call: Spent, cap: nat, tokenCap: nat)
    requires CeilingsOk(accepted, cap, tokenCap)
    requires forall i :: 0 <= i < |accepted| ==> accepted[i].at <= call.at
    requires forall i :: 0 <= i < |Times(accepted)| ==> Times(accepted)[i] <= call.at
    requires W.CountIn(Times(accepted), call.at - HOUR, call.at) < cap
    requires TokensIn(accepted, call.at - HOUR, call.at) + call.tokens <= tokenCap
    ensures CeilingsOk(accepted + [call], cap, tokenCap)
  {
    assert Times(accepted + [call]) == Times(accepted) + [call.at];
    forall t ensures Within(accepted + [call], cap, tokenCap, t) {
      assert Within(accepted, cap, tokenCap, t);
      OneMoreCounts(Times(accepted), call.at, cap, t);
      OneMoreSpends(accepted, call, tokenCap, t);
    }
  }

  /** What the counter lets through leaves room for one more dispatch. */
  lemma RoomForCall(w: W.Table, accepted: seq<Spent>, cap: nat, clock: Time, now: Time)
    requires clock <= now && WindowOk(w, accepted, clock) && |W.Fresh(W.Deque(w, RCA), now - HOUR)| < cap
    ensures forall i :: 0 <= i < |accepted| ==> accepted[i].at <= now
    ensures forall i :: 0 <= i < |Times(accepted)| ==> Times(accepted)[i] <= now
    ensures W.CountIn(Times(accepted), now - HOUR, now) < cap
  {
    AllPast(w, accepted, clock);
    WindowSees(w, accepted, clock, now);
  }

  lemma AcceptedCeilings(tokens: seq<Spent>, accepted: seq<Spent>, cap: nat, tokenCap: nat, call: Spent)
    requires CeilingsOk(accepted, cap, tokenCap)
    requires forall i :: 0 <= i < |accepted| ==> accepted[i].at <= call.at
    requires forall i :: 0 <= i < |Times(accepted)| ==> Times(accepted)[i] <= call.at
    requires W.CountIn(Times(accepted), call.at - HOUR, call.at) < cap
    requires Live(tokens, call.at) == Live(accepted, call.at) && Sum(Live(tokens, call.at)) + call.tokens <= tokenCap
    ensures CeilingsOk(accepted + [call], cap, tokenCap)
  {
    LiveTokens(accepted, call.at);
    CeilingsCarry(accepted, call, cap, tokenCap);
  }

  lemma AcceptedKeeps(b: Budget, accepted: seq<Spent>, cap: nat, tokenCap: nat, maxKeys: nat, clock: Time, call: Spent)
    requires maxKeys > 0 && clock <= call.at && AccountOk(Account(b, accepted), cap, tokenCap, clock)
    requires |W.Fresh(W.Deque(b.w, RCA), call.at - HOUR)| < cap
    requires Sum(Live(b.tokens, call.at)) + call.tokens <= tokenCap
    ensures var w := W.Recorded(W.Expire(b.w, RCA, call.at - HOUR), RCA, call.at, HOUR, maxKeys);
      AccountOk(Account(Budget(w, Live(b.tokens, call.at) + [call]), accepted + [call]), cap, tokenCap, call.at)
  {
    WindowRecords(b.w, accepted, maxKeys, clock, call);
    TokensCarry(b.tokens, accepted, clock, call);
    RoomForCall(b.w, accepted, cap, clock, call.at);
    AcceptedCeilings(b.tokens, accepted, cap, tokenCap, call);
  }

  lemma RefusedKeeps(b: Budget, accepted: seq<Spent>, cap: nat, tokenCap: nat, clock: Time, now: Time)
    requires clock <= now && AccountOk(Account(b, accepted), cap, tokenCap, clock)
    ensures AccountOk(Account(Budget(W.Expire(b.w, RCA, now - HOUR), b.tokens), accepted), cap, tokenCap, now)
    ensures AccountOk(
      Account(Budget(W.Expire(b.w, RCA, now - HOUR), Live(b.tokens, now)), accepted), cap, tokenCap, now)
  {
    TokensCarry(b.tokens, accepted, clock, Spent(now, 0));
    WindowAges(b.w, accepted, clock, now);
  }

  /** The three ways a call can end. */
  lemma TakenIs(b: Budget, cap: nat, tokenCap: nat, maxKeys: nat, call: Spent)
    requires b.w == One(W.Deque(b.w, RCA))
    ensures var w := W.Expire(b.w, RCA, call.at - HOUR);
      var live := Live(b.tokens, call.at);
      Taken(b, cap, tokenCap, maxKeys, call.at, call.tokens) ==
      if |W.Fresh(W.Deque(b.w, RCA), call.at - HOUR)| >= cap then (Budget(w, b.tokens), false)
      else if Sum(live) + call.tokens > tokenCap then (Budget(w, live), false)
      else (Budget(W.Recorded(w, RCA, call.at, HOUR, maxKeys), live + [call]), true)
  {
    OneExpires(W.Deque(b.w, RCA), call.at - HOUR);
  }

  lemma ChargeKeeps(a: Account, cap: nat, tokenCap: nat, maxKeys: nat, clock: Time, call: Spent)
    requires maxKeys > 0 && clock <= call.at && AccountOk(a, cap, tokenCap, clock)
    ensures AccountOk(Charge(a, cap, tokenCap, maxKeys, call), cap, tokenCap, call.at)
  {
    TakenIs(a.b, cap, tokenCap, maxKeys, call);
    if |W.Fresh(W.Deque(a.b.w, RCA), call.at - HOUR)| >= cap
       || Sum(Live(a.b.tokens, call.at)) + call.tokens > tokenCap {
      RefusedKeeps(a.b, a.accepted, cap, tokenCap, clock, call.at);
    } else {
      AcceptedKeeps(a.b, a.accepted, cap, tokenCap, maxKeys, clock, call);
    }
  }

  lemma {:induction false} ChargedOk(cap: nat, tokenCap: nat, maxKeys: nat, calls: seq<Spent>, clock: Time)
    requires maxKeys > 0 && Monotone(calls) && forall i :: 0 <= i < |calls| ==> calls[i].at <= clock
    ensures AccountOk(Charged(cap, tokenCap, maxKeys, calls), cap, tokenCap, clock)
    decreases |calls|
  {
    if calls == [] {
      assert Times([]) == [];
    } else {
      var last := calls[|calls| - 1];
      ChargedOk(cap, tokenCap, maxKeys, calls[..|calls| - 1], last.at);
      ChargeKeeps(Charged(cap, tokenCap, maxKeys, calls[..|calls| - 1]), cap, tokenCap, maxKeys, last.at, last);
    }
  }

  /** At every instant the dispatches of the last hour are within the cap, and the tokens
      they reserved within the token cap, whatever was asked for and when. */
  lemma BudgetHolds(cap: nat, tokenCap: nat, maxKeys: nat, calls: seq<Spent>, t: Time)
    requires maxKeys > 0 && Monotone(calls)
    ensures var accepted := Charged(cap, tokenCap, maxKeys, calls).accepted;
      W.CountIn(Times(accepted), t - HOUR, t) <= cap && TokensIn(accepted, t - HOUR, t) <= tokenCap
  {
    ChargedOk(cap, tokenCap, maxKeys, calls, if calls == [] then 0.0 else calls[|calls| - 1].at);
    assert Within(Charged(cap, tokenCap, maxKeys, calls).accepted, cap, tokenCap, t);
  }

  lemma MonotoneFront(calls: seq<Spent>, call: Spent)
    requires Monotone(calls + [call])
    ensures Monotone(calls) && forall i :: 0 <= i < |calls| ==> calls[i].at <= call.at
  {
    var all := calls + [call];
    forall i, j | 0 <= i <= j < |calls| ensures calls[i].at <= calls[j].at <= call.at {
      assert all[i] == calls[i] && all[j] == calls[j] && all[|calls|] == call;
    }
  }

  /** What the budget sees when a call comes. */
  lemma BudgetSees(b: Budget, accepted: seq<Spent>, now: Time)
    requires WindowOk(b.w, accepted, now) && TokensOk(b.tokens, accepted, now)
    ensures |W.Fresh(W.Deque(b.w, RCA), now - HOUR)| == W.CountIn(Times(accepted), now - 3600.0, now)
    ensures Sum(Live(b.tokens, now)) == TokensIn(accepted, now - 3600.0, now)
  {
    WindowSees(b.w, accepted, now, now);
    AllPast(b.w, accepted, now);
    LiveTokens(accepted, now);
  }

  predicate HasRoom(accepted: seq<Spent>, cap: nat, tokenCap: nat, call: Spent) {
    && W.CountIn(Times(accepted), call.at - 3600.0, call.at) < cap
    && TokensIn(accepted, call.at - 3600.0, call.at) + call.tokens <= tokenCap
  }

  lemma ChargeIs(a: Account, cap: nat, tokenCap: nat, maxKeys: nat, call: Spent)
    requires WindowOk(a.b.w, a.accepted, call.at) && TokensOk(a.b.tokens, a.accepted, call.at)
    ensures Charge(a, cap, tokenCap, maxKeys, call).accepted ==
      if HasRoom(a.accepted, cap, tokenCap, call) then a.accepted + [call] else a.accepted
  {
    BudgetSees(a.b, a.accepted, call.at);
    TakenIs(a.b, cap, tokenCap, maxKeys, call);
  }

  /** A call is let through exactly when there is room for it: fewer dispatches than the cap in the hour
      up to it, both ends included, and tokens that still fit. */
  lemma TakenIff(cap: nat, tokenCap: nat, maxKeys: nat, calls: seq<Spent>, call: Spent)
    requires maxKeys > 0 && Monotone(calls + [call])
    ensures var before := Charged(cap, tokenCap, maxKeys, calls).accepted;
      Charged(cap, tokenCap, maxKeys, calls + [call]).accepted ==
        if HasRoom(before, cap, tokenCap, call) then before + [call] else before
  {
    assert (calls + [call])[..|calls|] == calls;
    MonotoneFront(calls, call);
    ChargedOk(cap, tokenCap, maxKeys, calls, call.at);
    ChargeIs(Charged(cap, tokenCap, maxKeys, calls), cap, tokenCap, maxKeys, call);
  }

  // --- the ticket cap ---------------------------------------------------------------------------

  /** One attempt to create a ticket: it is recorded first, then counted, and goes ahead
      unless the count is over the cap. */
  datatype Attempt = Attempt(service: Key, at: Time)

  /** `creates` remembers the attempts that went ahead. */
  datatype Desk = Desk(log: W.Log, creates: map<Key, seq<Time>>)

  function Creates(d: Desk, key: Key): seq<Time> { if key in d.creates then d.creates[key] else [] }

  function Counted(log: W.Log, maxKeys: nat, a: Attempt): W.Log {
    W.Next(W.Next(log, HOUR, maxKeys, W.Record(a.service, a.at)), HOUR, maxKeys, W.Count(a.service, a.at))
  }

  function Try(d: Desk, cap: Key -> nat, maxKeys: nat, a: Attempt): Desk {
    var log := Counted(d.log, maxKeys, a);
    if |W.Deque(log.w, a.service)| > cap(a.service) then d.(log := log)
    else Desk(log, d.creates[a.service := Creates(d, a.service) + [a.at]])
  }

  function Tried(cap: Key -> nat, maxKeys: nat, attempts: seq<Attempt>): Desk {
    if attempts == [] then Desk(W.START, map[])
    else Try(Tried(cap, maxKeys, attempts[..|attempts| - 1]), cap, maxKeys, attempts[|attempts| - 1])
  }

  predicate Forward(attempts: seq<Attempt>) {
    forall i, j :: 0 <= i <= j < |attempts| ==> attempts[i].at <= attempts[j].at
  }

  /** The attempt is recorded and counted in the pipeline's own counters. */
  method OverCap(counters: W.SlidingWindowCounters, service: Key, now: Time, cap: nat) returns (over: bool)
    requires counters.width == HOUR
    modifies counters
    ensures var w := W.Recorded(old(counters.State()), service, now, HOUR, counters.maxKeys);
      && counters.State() == W.Expire(w, service, now - HOUR)
      && over == (|W.Fresh(W.Deque(w, service), now - HOUR)| > cap)
  {
    counters.Record(service, now);
    var n := counters.CountInWindow(service, now);
    over := n > cap;
  }

  predicate Capped(creates: seq<Time>, cap: nat, t: Time) { W.CountIn(creates, t - HOUR, t) <= cap }

  /** Creations are some of the attempts; while the key is never evicted they are capped. */
  ghost predicate KeyCapped(d: Desk, key: Key, cap: nat) {
    var creates := Creates(d, key);
    && (key !in d.log.tracks ==> creates == [])
    && (key in d.log.tracks ==> TrackCapped(creates, d.log.tracks[key], cap))
  }

  ghost predicate TrackCapped(creates: seq<Time>, t: W.Track, cap: nat) {
    && (forall i :: 0 <= i < |creates| ==> creates[i] <= t.clock)
    && (forall lo, hi :: W.CountIn(creates, lo, hi) <= W.CountIn(t.times, lo, hi))
    && (t.evicted == 0 ==> forall u :: Capped(creates, cap, u))
  }

  ghost predicate DeskOk(d: Desk, cap: Key -> nat, maxKeys: nat, clock: Time) {
    && W.Inv(d.log, HOUR, maxKeys)
    && (forall key :: KeyCapped(d, key, cap(key)))
    && (forall key | key in d.log.tracks :: d.log.tracks[key].clock <= clock)
  }

  /** What one attempt does to the history of a key. */
  lemma AttemptTracks(log: W.Log, maxKeys: nat, a: Attempt, key: Key)
    ensures var log' := Counted(log, maxKeys, a);
      && (key in log'.tracks <==> key in log.tracks || key == a.service)
      && (key == a.service ==>
            && log'.tracks[key].clock == a.at
            && log'.tracks[key].times == W.TrackOf(log, key, a.at).times
            && (log'.tracks[key].evicted == 0 ==> key in log.tracks ==> log.tracks[key].evicted == 0))
      && (key in log.tracks && key != a.service ==>
            && log'.tracks[key].times == log.tracks[key].times && log'.tracks[key].clock == log.tracks[key].clock
            && (log'.tracks[key].evicted == 0 ==> log.tracks[key].evicted == 0 || log.tracks[key].times == []))
  {
    var log1 := W.Next(log, HOUR, maxKeys, W.Record(a.service, a.at));
    W.RecordedTrack(log, HOUR, maxKeys, a.service, a.at, key);
  }

  /** A creation that was counted within the cap, itself included, breaks it at no instant. */
  lemma OneMoreCreate(creates: seq<Time>, times: seq<Time>, at: Time, cap: nat, u: Time)
    requires forall i :: 0 <= i < |creates| ==> creates[i] <= at
    requires W.CountIn(creates, at - HOUR, at) <= W.CountIn(times, at - HOUR, at)
    requires W.CountIn(times + [at], at - HOUR, at) <= cap && Capped(creates, cap, u)
    ensures Capped(creates + [at], cap, u)
  {
    assert (creates + [at])[..|creates|] == creates && (times + [at])[..|times|] == times;
    if at <= u { LaterHoldsLess(creates + [at], at, u); }
  }

  lemma OneMoreOfBoth(creates: seq<Time>, times: seq<Time>, at: Time, lo: Time, hi: Time)
    requires W.CountIn(creates, lo, hi) <= W.CountIn(times, lo, hi)
    ensures W.CountIn(creates + [at], lo, hi) <= W.CountIn(times + [at], lo, hi)
    ensures W.CountIn(creates, lo, hi) <= W.CountIn(times + [at], lo, hi)
  {
    assert (creates + [at])[..|creates|] == creates && (times + [at])[..|times|] == times;
  }

  lemma AttemptKeepsLog(d: Desk, cap: Key -> nat, maxKeys: nat, clock: Time, a: Attempt)
    requires DeskOk(d, cap, maxKeys, clock) && clock <= a.at
    ensures W.Inv(Counted(d.log, maxKeys, a), HOUR, maxKeys)
  {
    var log1 := W.Next(d.log, HOUR, maxKeys, W.Record(a.service, a.at));
    W.RecordKeeps(d.log, HOUR, maxKeys, a.service, a.at);
    W.RecordedTrack(d.log, HOUR, maxKeys, a.service, a.at, a.service);
    W.CountKeeps(log1, HOUR, maxKeys, a.service, a.at);
  }

  lemma RecordedKey(d: Desk, cap: Key -> nat, maxKeys: nat, clock: Time, a: Attempt)
    requires DeskOk(d, cap, maxKeys, clock) && clock <= a.at
    ensures var log1 := W.Next(d.log, HOUR, maxKeys, W.Record(a.service, a.at));
      W.KeyOk(log1, HOUR, a.service) && a.service in log1.tracks && log1.tracks[a.service].clock == a.at
  {
    assert W.KeyOk(d.log, HOUR, a.service);
    W.RecordKeepsKey(d.log, HOUR, maxKeys, a.service, a.at, a.service);
    W.RecordedTrack(d.log, HOUR, maxKeys, a.service, a.at, a.service);
  }

  /** Counting a key that was never evicted sees every time of the last hour. */
  lemma CountSees(log: W.Log, maxKeys: nat, key: Key, now: Time)
    requires W.KeyOk(log, HOUR, key) && key in log.tracks && log.tracks[key].clock <= now
    ensures var log' := W.Next(log, HOUR, maxKeys, W.Count(key, now));
      && key in log'.tracks
      && (log'.tracks[key].evicted == 0 ==>
            |W.Deque(log'.w, key)| == W.CountIn(log'.tracks[key].times, now - HOUR, now))
  {
    W.ExpireKey(log.w, key, now - HOUR, key);
    W.CountAgrees(log, HOUR, key, now);
  }

  /** An attempt keeps the cap: `times` is everything tried before, and `counted` what the
      counter said with this attempt. */
  lemma AttemptKeepsCap(creates: seq<Time>, creates': seq<Time>, times: seq<Time>, t': W.Track, cap: nat, counted: nat)
    requires forall i :: 0 <= i < |creates| ==> creates[i] <= t'.clock
    requires forall lo, hi :: W.CountIn(creates, lo, hi) <= W.CountIn(times, lo, hi)
    requires t'.times == times + [t'.clock]
    requires t'.evicted == 0 ==> counted == W.CountIn(t'.times, t'.clock - HOUR, t'.clock)
    requires t'.evicted == 0 ==> forall u :: Capped(creates, cap, u)
    requires creates' == creates || (creates' == creates + [t'.clock] && counted <= cap)
    ensures TrackCapped(creates', t', cap)
  {
    forall lo, hi ensures W.CountIn(creates', lo, hi) <= W.CountIn(t'.times, lo, hi) {
      OneMoreOfBoth(creates, times, t'.clock, lo, hi);
    }
    if t'.evicted == 0 {
      forall u ensures Capped(creates', cap, u) {
        assert Capped(creates, cap, u);
        if creates' != creates { OneMoreCreate(creates, times, t'.clock, cap, u); }
      }
    }
  }

  lemma NoneCapped(cap: nat)
    ensures forall lo, hi :: W.CountIn([], lo, hi) == 0
    ensures forall u :: Capped([], cap, u)
  {
  }

  lemma AttemptSees(log: W.Log, maxKeys: nat, a: Attempt)
    requires var log1 := W.Next(log, HOUR, maxKeys, W.Record(a.service, a.at));
      W.KeyOk(log1, HOUR, a.service) && a.service in log1.tracks && log1.tracks[a.service].clock == a.at
    ensures var log' := Counted(log, maxKeys, a);
      && a.service in log'.tracks
      && (log'.tracks[a.service].evicted == 0 ==>
            |W.Deque(log'.w, a.service)| == W.CountIn(log'.tracks[a.service].times, a.at - HOUR, a.at))
  {
    CountSees(W.Next(log, HOUR, maxKeys, W.Record(a.service, a.at)), maxKeys, a.service, a.at);
  }

  lemma TryOwnKey(d: Desk, cap: Key -> nat, maxKeys: nat, clock: Time, a: Attempt)
    requires DeskOk(d, cap, maxKeys, clock) && clock <= a.at
    ensures KeyCapped(Try(d, cap, maxKeys, a), a.service, cap(a.service))
  {
    RecordedKey(d, cap, maxKeys, clock, a);
    AttemptSees(d.log, maxKeys, a);
    AttemptTracks(d.log, maxKeys, a, a.service);
    TriedKeyCapped(d, Counted(d.log, maxKeys, a), cap, maxKeys, a);
  }

  lemma TriedKeyCapped(d: Desk, log': W.Log, cap: Key -> nat, maxKeys: nat, a: Attempt)
    requires log' == Counted(d.log, maxKeys, a) && a.service in log'.tracks
    requires KeyCapped(d, a.service, cap(a.service))
    requires a.service in d.log.tracks ==> d.log.tracks[a.service].clock <= a.at
    requires var t' := log'.tracks[a.service];
      && t'.clock == a.at && t'.times == W.TrackOf(d.log, a.service, a.at).times
      && (t'.evicted == 0 ==> a.service in d.log.tracks ==> d.log.tracks[a.service].evicted == 0)
      && (t'.evicted == 0 ==> |W.Deque(log'.w, a.service)| == W.CountIn(t'.times, a.at - HOUR, a.at))
    ensures KeyCapped(Try(d, cap, maxKeys, a), a.service, cap(a.service))
  {
    var key := a.service;
    var creates := Creates(d, key);
    var times := if key in d.log.tracks then d.log.tracks[key].times else [];
    NoneCapped(cap(key));
    assert log'.tracks[key].times == times + [a.at];
    AttemptKeepsCap(creates, Creates(Try(d, cap, maxKeys, a), key), times, log'.tracks[key], cap(key),
                    |W.Deque(log'.w, key)|);
  }

  lemma SameTrackCapped(creates: seq<Time>, t: W.Track, t': W.Track, cap: nat)
    requires TrackCapped(creates, t, cap) && t'.times == t.times && t'.clock == t.clock
    requires t'.evicted == 0 ==> t.evicted == 0
    ensures TrackCapped(creates, t', cap)
  {
  }

  lemma TryOtherKey(d: Desk, cap: Key -> nat, maxKeys: nat, a: Attempt, key: Key)
    requires W.KeyOk(d.log, HOUR, key) && KeyCapped(d, key, cap(key)) && key != a.service
    ensures KeyCapped(Try(d, cap, maxKeys, a), key, cap(key))
  {
    AttemptTracks(d.log, maxKeys, a, key);
    assert Creates(Try(d, cap, maxKeys, a), key) == Creates(d, key);
    if key in d.log.tracks {
      var t, t' := d.log.tracks[key], Counted(d.log, maxKeys, a).tracks[key];
      assert t.evicted <= |t.times|;
      SameTrackCapped(Creates(d, key), t, t', cap(key));
    }
  }

  lemma TryKeeps(d: Desk, cap: Key -> nat, maxKeys: nat, clock: Time, a: Attempt)
    requires DeskOk(d, cap, maxKeys, clock) && clock <= a.at
    ensures DeskOk(Try(d, cap, maxKeys, a), cap, maxKeys, a.at)
  {
    var d' := Try(d, cap, maxKeys, a);
    AttemptKeepsLog(d, cap, maxKeys, clock, a);
    forall key ensures KeyCapped(d', key, cap(key)) {
      assert W.KeyOk(d.log, HOUR, key) && KeyCapped(d, key, cap(key));
      if key == a.service { TryOwnKey(d, cap, maxKeys, clock, a); } else { TryOtherKey(d, cap, maxKeys, a, key); }
    }
    forall key | key in d'.log.tracks ensures d'.log.tracks[key].clock <= a.at {
      AttemptTracks(d.log, maxKeys, a, key);
    }
  }

  lemma {:induction false} TriedOk(cap: Key -> nat, maxKeys: nat, attempts: seq<Attempt>, clock: Time)
    requires Forward(attempts) && forall i :: 0 <= i < |attempts| ==> attempts[i].at <= clock
    ensures DeskOk(Tried(cap, maxKeys, attempts), cap, maxKeys, clock)
    decreases |attempts|
  {
    if attempts == [] {
      W.Reachable(HOUR, maxKeys, []);
    } else {
      var last := attempts[|attempts| - 1];
      TriedOk(cap, maxKeys, attempts[..|attempts| - 1], last.at);
      TryKeeps(Tried(cap, maxKeys, attempts[..|attempts| - 1]), cap, maxKeys, last.at, last);
    }
  }

  /** At every instant the tickets created for a service in the last hour are within its cap,
      as long as the service was never pushed out of the counters. */
  lemma TicketCapHolds(cap: Key -> nat, maxKeys: nat, attempts: seq<Attempt>, service: Key, t: Time)
    requires Forward(attempts)
    requires var log := Tried(cap, maxKeys, attempts).log; service in log.tracks ==> log.tracks[service].evicted == 0
    ensures W.CountIn(Creates(Tried(cap, maxKeys, attempts), service), t - HOUR, t) <= cap(service)
  {
    var d := Tried(cap, maxKeys, attempts);
    TriedOk(cap, maxKeys, attempts, if attempts == [] then 0.0 else attempts[|attempts| - 1].at);
    assert KeyCapped(d, service, cap(service));
    assert service in d.log.tracks ==> Capped(Creates(d, service), cap(service), t);
  }

  /** The attempts made for a service. */
  function TimesOf(attempts: seq<Attempt>, service: Key): seq<Time> {
    if attempts == [] then []
    else
      var last := attempts[|attempts| - 1];
      TimesOf(attempts[..|attempts| - 1], service) + (if last.service == service then [last.at] else [])
  }

  lemma {:induction false} AttemptsAreRecorded(cap: Key -> nat, maxKeys: nat, attempts: seq<Attempt>, service: Key)
    ensures var log := Tried(cap, maxKeys, attempts).log;
      (if service in log.tracks then log.tracks[service].times else []) == TimesOf(attempts, service)
    decreases |attempts|
  {
    if attempts != [] {
      var front, last := attempts[..|attempts| - 1], attempts[|attempts| - 1];
      AttemptsAreRecorded(cap, maxKeys, front, service);
      AttemptTracks(Tried(cap, maxKeys, front).log, maxKeys, last, service);
      assert TimesOf(front, service) + [] == TimesOf(front, service);
    }
  }

  lemma TryGoes(d: Desk, cap: Key -> nat, maxKeys: nat, a: Attempt)
    ensures Try(d, cap, maxKeys, a).log == Counted(d.log, maxKeys, a)
    ensures Creates(Try(d, cap, maxKeys, a), a.service) ==
      if |W.Deque(Counted(d.log, maxKeys, a).w, a.service)| <= cap(a.service)
      then Creates(d, a.service) + [a.at] else Creates(d, a.service)
  {
  }

  lemma OwnCount(d: Desk, cap: Key -> nat, maxKeys: nat, a: Attempt)
    requires DeskOk(d, cap, maxKeys, a.at)
    requires var log := Counted(d.log, maxKeys, a); a.service in log.tracks ==> log.tracks[a.service].evicted == 0
    ensures var log := Counted(d.log, maxKeys, a);
      a.service in log.tracks
      && |W.Deque(log.w, a.service)| == W.CountIn(log.tracks[a.service].times, a.at - 3600.0, a.at)
  {
    RecordedKey(d, cap, maxKeys, a.at, a);
    AttemptSees(d.log, maxKeys, a);
  }

  lemma ForwardFront(attempts: seq<Attempt>, a: Attempt)
    requires Forward(attempts + [a])
    ensures Forward(attempts) && forall i :: 0 <= i < |attempts| ==> attempts[i].at <= a.at
  {
    forall i, j | 0 <= i <= j < |attempts| ensures attempts[i].at <= attempts[j].at <= a.at {
      var all := attempts + [a];
      assert all[i] == attempts[i] && all[j] == attempts[j] && all[|attempts|] == a;
    }
  }

  /** An attempt makes its ticket exactly when the attempts of the hour up to it, itself and refused
      ones included, are within the cap, as long as the service was never pushed out. */
  lemma TicketAllowedIff(cap: Key -> nat, maxKeys: nat, attempts: seq<Attempt>, a: Attempt)
    requires Forward(attempts + [a])
    requires var log := Tried(cap, maxKeys, attempts + [a]).log;
      a.service in log.tracks ==> log.tracks[a.service].evicted == 0
    ensures var before := Creates(Tried(cap, maxKeys, attempts), a.service);
      Creates(Tried(cap, maxKeys, attempts + [a]), a.service) ==
        if W.CountIn(TimesOf(attempts + [a], a.service), a.at - 3600.0, a.at) <= cap(a.service)
        then before + [a.at] else before
  {
    var d := Tried(cap, maxKeys, attempts);
    assert (attempts + [a])[..|attempts|] == attempts;
    ForwardFront(attempts, a);
    TriedOk(cap, maxKeys, attempts, a.at);
    TryGoes(d, cap, maxKeys, a);
    OwnCount(d, cap, maxKeys, a);
    AttemptsAreRecorded(cap, maxKeys, attempts + [a], a.service);
  }

  // --- pairing admission -----------------------------------------------------------------------

  const MINUTE: Time := 60.0
  const ADMISSIONS: nat := 60

  /** The one admission row: when the current window started, and the attempts in it. */
  datatype Admission = Admission(started: Time, count: nat)

  function Admitted(row: Option<Admission>, now: Time): Admission {
    match row
    case None => Admission(now, 1)
    case Some(r) => if r.started < now - MINUTE then Admission(now, 1) else Admission(r.started, r.count + 1)
  }

  /** The row after a run of attempts, and when one was admitted. */
  datatype Door = Door(row: Option<Admission>, admitted: seq<Time>)

  function Knock(d: Door, now: Time): Door {
    var row := Admitted(d.row, now);
    Door(Some(row), if row.count > ADMISSIONS then d.admitted else d.admitted + [now])
  }

  function Knocked(times: seq<Time>): Door {
    if times == [] then Door(None, []) else Knock(Knocked(times[..|times| - 1]), times[|times| - 1])
  }

  /** How many were admitted in the minute from `a`: at most 60 more than were left over from
      the window before, and never the attempt that opened that one. */
  predicate DoorOk(d: Door, clock: Time, a: Time) {
    var n := W.CountIn(d.admitted, a, a + MINUTE);
    && (n > 0 ==> a <= clock)
    && match d.row
       case None => n == 0
       case Some(r) =>
         var used := if r.count < ADMISSIONS then r.count else ADMISSIONS;
         && r.count >= 1 && r.started <= clock
         && (if r.started < a then n <= used - 1
             else if r.started <= a + MINUTE then n <= ADMISSIONS - 1 + used
             else n <= 2 * ADMISSIONS - 1)
  }

  lemma KnockKeeps(d: Door, clock: Time, now: Time, a: Time)
    requires clock <= now && DoorOk(d, clock, a)
    ensures DoorOk(Knock(d, now), now, a)
  {
    assert (d.admitted + [now])[..|d.admitted|] == d.admitted;
  }

  lemma {:induction false} KnockedOk(times: seq<Time>, clock: Time, a: Time)
    requires W.Sorted(times) && forall i :: 0 <= i < |times| ==> times[i] <= clock
    ensures DoorOk(Knocked(times), clock, a)
    decreases |times|
  {
    if times != [] {
      var last := times[|times| - 1];
      KnockedOk(times[..|times| - 1], last, a);
      KnockKeeps(Knocked(times[..|times| - 1]), last, last, a);
    }
  }

  /** No closed minute sees more than 119 admissions: a minute can reach into two windows,
      but then not to the attempt that opened the first. */
  lemma AdmissionsHold(times: seq<Time>, a: Time)
    requires W.Sorted(times)
    ensures W.CountIn(Knocked(times).admitted, a, a + MINUTE) <= 119
  {
    KnockedOk(times, if times == [] then 0.0 else times[|times| - 1], a);
  }

  // --- when a minute sees more than 60 ------------------------------------------------------------

  /** One more attempt: in the last window while that is open, else in a new one. */
  function Extended(g: seq<seq<Time>>, t: Time): seq<seq<Time>> {
    if g == [] || g[|g| - 1] == [] || g[|g| - 1][0] < t - MINUTE then g + [[t]]
    else g[..|g| - 1] + [g[|g| - 1] + [t]]
  }

  /** The attempts, window by window. */
  function Grouped(times: seq<Time>): seq<seq<Time>> {
    if times == [] then [] else Extended(Grouped(times[..|times| - 1]), times[|times| - 1])
  }

  /** What a window lets in: its first 60 attempts. */
  function LetIn(window: seq<Time>): seq<Time> { if |window| > ADMISSIONS then window[..ADMISSIONS] else window }

  function SeenOf(window: seq<Time>, a: Time): nat { W.CountIn(LetIn(window), a, a + MINUTE) }

  function Seen(g: seq<seq<Time>>, a: Time): nat {
    if g == [] then 0 else Seen(g[..|g| - 1], a) + SeenOf(g[|g| - 1], a)
  }

  lemma SeenMore(g: seq<seq<Time>>, window: seq<Time>, a: Time)
    ensures Seen(g + [window], a) == Seen(g, a) + SeenOf(window, a)
  {
    assert (g + [window])[..|g|] == g;
  }

  lemma LetInMore(window: seq<Time>, t: Time, a: Time)
    ensures SeenOf(window + [t], a)
         == SeenOf(window, a) + if |window| < ADMISSIONS && a <= t <= a + MINUTE then 1 else 0
  {
    if |window| < ADMISSIONS {
      assert (window + [t])[..|window|] == window;
    } else {
      assert (window + [t])[..ADMISSIONS] == LetIn(window);
    }
  }

  function RowOf(g: seq<seq<Time>>): Option<Admission> {
    if g == [] || g[|g| - 1] == [] then None else Some(Admission(g[|g| - 1][0], |g[|g| - 1]|))
  }

  lemma ExtendedRow(g: seq<seq<Time>>, t: Time)
    ensures RowOf(Extended(g, t)) == Some(Admitted(RowOf(g), t))
  {
  }

  lemma ExtendedSeen(g: seq<seq<Time>>, t: Time, a: Time)
    ensures Seen(Extended(g, t), a)
         == Seen(g, a) + if Admitted(RowOf(g), t).count <= ADMISSIONS && a <= t <= a + MINUTE then 1 else 0
  {
    if RowOf(g).None? || g[|g| - 1][0] < t - MINUTE {
      NewSeen(g, t, a);
    } else {
      LastSeen(g[..|g| - 1], g[|g| - 1], t, a);
      assert g == g[..|g| - 1] + [g[|g| - 1]];
    }
  }

  lemma NewSeen(g: seq<seq<Time>>, t: Time, a: Time)
    ensures Seen(g + [[t]], a) == Seen(g, a) + if a <= t <= a + MINUTE then 1 else 0
  {
    SeenMore(g, [t], a);
    LetInMore([], t, a);
    assert [] + [t] == [t];
  }

  lemma LastSeen(older: seq<seq<Time>>, window: seq<Time>, t: Time, a: Time)
    ensures Seen(older + [window + [t]], a)
         == Seen(older + [window], a) + if |window| < ADMISSIONS && a <= t <= a + MINUTE then 1 else 0
  {
    SeenMore(older, window, a);
    SeenMore(older, window + [t], a);
    LetInMore(window, t, a);
  }

  /** The door's row is the last window, and what it admitted is what the windows let in. */
  lemma {:induction false} DoorIsGrouped(times: seq<Time>, a: Time)
    ensures Knocked(times).row == RowOf(Grouped(times))
    ensures W.CountIn(Knocked(times).admitted, a, a + MINUTE) == Seen(Grouped(times), a)
    decreases |times|
  {
    if times != [] {
      var front, last := times[..|times| - 1], times[|times| - 1];
      DoorIsGrouped(front, a);
      ExtendedRow(Grouped(front), last);
      ExtendedSeen(Grouped(front), last, a);
      assert (Knocked(front).admitted + [last])[..|Knocked(front).admitted|] == Knocked(front).admitted;
    }
  }

  /** A window lasts a minute at most. */
  predicate WithinMinute(window: seq<Time>) {
    window != [] && forall i :: 0 <= i < |window| ==> window[0] <= window[i] <= window[0] + MINUTE
  }

  /** The next window starts later than that. */
  predicate Apart(g: seq<seq<Time>>) {
    && (forall k :: 0 <= k < |g| ==> WithinMinute(g[k]))
    && (forall j, k :: 0 <= j < k < |g| ==> g[j][0] + MINUTE < g[k][0])
  }

  predicate AllUpTo(g: seq<seq<Time>>, t: Time) {
    forall k :: 0 <= k < |g| ==> forall i :: 0 <= i < |g[k]| ==> g[k][i] <= t
  }

  lemma NewWindowApart(g: seq<seq<Time>>, t: Time)
    requires Apart(g) && (g != [] ==> g[|g| - 1][0] + MINUTE < t)
    ensures Apart(g + [[t]])
  {
    var all := g + [[t]];
    forall k | 0 <= k < |all| ensures WithinMinute(all[k]) { assert k < |g| ==> WithinMinute(g[k]); }
    forall j, k | 0 <= j < k < |all| ensures all[j][0] + MINUTE < all[k][0] {
      assert k < |g| ==> g[j][0] + MINUTE < g[k][0];
      assert j < |g| - 1 ==> g[j][0] + MINUTE < g[|g| - 1][0];
    }
  }

  lemma LastWindowApart(g: seq<seq<Time>>, window: seq<Time>, t: Time)
    requires Apart(g + [window]) && window != [] && t <= window[0] + MINUTE
    requires forall i :: 0 <= i < |window| ==> window[i] <= t
    ensures Apart(g + [window + [t]])
  {
    var before, all := g + [window], g + [window + [t]];
    assert before[|g|] == window && all[|g|][0] == window[0];
    forall k | 0 <= k < |all| ensures WithinMinute(all[k]) { assert WithinMinute(before[k]); }
    forall j, k | 0 <= j < k < |all| ensures all[j][0] + MINUTE < all[k][0] {
      assert all[j] == before[j] && all[k][0] == before[k][0];
    }
  }

  lemma ExtendedUpTo(g: seq<seq<Time>>, t: Time)
    requires AllUpTo(g, t)
    ensures AllUpTo(Extended(g, t), t)
  {
  }

  lemma ExtendedApart(g: seq<seq<Time>>, t: Time)
    requires Apart(g) && AllUpTo(g, t)
    ensures Apart(Extended(g, t)) && AllUpTo(Extended(g, t), t)
  {
    ExtendedUpTo(g, t);
    assert g != [] ==> WithinMinute(g[|g| - 1]);
    if g == [] || g[|g| - 1][0] < t - MINUTE {
      NewWindowApart(g, t);
    } else {
      assert g == g[..|g| - 1] + [g[|g| - 1]];
      LastWindowApart(g[..|g| - 1], g[|g| - 1], t);
    }
  }

  lemma {:induction false} GroupedApart(times: seq<Time>)
    requires W.Sorted(times)
    ensures Apart(Grouped(times)) && (times != [] ==> AllUpTo(Grouped(times), times[|times| - 1]))
    decreases |times|
  {
    if times != [] {
      var front, last := times[..|times| - 1], times[|times| - 1];
      GroupedApart(front);
      assert front != [] ==> front[|front| - 1] <= last;
      ExtendedApart(Grouped(front), last);
    }
  }

  lemma {:induction false} CountAtMost(times: seq<Time>, lo: Time, hi: Time)
    ensures W.CountIn(times, lo, hi) <= |times|
  {
    if times != [] { CountAtMost(times[..|times| - 1], lo, hi); }
  }

  /** A minute that reaches into a window reaches into none before the one before it. */
  lemma NoneBefore(g: seq<seq<Time>>, a: Time, k: nat, n: nat)
    requires Apart(g) && k < n - 1 && n < |g| && SeenOf(g[n], a) > 0
    ensures SeenOf(g[k], a) == 0
  {
    W.CountNone(LetIn(g[n]), a, a + MINUTE);
    W.CountNone(LetIn(g[k]), a, a + MINUTE);
    assert WithinMinute(g[k]) && WithinMinute(g[n]);
    assert g[k][0] + MINUTE < g[n - 1][0] && g[n - 1][0] + MINUTE < g[n][0];
  }

  lemma {:induction false} NoneSeen(g: seq<seq<Time>>, a: Time)
    requires forall k :: 0 <= k < |g| ==> SeenOf(g[k], a) == 0
    ensures Seen(g, a) == 0
    decreases |g|
  {
    if g != [] { NoneSeen(g[..|g| - 1], a); }
  }

  /** Window `k` and the next one let in more than 60 between them within the minute. */
  predicate TwoWindows(g: seq<seq<Time>>, a: Time, k: int) {
    && 0 <= k < |g| - 1
    && SeenOf(g[k], a) > 0 && SeenOf(g[k + 1], a) > 0 && SeenOf(g[k], a) + SeenOf(g[k + 1], a) > ADMISSIONS
  }

  /** Seen of all windows when the last is reached: that of the last two. */
  lemma SeenOfLastTwo(g: seq<seq<Time>>, a: Time)
    requires Apart(g) && |g| >= 2 && SeenOf(g[|g| - 1], a) > 0
    ensures Seen(g, a) == SeenOf(g[|g| - 2], a) + SeenOf(g[|g| - 1], a)
  {
    var older, n := g[..|g| - 2], |g| - 1;
    forall k | 0 <= k < |older| ensures SeenOf(older[k], a) == 0 { NoneBefore(g, a, k, n); }
    NoneSeen(older, a);
    assert g[..n] == older + [g[n - 1]];
    SeenMore(older, g[n - 1], a);
  }

  lemma {:induction false} SeenIff(g: seq<seq<Time>>, a: Time)
    requires Apart(g)
    ensures Seen(g, a) > ADMISSIONS <==> exists k :: TwoWindows(g, a, k)
    decreases |g|
  {
    if g != [] {
      var front, n := g[..|g| - 1], |g| - 1;
      CountAtMost(LetIn(g[n]), a, a + MINUTE);
      if SeenOf(g[n], a) == 0 {
        SeenIff(front, a);
        forall k ensures TwoWindows(g, a, k) <==> TwoWindows(front, a, k) {}
      } else if n > 0 {
        SeenOfLastTwo(g, a);
        CountAtMost(LetIn(g[n - 1]), a, a + MINUTE);
        forall k | TwoWindows(g, a, k) ensures k == n - 1 {
          if k < n - 1 { NoneBefore(g, a, k, n); }
        }
        assert TwoWindows(g, a, n - 1) <==> Seen(g, a) > ADMISSIONS;
      } else {
        assert Seen(g[..0], a) == 0;
      }
    }
  }

  /** A closed minute sees more than the 60 admissions documented exactly when it reaches into
      two windows that follow each other, and they let in more than 60 in it between them. */
  lemma MoreThanSixtyIff(times: seq<Time>, a: Time)
    requires W.Sorted(times)
    ensures W.CountIn(Knocked(times).admitted, a, a + MINUTE) > 60
      <==> exists k :: TwoWindows(Grouped(times), a, k)
  {
    DoorIsGrouped(times, a);
    GroupedApart(times);
    SeenIff(Grouped(times), a);
  }

  // --- and 119 is reached -----------------------------------------------------------------------

  function Repeat(t: Time, n: nat): seq<Time> { seq(n, _ => t) }

  /** Attempts at one time go on being admitted while the window has room. */
  lemma {:induction false} KnockedRepeatedly(before: seq<Time>, d: Door, t: Time, n: nat, row: Admission)
    requires d == Knocked(before) && row == Admitted(d.row, t) && row.started >= t - MINUTE
    requires n >= 1 && row.count + n - 1 <= ADMISSIONS
    ensures Knocked(before + Repeat(t, n))
         == Door(Some(Admission(row.started, row.count + n - 1)), d.admitted + Repeat(t, n))
  {
    OneMoreKnock(before + Repeat(t, n - 1), t);
    assert before + Repeat(t, n) == before + Repeat(t, n - 1) + [t];
    if n == 1 {
      assert before + Repeat(t, 0) == before;
      assert d.admitted + Repeat(t, 1) == d.admitted + [t];
    } else {
      KnockedRepeatedly(before, d, t, n - 1, row);
      KnockAgain(Door(Some(Admission(row.started, row.count + n - 2)), d.admitted + Repeat(t, n - 1)), t);
      assert d.admitted + Repeat(t, n - 1) + [t] == d.admitted + Repeat(t, n);
    }
  }

  lemma KnockAgain(d: Door, t: Time)
    requires d.row.Some? && d.row.value.started >= t - MINUTE && d.row.value.count < ADMISSIONS
    ensures Knock(d, t) == Door(Some(Admission(d.row.value.started, d.row.value.count + 1)), d.admitted + [t])
  {
  }

  lemma OneMoreKnock(before: seq<Time>, t: Time)
    ensures Knocked(before + [t]) == Knock(Knocked(before), t)
  {
    assert (before + [t])[..|before|] == before;
  }

  /** One attempt, 59 more a minute later, and 60 one second after that. */
  function Rush(): seq<Time> { Repeat(0.0, 1) + Repeat(60.0, 59) + Repeat(61.0, 60) }

  lemma RushIsAdmitted()
    ensures Knocked(Rush()).admitted == Rush()
  {
    var first, second := Repeat(0.0, 1), Repeat(60.0, 59);
    assert Knocked([]) == Door(None, []) && [] + first == first;
    KnockedRepeatedly([], Door(None, []), 0.0, 1, Admission(0.0, 1));
    KnockedRepeatedly(first, Knocked(first), 60.0, 59, Admission(0.0, 2));
    KnockedRepeatedly(first + second, Knocked(first + second), 61.0, 60, Admission(61.0, 1));
  }

  /** The bound is met: all 120 attempts of the rush are admitted, and 119 of them fall into
      one closed minute. */
  lemma AdmissionBoundIsMet()
    ensures W.Sorted(Rush()) && W.CountIn(Knocked(Rush()).admitted, 60.0, 60.0 + MINUTE) == 119
  {
    var first, second, third := Repeat(0.0, 1), Repeat(60.0, 59), Repeat(61.0, 60);
    RushIsAdmitted();
    W.CountSplits(first + second, third, 60.0, 120.0);
    W.CountSplits(first, second, 60.0, 120.0);
    W.CountAll(second, 60.0, 120.0);
    W.CountAll(third, 60.0, 120.0);
    W.CountNone(first, 60.0, 120.0);
  }
}
