/** Sliding-window counters: an ordered table of deques, least recently recorded key first,
    and the plain history it has to agree with. */
module Windows {

  type Key = string
  type Time = real

  /** `order` lists the keys of `windows`; each deque holds its oldest time at the left. */
  datatype Table = Table(order: seq<Key>, windows: map<Key, seq<Time>>)

  const EMPTY := Table([], map[])

  function Deque(w: Table, key: Key): seq<Time> { if key in w.windows then w.windows[key] else [] }

  /** Expiry pops from the left only; a time exactly at the cutoff stays. */
  function Fresh(deque: seq<Time>, cutoff: Time): seq<Time> {
    if deque != [] && deque[0] < cutoff then Fresh(deque[1..], cutoff) else deque
  }

  function Remove(order: seq<Key>, key: Key): seq<Key> {
    if order == [] then []
    else if order[0] == key then Remove(order[1..], key)
    else [order[0]] + Remove(order[1..], key)
  }

  function Expire(w: Table, key: Key, cutoff: Time): Table {
    if key !in w.windows then w
    else if Fresh(w.windows[key], cutoff) == [] then Table(Remove(w.order, key), w.windows - {key})
    else w.(windows := w.windows[key := Fresh(w.windows[key], cutoff)])
  }

  function Touch(w: Table, key: Key, ts: Time): Table {
    Table(Remove(w.order, key) + [key], w.windows[key := Deque(w, key) + [ts]])
  }

  function Excess(w: Table, maxKeys: nat): nat { if |w.order| > maxKeys then |w.order| - maxKeys else 0 }

  function Evict(w: Table, n: nat): Table
    requires n <= |w.order|
  {
    Table(w.order[n..], w.windows - (set k | k in w.order[..n]))
  }

  function Touched(w: Table, key: Key, ts: Time, width: Time): Table {
    Touch(Expire(w, key, ts - width), key, ts)
  }

  function Recorded(w: Table, key: Key, ts: Time, width: Time, maxKeys: nat): Table {
    var touched := Touched(w, key, ts, width);
    Evict(touched, Excess(touched, maxKeys))
  }

  function ExpireAll(w: Table, keys: seq<Key>, cutoff: Time): Table {
    if keys == [] then w
    else Expire(ExpireAll(w, keys[..|keys| - 1], cutoff), keys[|keys| - 1], cutoff)
  }

  // --- the counters in place -------------------------------------------------------------

  class SlidingWindowCounters {
    const width: Time
    const maxKeys: nat
    var order: seq<Key>
    var windows: map<Key, seq<Time>>

    constructor (width: Time, maxKeys: nat)
      ensures this.width == width && this.maxKeys == maxKeys && State() == EMPTY
    {
      this.width, this.maxKeys := width, maxKeys;
      order, windows := [], map[];
    }

    function State(): Table
      reads this
    {
      Table(order, windows)
    }

    method Record(key: Key, ts: Time)
      modifies this
      ensures State() == Recorded(old(State()), key, ts, width, maxKeys)
    {
      if key in windows {
        var _ := DropExpired(key, ts);
      }
      if key !in windows {
        windows := windows[key := []];
        order := order + [key];
      }
      ghost var before := Expire(old(State()), key, ts - width);
      RemoveAppended(before.order, key);
      order := Remove(order, key) + [key];
      windows := windows[key := windows[key] + [ts]];
      assert State() == Touch(before, key, ts);
      EvictOverLimit();
    }

    method CountInWindow(key: Key, now: Time) returns (n: nat)
      modifies this
      ensures State() == Expire(old(State()), key, now - width)
      ensures n == |Fresh(old(Deque(State(), key)), now - width)|
    {
      if key !in windows { return 0; }
      var _ := DropExpired(key, now);
      n := if key in windows then |windows[key]| else 0;
    }

    /** Every key held is expired in turn; the result is how many times went. */
    method Prune(now: Time) returns (dropped: nat)
      requires forall i, j :: 0 <= i < j < |order| ==> order[i] != order[j]
      modifies this
      ensures State() == ExpireAll(old(State()), old(order), now - width)
      ensures dropped + Total(State(), old(order)) == Total(old(State()), old(order))
    {
      dropped := 0;
      var keys := order;
      ghost var before := State();
      for i := 0 to |keys|
        invariant State() == ExpireAll(before, keys[..i], now - width)
        invariant dropped + Total(State(), keys[..i]) == Total(before, keys[..i])
        invariant forall j :: i <= j < |keys| ==> Deque(State(), keys[j]) == Deque(before, keys[j])
      {
        ghost var was := State();
        if keys[i] in windows {
          var n := DropExpired(keys[i], now);
          dropped := dropped + n;
        }
        assert keys[..i + 1][..i] == keys[..i];
        TotalFrame(was, State(), keys[..i]);
      }
      assert keys[..|keys|] == keys;
    }

    method DropExpired(key: Key, now: Time) returns (dropped: nat)
      requires key in windows
      modifies this
      ensures State() == Expire(old(State()), key, now - width)
      ensures dropped == |old(windows[key])| - |Fresh(old(windows[key]), now - width)|
    {
      dropped := 0;
      var cutoff := now - width;
      var window := windows[key];
      while window != [] && window[0] < cutoff
        invariant Fresh(window, cutoff) == Fresh(windows[key], cutoff)
        invariant dropped + |window| == |windows[key]|
      {
        window := window[1..];
        dropped := dropped + 1;
      }
      if window == [] {
        windows := windows - {key};
        order := Remove(order, key);
      } else {
        windows := windows[key := window];
      }
    }

    method EvictOverLimit()
      modifies this
      ensures State() == Evict(old(State()), Excess(old(State()), maxKeys))
    {
      ghost var n := 0;
      while |order| > maxKeys
        invariant n <= Excess(old(State()), maxKeys)
        invariant State() == Evict(old(State()), n)
        decreases |order|
      {
        assert old(order)[..n + 1] == old(order)[..n] + [order[0]];
        windows := windows - {order[0]};
        order := order[1..];
        n := n + 1;
      }
    }
  }

  /** How many times a table holds for the keys listed. */
  function Total(w: Table, keys: seq<Key>): nat {
    if keys == [] then 0 else Total(w, keys[..|keys| - 1]) + |Deque(w, keys[|keys| - 1])|
  }

  lemma {:induction false} TotalFrame(w: Table, w': Table, keys: seq<Key>)
    requires forall i :: 0 <= i < |keys| ==> Deque(w, keys[i]) == Deque(w', keys[i])
    ensures Total(w, keys) == Total(w', keys)
  {
    if keys != [] { TotalFrame(w, w', keys[..|keys| - 1]); }
  }

  lemma {:induction false} RemoveAppended(order: seq<Key>, key: Key)
    ensures Remove(order + [key], key) == Remove(order, key)
  {
    if order == [] {
      assert [key][1..] == [];
    } else {
      RemoveAppended(order[1..], key);
      assert (order + [key])[1..] == order[1..] + [key];
    }
  }

  // --- the history ---------------------------------------------------------------------------

  /** Everything ever recorded for one key, how much of it had been recorded when the key was
      last evicted, the last time used with the key, and when it was last recorded. */
  datatype Track = Track(times: seq<Time>, evicted: nat, clock: Time, at: nat)

  datatype Log = Log(w: Table, tracks: map<Key, Track>, n: nat)

  datatype Step = Record(key: Key, ts: Time) | Count(key: Key, now: Time) | Prune(now: Time)

  /** Times used with one key never decrease. */
  predicate InOrder(log: Log, a: Step) {
    match a
    case Record(key, ts) => key in log.tracks ==> log.tracks[key].clock <= ts
    case Count(key, now) => key in log.tracks ==> log.tracks[key].clock <= now
    case Prune(now) => forall k | k in log.w.windows && k in log.tracks :: log.tracks[k].clock <= now
  }

  function TrackOf(log: Log, key: Key, ts: Time): Track {
    if key in log.tracks
    then log.tracks[key].(times := log.tracks[key].times + [ts], clock := ts, at := log.n)
    else Track([ts], 0, ts, log.n)
  }

  function Lost(t: Track, before: Table, after: Table, key: Key): Track {
    if key in before.windows && key !in after.windows then t.(evicted := |t.times|) else t
  }

  function At(t: Track, now: Time): Track { t.(clock := now) }

  function Next(log: Log, width: Time, maxKeys: nat, a: Step): Log {
    match a
    case Record(key, ts) =>
      var touched, w := Touched(log.w, key, ts, width), Recorded(log.w, key, ts, width, maxKeys);
      Log(w, map k | k in log.tracks.Keys + {key} ::
        Lost(if k == key then TrackOf(log, key, ts) else log.tracks[k], touched, w, k), log.n + 1)
    case Count(key, now) =>
      Log(Expire(log.w, key, now - width),
          if key in log.tracks then log.tracks[key := At(log.tracks[key], now)] else log.tracks, log.n)
    case Prune(now) =>
      Log(ExpireAll(log.w, log.w.order, now - width),
          map k | k in log.tracks :: if k in log.w.windows then At(log.tracks[k], now) else log.tracks[k], log.n)
  }

  /** The recorded times in [lo, hi]. */
  function CountIn(times: seq<Time>, lo: Time, hi: Time): nat {
    if times == [] then 0
    else CountIn(times[..|times| - 1], lo, hi) + (if lo <= times[|times| - 1] <= hi then 1 else 0)
  }

  predicate Sorted(times: seq<Time>) {
    forall i, j :: 0 <= i <= j < |times| ==> times[i] <= times[j]
  }

  /** A deque is the end of its key's history; whatever else was recorded since the last
      eviction is too old. */
  predicate DequeOk(t: Track, deque: seq<Time>, width: Time) {
    && Sorted(t.times)
    && (forall i :: 0 <= i < |t.times| ==> t.times[i] <= t.clock)
    && t.evicted + |deque| <= |t.times|
    && deque == t.times[|t.times| - |deque|..]
    && (forall i :: t.evicted <= i < |t.times| - |deque| ==> t.times[i] < t.clock - width)
  }

  predicate KeyOk(log: Log, width: Time, key: Key) {
    && (key in log.w.windows ==> key in log.tracks && log.w.windows[key] != [])
    && (key in log.tracks ==> DequeOk(log.tracks[key], Deque(log.w, key), width) && log.tracks[key].at < log.n)
  }

  ghost predicate Shape(w: Table) {
    && (forall k :: k in w.order <==> k in w.windows)
    && (forall k | k in w.windows :: w.windows[k] != [])
  }

  /** The keys stand in the order they were last recorded. */
  predicate Ordered(order: seq<Key>, tracks: map<Key, Track>) {
    order == [] ||
    (order[0] in tracks && Ordered(order[1..], tracks)
     && forall k | k in order[1..] :: k in tracks && tracks[order[0]].at < tracks[k].at)
  }

  ghost predicate TableOk(w: Table, tracks: map<Key, Track>, maxKeys: nat) {
    Shape(w) && Ordered(w.order, tracks) && |w.order| <= maxKeys
  }

  ghost predicate Inv(log: Log, width: Time, maxKeys: nat) {
    (forall key :: KeyOk(log, width, key)) && TableOk(log.w, log.tracks, maxKeys)
  }

  // --- what each table operation does to one deque --------------------------------------------

  /** Expiry keeps exactly the end that is not too old. */
  lemma {:induction false} FreshKeepsTheEnd(deque: seq<Time>, cutoff: Time)
    ensures var kept := Fresh(deque, cutoff);
      && |kept| <= |deque|
      && kept == deque[|deque| - |kept|..]
      && (forall i :: 0 <= i < |deque| - |kept| ==> deque[i] < cutoff)
      && (kept != [] ==> kept[0] >= cutoff)
    decreases |deque|
  {
    if deque != [] && deque[0] < cutoff {
      FreshKeepsTheEnd(deque[1..], cutoff);
    }
  }

  lemma {:induction false} RemoveDrops(order: seq<Key>, key: Key)
    ensures |Remove(order, key)| <= |order| && (key in order ==> |Remove(order, key)| < |order|)
    ensures forall k :: k in Remove(order, key) <==> k in order && k != key
  {
    if order != [] { RemoveDrops(order[1..], key); }
  }

  lemma {:induction false} RemoveKeepsOrder(order: seq<Key>, tracks: map<Key, Track>, key: Key)
    requires Ordered(order, tracks)
    ensures Ordered(Remove(order, key), tracks)
  {
    RemoveDrops(order, key);
    if order != [] {
      RemoveKeepsOrder(order[1..], tracks, key);
      RemoveDrops(order[1..], key);
      forall k | k in Remove(order[1..], key) ensures tracks[order[0]].at < tracks[k].at {
        assert k in order[1..];
      }
    }
  }

  lemma ExpireTable(w: Table, tracks: map<Key, Track>, key: Key, cutoff: Time)
    requires Shape(w) && Ordered(w.order, tracks)
    ensures var w' := Expire(w, key, cutoff); Shape(w') && Ordered(w'.order, tracks) && |w'.order| <= |w.order|
  {
    RemoveDrops(w.order, key);
    RemoveKeepsOrder(w.order, tracks, key);
  }

  /** An empty deque is no deque. */
  predicate NoneEmpty(w: Table, k: Key) { k in w.windows ==> w.windows[k] != [] }

  lemma ExpireKey(w: Table, key: Key, cutoff: Time, k: Key)
    requires NoneEmpty(w, k)
    ensures var w' := Expire(w, key, cutoff);
      NoneEmpty(w', k) && Deque(w', k) == if k == key then Fresh(Deque(w, k), cutoff) else Deque(w, k)
  {
  }

  lemma {:induction false} ExpireAllTable(w: Table, tracks: map<Key, Track>, keys: seq<Key>, cutoff: Time)
    requires Shape(w) && Ordered(w.order, tracks)
    ensures var w' := ExpireAll(w, keys, cutoff); Shape(w') && Ordered(w'.order, tracks) && |w'.order| <= |w.order|
    decreases |keys|
  {
    if keys != [] {
      ExpireAllTable(w, tracks, keys[..|keys| - 1], cutoff);
      ExpireTable(ExpireAll(w, keys[..|keys| - 1], cutoff), tracks, keys[|keys| - 1], cutoff);
    }
  }

  lemma {:induction false} ExpireAllKey(w: Table, keys: seq<Key>, cutoff: Time, k: Key)
    requires NoneEmpty(w, k)
    ensures var w' := ExpireAll(w, keys, cutoff);
      NoneEmpty(w', k) && Deque(w', k) == if k in keys then Fresh(Deque(w, k), cutoff) else Deque(w, k)
    decreases |keys|
  {
    if keys != [] {
      var rest, last := keys[..|keys| - 1], keys[|keys| - 1];
      ExpireAllKey(w, rest, cutoff, k);
      ExpireKey(ExpireAll(w, rest, cutoff), last, cutoff, k);
      FreshKeepsTheEnd(Deque(w, k), cutoff);
      assert keys == rest + [last];
    }
  }

  /** Recording a key makes it the newest and leaves the others as they were. */
  ghost predicate Newest(tracks: map<Key, Track>, tracks': map<Key, Track>, key: Key) {
    && key in tracks'
    && (forall k | k in tracks && k != key :: k in tracks' && tracks'[k].at == tracks[k].at)
    && (forall k | k in tracks && k != key :: tracks[k].at < tracks'[key].at)
  }

  lemma {:induction false} AppendKeepsOrder(
      order: seq<Key>, tracks: map<Key, Track>, tracks': map<Key, Track>, key: Key)
    requires Ordered(order, tracks) && key !in order && Newest(tracks, tracks', key)
    ensures Ordered(order + [key], tracks')
  {
    if order == [] {
      assert [key][1..] == [];
    } else {
      AppendKeepsOrder(order[1..], tracks, tracks', key);
      assert (order + [key])[1..] == order[1..] + [key];
    }
  }

  lemma TouchTable(w: Table, tracks: map<Key, Track>, tracks': map<Key, Track>, key: Key, ts: Time)
    requires Shape(w) && Ordered(w.order, tracks) && Newest(tracks, tracks', key)
    ensures var w' := Touch(w, key, ts); Shape(w') && Ordered(w'.order, tracks') && |w'.order| <= |w.order| + 1
  {
    RemoveDrops(w.order, key);
    RemoveKeepsOrder(w.order, tracks, key);
    AppendKeepsOrder(Remove(w.order, key), tracks, tracks', key);
  }

  lemma TouchKey(w: Table, key: Key, ts: Time, k: Key)
    requires NoneEmpty(w, k)
    ensures var w' := Touch(w, key, ts);
      NoneEmpty(w', k) && Deque(w', k) == if k == key then Deque(w, k) + [ts] else Deque(w, k)
  {
  }

  /** What stands earlier was recorded earlier. */
  lemma {:induction false} OrderedSplits(order: seq<Key>, tracks: map<Key, Track>, n: nat)
    requires Ordered(order, tracks) && n <= |order|
    ensures Ordered(order[n..], tracks)
    ensures forall k, kept | k in order[..n] && kept in order[n..] ::
      k in tracks && kept in tracks && tracks[k].at < tracks[kept].at
  {
    if n > 0 {
      OrderedSplits(order[1..], tracks, n - 1);
      assert order[1..][n - 1..] == order[n..];
      assert forall k | k in order[..n] :: k == order[0] || k in order[1..][..n - 1];
      assert forall k | k in order[n..] :: k in order[1..];
    }
  }

  /** Evicting takes the least recently recorded keys. */
  lemma EvictTable(w: Table, tracks: map<Key, Track>, n: nat)
    requires Shape(w) && Ordered(w.order, tracks) && n <= |w.order|
    ensures var w' := Evict(w, n); Shape(w') && Ordered(w'.order, tracks) && |w'.order| == |w.order| - n
  {
    OrderedSplits(w.order, tracks, n);
    var w', front := Evict(w, n), w.order[..n];
    assert w.order == front + w'.order;
    forall k ensures k in w'.order <==> k in w'.windows {
      assert k in w.order <==> k in front || k in w'.order;
      assert !(k in front && k in w'.order);
    }
  }

  lemma EvictKey(w: Table, n: nat, k: Key)
    requires NoneEmpty(w, k) && n <= |w.order|
    ensures var w' := Evict(w, n);
      NoneEmpty(w', k) && Deque(w', k) == if k in w.order[..n] then [] else Deque(w, k)
  {
  }

  // --- one step keeps the history ---------------------------------------------------------------

  lemma ExpireKeepsDeque(t: Track, deque: seq<Time>, width: Time, now: Time)
    requires DequeOk(t, deque, width) && t.clock <= now
    ensures DequeOk(At(t, now), Fresh(deque, now - width), width)
  {
    FreshKeepsTheEnd(deque, now - width);
  }

  lemma AppendKeepsDeque(t: Track, deque: seq<Time>, width: Time, ts: Time, at: nat)
    requires DequeOk(t, deque, width) && t.clock <= ts
    ensures DequeOk(t.(times := t.times + [ts], clock := ts, at := at), Fresh(deque, ts - width) + [ts], width)
  {
    ExpireKeepsDeque(t, deque, width, ts);
  }

  function Retraced(log: Log, key: Key, ts: Time): map<Key, Track> { log.tracks[key := TrackOf(log, key, ts)] }

  lemma RecordIsNewest(log: Log, width: Time, maxKeys: nat, key: Key, ts: Time)
    requires Inv(log, width, maxKeys)
    ensures Newest(log.tracks, Retraced(log, key, ts), key)
  {
    forall k | k in log.tracks ensures log.tracks[k].at < log.n {
      assert KeyOk(log, width, k);
    }
  }

  /** The two tables of a record, before and after eviction. */
  lemma RecordTables(
      w: Table, tracks: map<Key, Track>, tracks': map<Key, Track>, width: Time, maxKeys: nat, key: Key, ts: Time)
    requires TableOk(w, tracks, maxKeys) && Newest(tracks, tracks', key)
    ensures var touched := Touched(w, key, ts, width); Shape(touched) && Ordered(touched.order, tracks')
    ensures TableOk(Recorded(w, key, ts, width, maxKeys), tracks', maxKeys)
  {
    ExpireTable(w, tracks, key, ts - width);
    TouchTable(Expire(w, key, ts - width), tracks, tracks', key, ts);
    var touched := Touched(w, key, ts, width);
    EvictTable(touched, tracks', Excess(touched, maxKeys));
  }

  lemma RecordsOneKey(w: Table, width: Time, maxKeys: nat, key: Key, ts: Time, k: Key)
    requires NoneEmpty(w, k)
    ensures RecordsKey(w, Touched(w, key, ts, width), Recorded(w, key, ts, width, maxKeys), width, key, ts, k)
  {
    ExpireKey(w, key, ts - width, k);
    TouchKey(Expire(w, key, ts - width), key, ts, k);
    var touched := Touched(w, key, ts, width);
    EvictKey(touched, Excess(touched, maxKeys), k);
  }

  lemma TouchedKey(log: Log, width: Time, key: Key, ts: Time, k: Key, deque: seq<Time>)
    requires KeyOk(log, width, k) && InOrder(log, Record(key, ts)) && (k == key || k in log.tracks)
    requires deque == if k == key then Fresh(Deque(log.w, k), ts - width) + [ts] else Deque(log.w, k)
    ensures DequeOk(Retraced(log, key, ts)[k], deque, width)
  {
    if k == key && k in log.tracks {
      AppendKeepsDeque(log.tracks[k], Deque(log.w, k), width, ts, log.n);
    }
  }

  lemma RecordedTrack(log: Log, width: Time, maxKeys: nat, key: Key, ts: Time, k: Key)
    ensures var log' := Next(log, width, maxKeys, Record(key, ts));
      && (k in log'.tracks <==> k in Retraced(log, key, ts))
      && (k in log'.tracks ==>
            log'.tracks[k] == Lost(Retraced(log, key, ts)[k], Touched(log.w, key, ts, width), log'.w, k))
  {
  }

  lemma LostKeepsDeque(t: Track, before: Table, after: Table, width: Time, k: Key)
    requires DequeOk(t, Deque(before, k), width) && NoneEmpty(before, k) && NoneEmpty(after, k)
    requires Deque(after, k) == Deque(before, k) || Deque(after, k) == []
    ensures DequeOk(Lost(t, before, after, k), Deque(after, k), width)
  {
  }

  /** What recording does to one deque. */
  predicate RecordsKey(w: Table, touched: Table, w': Table, width: Time, key: Key, ts: Time, k: Key) {
    && NoneEmpty(touched, k) && NoneEmpty(w', k)
    && Deque(touched, k) == (if k == key then Fresh(Deque(w, k), ts - width) + [ts] else Deque(w, k))
    && (Deque(w', k) == Deque(touched, k) || Deque(w', k) == [])
  }

  lemma RecordKey(log: Log, width: Time, maxKeys: nat, key: Key, ts: Time, k: Key)
    requires KeyOk(log, width, k) && InOrder(log, Record(key, ts))
    requires RecordsKey(
      log.w, Touched(log.w, key, ts, width), Recorded(log.w, key, ts, width, maxKeys), width, key, ts, k)
    ensures KeyOk(Next(log, width, maxKeys, Record(key, ts)), width, k)
  {
    RecordedTrack(log, width, maxKeys, key, ts, k);
    if k == key || k in log.tracks {
      var touched := Touched(log.w, key, ts, width);
      TouchedKey(log, width, key, ts, k, Deque(touched, k));
      LostKeepsDeque(Retraced(log, key, ts)[k], touched, Recorded(log.w, key, ts, width, maxKeys), width, k);
    }
  }

  lemma RecordKeepsKey(log: Log, width: Time, maxKeys: nat, key: Key, ts: Time, k: Key)
    requires KeyOk(log, width, k) && InOrder(log, Record(key, ts))
    ensures KeyOk(Next(log, width, maxKeys, Record(key, ts)), width, k)
  {
    RecordsOneKey(log.w, width, maxKeys, key, ts, k);
    RecordKey(log, width, maxKeys, key, ts, k);
  }

  lemma RecordKeepsTable(log: Log, width: Time, maxKeys: nat, key: Key, ts: Time)
    requires TableOk(log.w, log.tracks, maxKeys) && Newest(log.tracks, Retraced(log, key, ts), key)
    ensures var log' := Next(log, width, maxKeys, Record(key, ts)); TableOk(log'.w, log'.tracks, maxKeys)
  {
    var log' := Next(log, width, maxKeys, Record(key, ts));
    RecordTables(log.w, log.tracks, Retraced(log, key, ts), width, maxKeys, key, ts);
    forall k | k in Retraced(log, key, ts)
      ensures k in log'.tracks && log'.tracks[k].at == Retraced(log, key, ts)[k].at
    {
      RecordedTrack(log, width, maxKeys, key, ts, k);
    }
    SameOrder(log'.w.order, Retraced(log, key, ts), log'.tracks);
  }

  lemma RecordKeeps(log: Log, width: Time, maxKeys: nat, key: Key, ts: Time)
    requires Inv(log, width, maxKeys) && InOrder(log, Record(key, ts))
    ensures Inv(Next(log, width, maxKeys, Record(key, ts)), width, maxKeys)
  {
    RecordIsNewest(log, width, maxKeys, key, ts);
    RecordKeepsTable(log, width, maxKeys, key, ts);
    forall k ensures KeyOk(Next(log, width, maxKeys, Record(key, ts)), width, k) {
      assert KeyOk(log, width, k);
      RecordKeepsKey(log, width, maxKeys, key, ts, k);
    }
  }

  lemma {:induction false} SameOrder(order: seq<Key>, tracks: map<Key, Track>, tracks': map<Key, Track>)
    requires Ordered(order, tracks)
    requires forall k | k in tracks :: k in tracks' && tracks'[k].at == tracks[k].at
    ensures Ordered(order, tracks')
  {
    if order != [] { SameOrder(order[1..], tracks, tracks'); }
  }

  lemma CountKey(log: Log, width: Time, maxKeys: nat, key: Key, now: Time, k: Key)
    requires KeyOk(log, width, k) && InOrder(log, Count(key, now))
    ensures KeyOk(Next(log, width, maxKeys, Count(key, now)), width, k)
  {
    ExpireKey(log.w, key, now - width, k);
    if k == key && k in log.tracks { ExpireKeepsDeque(log.tracks[k], Deque(log.w, k), width, now); }
  }

  lemma CountKeepsTable(log: Log, width: Time, maxKeys: nat, key: Key, now: Time)
    requires TableOk(log.w, log.tracks, maxKeys)
    ensures var log' := Next(log, width, maxKeys, Count(key, now)); TableOk(log'.w, log'.tracks, maxKeys)
  {
    var log' := Next(log, width, maxKeys, Count(key, now));
    ExpireTable(log.w, log.tracks, key, now - width);
    SameOrder(log'.w.order, log.tracks, log'.tracks);
  }

  lemma CountKeeps(log: Log, width: Time, maxKeys: nat, key: Key, now: Time)
    requires Inv(log, width, maxKeys) && InOrder(log, Count(key, now))
    ensures Inv(Next(log, width, maxKeys, Count(key, now)), width, maxKeys)
  {
    CountKeepsTable(log, width, maxKeys, key, now);
    forall k ensures KeyOk(Next(log, width, maxKeys, Count(key, now)), width, k) {
      assert KeyOk(log, width, k);
      CountKey(log, width, maxKeys, key, now, k);
    }
  }

  lemma PruneKeepsTable(log: Log, width: Time, maxKeys: nat, now: Time)
    requires TableOk(log.w, log.tracks, maxKeys)
    ensures var log' := Next(log, width, maxKeys, Prune(now)); TableOk(log'.w, log'.tracks, maxKeys)
  {
    var log' := Next(log, width, maxKeys, Prune(now));
    ExpireAllTable(log.w, log.tracks, log.w.order, now - width);
    SameOrder(log'.w.order, log.tracks, log'.tracks);
  }

  lemma PruneKey(log: Log, width: Time, maxKeys: nat, now: Time, k: Key)
    requires KeyOk(log, width, k) && InOrder(log, Prune(now)) && (k in log.w.order <==> k in log.w.windows)
    ensures KeyOk(Next(log, width, maxKeys, Prune(now)), width, k)
  {
    ExpireAllKey(log.w, log.w.order, now - width, k);
    if k in log.w.windows { ExpireKeepsDeque(log.tracks[k], Deque(log.w, k), width, now); }
  }

  lemma PruneKeeps(log: Log, width: Time, maxKeys: nat, now: Time)
    requires Inv(log, width, maxKeys) && InOrder(log, Prune(now))
    ensures Inv(Next(log, width, maxKeys, Prune(now)), width, maxKeys)
  {
    PruneKeepsTable(log, width, maxKeys, now);
    forall k ensures KeyOk(Next(log, width, maxKeys, Prune(now)), width, k) {
      assert KeyOk(log, width, k);
      PruneKey(log, width, maxKeys, now, k);
    }
  }

  // --- whole runs ----------------------------------------------------------------------------------

  const START := Log(EMPTY, map[], 0)

  function Run(width: Time, maxKeys: nat, steps: seq<Step>): Log
    decreases |steps|
  {
    if steps == [] then START
    else Next(Run(width, maxKeys, steps[..|steps| - 1]), width, maxKeys, steps[|steps| - 1])
  }

  predicate Orderly(width: Time, maxKeys: nat, steps: seq<Step>)
    decreases |steps|
  {
    steps == [] ||
    (Orderly(width, maxKeys, steps[..|steps| - 1])
     && InOrder(Run(width, maxKeys, steps[..|steps| - 1]), steps[|steps| - 1]))
  }

  lemma {:induction false} Reachable(width: Time, maxKeys: nat, steps: seq<Step>)
    requires Orderly(width, maxKeys, steps)
    ensures Inv(Run(width, maxKeys, steps), width, maxKeys)
    decreases |steps|
  {
    if steps != [] {
      Reachable(width, maxKeys, steps[..|steps| - 1]);
      StepKeeps(Run(width, maxKeys, steps[..|steps| - 1]), width, maxKeys, steps[|steps| - 1]);
    }
  }

  lemma StepKeeps(log: Log, width: Time, maxKeys: nat, a: Step)
    requires Inv(log, width, maxKeys) && InOrder(log, a)
    ensures Inv(Next(log, width, maxKeys, a), width, maxKeys)
  {
    match a
    case Record(key, ts) => RecordKeeps(log, width, maxKeys, key, ts);
    case Count(key, now) => CountKeeps(log, width, maxKeys, key, now);
    case Prune(now) => PruneKeeps(log, width, maxKeys, now);
  }

  // --- counting ------------------------------------------------------------------------------------

  lemma {:induction false} CountSplits(a: seq<Time>, b: seq<Time>, lo: Time, hi: Time)
    ensures CountIn(a + b, lo, hi) == CountIn(a, lo, hi) + CountIn(b, lo, hi)
    decreases |b|
  {
    if b == [] {
      assert a + b == a;
    } else {
      CountSplits(a, b[..|b| - 1], lo, hi);
      assert (a + b)[..|a + b| - 1] == a + b[..|b| - 1];
    }
  }

  lemma {:induction false} CountAll(times: seq<Time>, lo: Time, hi: Time)
    requires forall i :: 0 <= i < |times| ==> lo <= times[i] <= hi
    ensures CountIn(times, lo, hi) == |times|
  {
    if times != [] { CountAll(times[..|times| - 1], lo, hi); }
  }

  /** Nothing is counted just when nothing is in range. */
  lemma {:induction false} CountNone(times: seq<Time>, lo: Time, hi: Time)
    ensures CountIn(times, lo, hi) == 0 <==> forall i :: 0 <= i < |times| ==> !(lo <= times[i] <= hi)
  {
    if times != [] { CountNone(times[..|times| - 1], lo, hi); }
  }

  /** A history cut in two: what is counted of it is all of the end, and what of the
      beginning is in range. */
  lemma EndIsCounted(older: seq<Time>, deque: seq<Time>, evicted: nat, lo: Time, hi: Time)
    requires forall i :: 0 <= i < |older| ==> older[i] <= hi
    requires evicted <= |older| && forall i :: evicted <= i < |older| ==> older[i] < lo
    requires forall i :: 0 <= i < |deque| ==> lo <= deque[i] <= hi
    ensures |deque| <= CountIn(older + deque, lo, hi)
    ensures |deque| == CountIn(older + deque, lo, hi) <==> forall i :: 0 <= i < evicted ==> older[i] < lo
  {
    CountSplits(older, deque, lo, hi);
    CountAll(deque, lo, hi);
    CountNone(older, lo, hi);
  }

  /** One deque against its history. */
  lemma DequeAgrees(t: Track, deque: seq<Time>, width: Time)
    requires DequeOk(t, deque, width) && forall i :: 0 <= i < |deque| ==> deque[i] >= t.clock - width
    ensures |deque| <= CountIn(t.times, t.clock - width, t.clock)
    ensures |deque| == CountIn(t.times, t.clock - width, t.clock)
      <==> forall i :: 0 <= i < t.evicted ==> t.times[i] < t.clock - width
  {
    var cut := |t.times| - |deque|;
    var older := t.times[..cut];
    assert t.times == older + deque;
    assert forall i :: 0 <= i < cut ==> older[i] == t.times[i];
    EndIsCounted(older, deque, t.evicted, t.clock - width, t.clock);
  }

  /** After expiry everything held is recent. */
  lemma FreshIsRecent(t: Track, deque: seq<Time>, kept: seq<Time>, width: Time, now: Time)
    requires DequeOk(t, deque, width) && kept == Fresh(deque, now - width)
    ensures forall i :: 0 <= i < |kept| ==> kept[i] >= now - width
  {
    FreshKeepsTheEnd(deque, now - width);
    var at := |t.times| - |kept|;
    forall i | 0 <= i < |kept| ensures kept[i] >= now - width {
      assert kept[0] == t.times[at] && kept[i] == t.times[at + i];
    }
  }

  /** No time from `lo` on was evicted. */
  predicate NothingEvictedFrom(t: Track, lo: Time) {
    forall i :: 0 <= i < t.evicted && i < |t.times| ==> t.times[i] < lo
  }

  /** The counter never exceeds the number of recorded times in [now - width, now], and it
      is exactly that number just when the key was not evicted since the oldest of them. */
  lemma CountAgrees(log: Log, width: Time, key: Key, now: Time)
    requires KeyOk(log, width, key) && key in log.tracks && log.tracks[key].clock <= now
    ensures var t := log.tracks[key];
      var n := |Fresh(Deque(log.w, key), now - width)|;
      && t.evicted <= |t.times|
      && n <= CountIn(t.times, now - width, now)
      && (n == CountIn(t.times, now - width, now) <==> forall i :: 0 <= i < t.evicted ==> t.times[i] < now - width)
  {
    var t := log.tracks[key];
    var kept := Fresh(Deque(log.w, key), now - width);
    ExpireKeepsDeque(t, Deque(log.w, key), width, now);
    FreshIsRecent(t, Deque(log.w, key), kept, width, now);
    DequeAgrees(At(t, now), kept, width);
  }

  /** The counters as a caller sees them, over any run with a clock that does not go back
      for any key: counts agree with the history, and the keys held never exceed the cap. */
  lemma RunsAgree(width: Time, maxKeys: nat, steps: seq<Step>, key: Key, now: Time)
    requires Orderly(width, maxKeys, steps + [Count(key, now)])
    ensures var log := Run(width, maxKeys, steps);
      var n := |Fresh(Deque(log.w, key), now - width)|;
      && |log.w.windows| <= maxKeys
      && (key !in log.tracks ==> n == 0)
      && (key in log.tracks ==>
            && n <= CountIn(log.tracks[key].times, now - width, now)
            && (n == CountIn(log.tracks[key].times, now - width, now)
                <==> NothingEvictedFrom(log.tracks[key], now - width)))
  {
    var log := Run(width, maxKeys, steps);
    assert (steps + [Count(key, now)])[..|steps|] == steps;
    Reachable(width, maxKeys, steps);
    assert KeyOk(log, width, key);
    if key in log.tracks { CountAgrees(log, width, key, now); }
    HeldBounded(log.w);
  }

  // --- the half-open interval ----------------------------------------------------------------------

  /** The recorded times in (lo, hi]. */
  function CountAfter(times: seq<Time>, lo: Time, hi: Time): nat {
    if times == [] then 0
    else CountAfter(times[..|times| - 1], lo, hi) + (if lo < times[|times| - 1] <= hi then 1 else 0)
  }

  lemma {:induction false} AfterSplits(a: seq<Time>, b: seq<Time>, lo: Time, hi: Time)
    ensures CountAfter(a + b, lo, hi) == CountAfter(a, lo, hi) + CountAfter(b, lo, hi)
    decreases |b|
  {
    if b == [] {
      assert a + b == a;
    } else {
      AfterSplits(a, b[..|b| - 1], lo, hi);
      assert (a + b)[..|a + b| - 1] == a + b[..|b| - 1];
    }
  }

  lemma {:induction false} AfterNone(times: seq<Time>, lo: Time, hi: Time)
    ensures CountAfter(times, lo, hi) == 0 <==> forall i :: 0 <= i < |times| ==> !(lo < times[i] <= hi)
  {
    if times != [] { AfterNone(times[..|times| - 1], lo, hi); }
  }

  /** Of times within the closed interval, all are counted just when none is at its edge. */
  lemma {:induction false} AfterAll(times: seq<Time>, lo: Time, hi: Time)
    requires forall i :: 0 <= i < |times| ==> lo <= times[i] <= hi
    ensures CountAfter(times, lo, hi) <= |times|
    ensures CountAfter(times, lo, hi) == |times| <==> forall i :: 0 <= i < |times| ==> times[i] != lo
  {
    if times != [] { AfterAll(times[..|times| - 1], lo, hi); }
  }

  /** A sorted history cut in two: an evicted time and an edge cannot make up for each other. */
  lemma CutAgrees(older: seq<Time>, kept: seq<Time>, evicted: nat, lo: Time, hi: Time)
    requires Sorted(older + kept) && forall i :: 0 <= i < |older| ==> older[i] <= hi
    requires evicted <= |older| && forall i :: evicted <= i < |older| ==> older[i] < lo
    requires forall i :: 0 <= i < |kept| ==> lo <= kept[i] <= hi
    ensures |kept| == CountAfter(older + kept, lo, hi)
      <==> (forall i :: 0 <= i < evicted ==> older[i] <= lo) && (forall i :: 0 <= i < |kept| ==> kept[i] != lo)
  {
    AfterSplits(older, kept, lo, hi);
    AfterNone(older, lo, hi);
    AfterAll(kept, lo, hi);
    if i :| 0 <= i < evicted && older[i] > lo {
      forall j | 0 <= j < |kept| ensures kept[j] != lo {
        assert (older + kept)[i] == older[i] && (older + kept)[|older| + j] == kept[j];
      }
    }
  }

  /** Nothing after `lo` was evicted, and nothing held is at it. */
  predicate NothingAtEdge(t: Track, held: seq<Time>, lo: Time) {
    && (forall i :: 0 <= i < t.evicted && i < |t.times| ==> t.times[i] <= lo)
    && (forall i :: 0 <= i < |held| ==> held[i] != lo)
  }

  lemma Halves(times: seq<Time>, kept: seq<Time>, older: seq<Time>)
    requires |kept| <= |times| && kept == times[|times| - |kept|..] && older == times[..|times| - |kept|]
    ensures times == older + kept
    ensures forall i :: 0 <= i < |older| ==> older[i] == times[i]
    ensures forall i :: 0 <= i < |kept| ==> kept[i] == times[|older| + i]
  {
  }

  lemma CutInTwo(t: Track, kept: seq<Time>, width: Time, older: seq<Time>)
    requires DequeOk(t, kept, width) && forall i :: 0 <= i < |kept| ==> kept[i] >= t.clock - width
    requires older == t.times[..|t.times| - |kept|]
    ensures t.times == older + kept && t.evicted <= |older|
    ensures forall i :: 0 <= i < |older| ==> older[i] == t.times[i] && older[i] <= t.clock
    ensures forall i :: t.evicted <= i < |older| ==> older[i] < t.clock - width
    ensures forall i :: 0 <= i < |kept| ==> t.clock - width <= kept[i] <= t.clock
  {
    Halves(t.times, kept, older);
  }

  lemma TrackAgrees(t: Track, kept: seq<Time>, width: Time)
    requires DequeOk(t, kept, width) && forall i :: 0 <= i < |kept| ==> kept[i] >= t.clock - width
    ensures |kept| == CountAfter(t.times, t.clock - width, t.clock) <==> NothingAtEdge(t, kept, t.clock - width)
  {
    var older := t.times[..|t.times| - |kept|];
    CutInTwo(t, kept, width, older);
    CutAgrees(older, kept, t.evicted, t.clock - width, t.clock);
  }

  lemma SameEdge(t: Track, held: seq<Time>, lo: Time)
    ensures NothingAtEdge(t, held, lo) <==> NothingAtEdge(t, Fresh(held, lo), lo)
  {
    FreshKeepsTheEnd(held, lo);
    var kept := Fresh(held, lo);
    assert forall i :: |held| - |kept| <= i < |held| ==> held[i] == kept[i - (|held| - |kept|)];
    assert forall i :: 0 <= i < |kept| ==> kept[i] == held[i + (|held| - |kept|)];
  }

  lemma KeyAgrees(log: Log, width: Time, key: Key, now: Time)
    requires KeyOk(log, width, key) && key in log.tracks && log.tracks[key].clock <= now
    ensures var t, held := log.tracks[key], Deque(log.w, key);
      && (|Fresh(held, now - width)| == CountAfter(t.times, now - width, now)
          <==> NothingAtEdge(t, held, now - width))
  {
    var t, held := log.tracks[key], Deque(log.w, key);
    ExpireKeepsDeque(t, held, width, now);
    FreshIsRecent(t, held, Fresh(held, now - width), width, now);
    TrackAgrees(At(t, now), Fresh(held, now - width), width);
    SameEdge(t, held, now - width);
  }

  /** Over any run the count is the number of times in (now - width, now], the interval the
      documentation gives, exactly when none that is held is one window old to the instant,
      and none within the interval was evicted. */
  lemma HalfOpenIff(width: Time, maxKeys: nat, steps: seq<Step>, key: Key, now: Time)
    requires Orderly(width, maxKeys, steps + [Count(key, now)])
    requires key in Run(width, maxKeys, steps).tracks
    ensures var log := Run(width, maxKeys, steps);
      var t, held := log.tracks[key], Deque(log.w, key);
      && (|Fresh(held, now - width)| == CountAfter(t.times, now - width, now)
          <==> NothingAtEdge(t, held, now - width))
  {
    assert (steps + [Count(key, now)])[..|steps|] == steps;
    Reachable(width, maxKeys, steps);
    assert KeyOk(Run(width, maxKeys, steps), width, key);
    KeyAgrees(Run(width, maxKeys, steps), width, key, now);
  }

  /** The lower edge is inclusive: a time exactly one window old still counts. */
  lemma EdgeStillCounts(width: Time, maxKeys: nat, key: Key, ts: Time)
    requires maxKeys > 0
    ensures |Fresh(Deque(Recorded(EMPTY, key, ts, width, maxKeys), key), (ts + width) - width)| == 1
  {
    var touched := Touched(EMPTY, key, ts, width);
    assert Remove([], key) + [key] == [key] && Deque(EMPTY, key) + [ts] == [ts];
    assert touched == Table([key], map[key := [ts]]);
    assert touched.order[..0] == [];
  }

  lemma HeldBounded(w: Table)
    requires Shape(w)
    ensures |w.windows| <= |w.order|
  {
    DistinctBound(w.order);
    assert w.windows.Keys == set k | k in w.order;
  }

  lemma {:induction false} DistinctBound(order: seq<Key>)
    ensures |set k | k in order| <= |order|
  {
    if order != [] {
      DistinctBound(order[1..]);
      assert (set k | k in order) == (set k | k in order[1..]) + {order[0]};
    }
  }

  /** Recording evicts only from the least recently recorded end: every key that goes was
      last recorded before every key that stays. */
  lemma EvictsLeastRecent(log: Log, width: Time, maxKeys: nat, key: Key, ts: Time, gone: Key, kept: Key)
    requires Inv(log, width, maxKeys)
    requires gone in Touched(log.w, key, ts, width).windows && kept in Recorded(log.w, key, ts, width, maxKeys).windows
    requires gone !in Recorded(log.w, key, ts, width, maxKeys).windows
    ensures var tracks := Next(log, width, maxKeys, Record(key, ts)).tracks;
      gone in tracks && kept in tracks && tracks[gone].at < tracks[kept].at
  {
    var tracks := Retraced(log, key, ts);
    RecordIsNewest(log, width, maxKeys, key, ts);
    RecordTables(log.w, log.tracks, tracks, width, maxKeys, key, ts);
    EvictedAreOldest(Touched(log.w, key, ts, width), tracks, maxKeys, gone, kept);
    RecordedTrack(log, width, maxKeys, key, ts, gone);
    RecordedTrack(log, width, maxKeys, key, ts, kept);
  }

  lemma EvictedAreOldest(w: Table, tracks: map<Key, Track>, maxKeys: nat, gone: Key, kept: Key)
    requires Shape(w) && Ordered(w.order, tracks) && gone in w.windows
    requires var w' := Evict(w, Excess(w, maxKeys)); gone !in w'.windows && kept in w'.windows
    ensures gone in tracks && kept in tracks && tracks[gone].at < tracks[kept].at
  {
    var n := Excess(w, maxKeys);
    EvictTable(w, tracks, n);
    OrderedSplits(w.order, tracks, n);
    assert gone in w.order[..n] && kept in Evict(w, n).order;
  }

  /** Eviction stops as soon as the table fits: if anything was evicted, the table is full. */
  lemma EvictsNoMoreThanItMust(w: Table, tracks: map<Key, Track>, width: Time, maxKeys: nat, key: Key, ts: Time)
    requires TableOk(w, tracks, maxKeys)
    ensures var before, after := Touched(w, key, ts, width), Recorded(w, key, ts, width, maxKeys);
      if |before.order| <= maxKeys then after == before else |after.order| == maxKeys
  {
    var touched := Touched(w, key, ts, width);
    if |touched.order| <= maxKeys { assert touched.windows - (set k | k in touched.order[..0]) == touched.windows; }
  }

  /** A table with room for its keys evicts nothing: only a key not already held can push
      another out, and only when the table is full. */
  lemma EvictsOnlyWhenFull(w: Table, tracks: map<Key, Track>, width: Time, maxKeys: nat, key: Key, ts: Time)
    requires TableOk(w, tracks, maxKeys)
    requires |w.order| < maxKeys || key in Expire(w, key, ts - width).windows
    ensures Recorded(w, key, ts, width, maxKeys) == Touched(w, key, ts, width)
  {
    ExpireTable(w, tracks, key, ts - width);
    RemoveDrops(Expire(w, key, ts - width).order, key);
    var touched := Touched(w, key, ts, width);
    assert |touched.order| <= maxKeys;
    assert touched.windows - (set k | k in touched.order[..0]) == touched.windows;
  }
}
