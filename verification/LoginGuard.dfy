/**
 The login guard: a growing lock for each username and address pair that keeps
 failing, a token bucket for each address, and bounded tables for both. Times are
 seconds, as real numbers, and the clock never goes back.
 */
module LoginGuard {
  import opened Common

  /** until is unset while the pair has not been locked. */
  datatype Entry = Entry(failures: nat, until: Option<real>, last: real)

  datatype Bucket = Bucket(tokens: real, at: real)

  datatype Tables = Tables(entries: map<string, Entry>, ips: map<string, Bucket>)

  const MAX_ENTRIES: nat := 10_000
  const IP_BURST := 10.0
  const IP_RATE := 10.0 / 60.0

  // --------------------------------------------------------------- eviction

  /** What eviction sorts by: the unlocked first, then the oldest. */
  datatype Rank = Rank(locked: bool, at: real)

  predicate Leq(a: Rank, b: Rank) { if a.locked != b.locked then b.locked else a.at <= b.at }

  /** So many keys, and none of the others sorts before any of them. */
  ghost predicate Picks(ranks: map<string, Rank>, n: nat, r: set<string>) {
    && r <= ranks.Keys && |r| == n
    && forall x, y | x in r && y in ranks.Keys - r :: Leq(ranks[x], ranks[y])
  }

  function Tenth(n: nat): nat { if n / 10 > 1 then n / 10 else 1 }

  predicate StillLocked(e: Entry, now: real) { e.until.Some? && now < e.until.value }

  function EntryRanks(entries: map<string, Entry>, now: real): map<string, Rank> {
    map k | k in entries :: Rank(StillLocked(entries[k], now), entries[k].last)
  }

  function BucketRanks(ips: map<string, Bucket>): map<string, Rank> { map k | k in ips :: Rank(false, ips[k].at) }

  function Refilled(b: Bucket, now: real): real { b.tokens + (now - b.at) * IP_RATE }

  function Min(a: real, b: real): real { if a <= b then a else b }

  function DropFull(ips: map<string, Bucket>, now: real): map<string, Bucket> {
    map k | k in ips && Refilled(ips[k], now) < IP_BURST :: ips[k]
  }

  /** Which keys a full table loses to make room. */
  ghost predicate EvictsEntries(entries: map<string, Entry>, now: real, r: set<string>) {
    Picks(EntryRanks(entries, now), Tenth(|entries|), r)
  }

  ghost predicate EvictsBuckets(ips: map<string, Bucket>, now: real, r: set<string>) {
    var left := DropFull(ips, now);
    if |left| < MAX_ENTRIES then r == {} else Picks(BucketRanks(left), Tenth(|left|), r)
  }

  // -------------------------------------------------------------- operations

  predicate Locked(entries: map<string, Entry>, key: string, now: real) {
    key in entries && entries[key].until.Some? && now <= entries[key].until.value
  }

  /** Thirty seconds from the fifth failure on, doubled with each more, up to
      fifteen minutes. */
  function LockTime(failures: nat): real
    requires failures >= 5
  {
    Min(30.0 * Pow2(if failures - 5 <= 5 then failures - 5 else 5) as real, 900.0)
  }

  function Failed(e: Entry, now: real): Entry {
    var f := e.failures + 1;
    Entry(f, if f >= 5 then Some(now + LockTime(f)) else e.until, now)
  }

  function EntryOf(entries: map<string, Entry>, key: string): Entry {
    if key in entries then entries[key] else Entry(0, None, 0.0)
  }

  /** One more failure of a pair; evicted are those a full table loses first. */
  function Fail(t: Tables, key: string, now: real, evicted: set<string>): Tables {
    var entries := if key !in t.entries && |t.entries| >= MAX_ENTRIES then t.entries - evicted else t.entries;
    t.(entries := entries[key := Failed(EntryOf(entries, key), now)])
  }

  /** How many attempts an address has: an unknown one has a full bucket. */
  function Level(ips: map<string, Bucket>, ip: string, now: real): real {
    if ip in ips then Min(IP_BURST, Refilled(ips[ip], now)) else IP_BURST
  }

  predicate Overflows(ips: map<string, Bucket>, ip: string) { ip !in ips && |ips| >= MAX_ENTRIES }

  function Room(ips: map<string, Bucket>, ip: string, now: real, evicted: set<string>): map<string, Bucket> {
    if Overflows(ips, ip) then DropFull(ips, now) - evicted else ips
  }

  predicate Allowed(t: Tables, ip: string, now: real, evicted: set<string>) {
    Level(Room(t.ips, ip, now, evicted), ip, now) >= 1.0
  }

  function Allow(t: Tables, ip: string, now: real, evicted: set<string>): Tables {
    var ips := Room(t.ips, ip, now, evicted);
    var level := Level(ips, ip, now);
    t.(ips := ips[ip := Bucket(if level >= 1.0 then level - 1.0 else level, now)])
  }

  function Success(t: Tables, key: string, ip: string): Tables {
    Tables(t.entries - {key},
           if ip in t.ips then t.ips[ip := t.ips[ip].(tokens := Min(IP_BURST, t.ips[ip].tokens + 1.0))] else t.ips)
  }

  // ---------------------------------------------------------------- the class

  /** The first keys of a map in the order of their ranks. */
  method Oldest(ranks: map<string, Rank>, n: nat) returns (r: set<string>)
    requires n <= |ranks|
    ensures Picks(ranks, n, r)
  {
    var list: seq<string> := [];
    var left := ranks.Keys;
    while left != {}
      invariant left <= ranks.Keys && (forall k | k in list :: k in ranks && k !in left)
      invariant |list| + |left| == |ranks|
      invariant forall k | k in ranks :: k in left || k in list
      invariant Sorted(ranks, list) && forall i, j | 0 <= i < j < |list| :: list[i] != list[j]
      decreases left
    {
      var k :| k in left;
      list := Insert(ranks, list, k);
      left := left - {k};
    }
    r := Members(list[..n]);
    PrefixPicks(ranks, list, n);
  }

  predicate Sorted(ranks: map<string, Rank>, list: seq<string>) {
    && (forall k | k in list :: k in ranks)
    && forall i, j | 0 <= i < j < |list| :: list[i] in ranks && list[j] in ranks && Leq(ranks[list[i]], ranks[list[j]])
  }

  method Insert(ranks: map<string, Rank>, list: seq<string>, k: string) returns (r: seq<string>)
    requires Sorted(ranks, list) && k in ranks && k !in list
    requires forall i, j | 0 <= i < j < |list| :: list[i] != list[j]
    ensures Sorted(ranks, r) && |r| == |list| + 1 && forall x :: x in r <==> x in list || x == k
    ensures forall i, j | 0 <= i < j < |r| :: r[i] != r[j]
  {
    var i := 0;
    while i < |list| && Leq(ranks[list[i]], ranks[k])
      invariant 0 <= i <= |list|
      invariant forall j | 0 <= j < i :: Leq(ranks[list[j]], ranks[k])
    {
      i := i + 1;
    }
    r := list[..i] + [k] + list[i..];
    InsertedAt(ranks, list, k, i);
  }

  lemma InsertedAt(ranks: map<string, Rank>, list: seq<string>, k: string, i: nat)
    requires Sorted(ranks, list) && k in ranks && k !in list && i <= |list|
    requires forall a, b | 0 <= a < b < |list| :: list[a] != list[b]
    requires forall j | 0 <= j < i :: Leq(ranks[list[j]], ranks[k])
    requires i < |list| ==> !Leq(ranks[list[i]], ranks[k])
    ensures var r := list[..i] + [k] + list[i..];
            && Sorted(ranks, r) && (forall x :: x in r <==> x in list || x == k)
            && forall a, b | 0 <= a < b < |r| :: r[a] != r[b]
  {
    var r := list[..i] + [k] + list[i..];
    assert list == list[..i] + list[i..];
    forall j | i <= j < |list| ensures Leq(ranks[k], ranks[list[j]]) {
      assert list[j] in ranks && (j > i ==> Leq(ranks[list[i]], ranks[list[j]]));
    }
    hide Leq;
    forall a, b | 0 <= a < b < |r|
      ensures r[a] in ranks && r[b] in ranks && Leq(ranks[r[a]], ranks[r[b]]) && r[a] != r[b] {
      InsertedOrder(ranks, list, k, i, a, b);
    }
  }

  lemma InsertedOrder(ranks: map<string, Rank>, list: seq<string>, k: string, i: nat, a: nat, b: nat)
    requires Sorted(ranks, list) && k in ranks && k !in list && i <= |list| && a < b <= |list|
    requires forall c, d | 0 <= c < d < |list| :: list[c] != list[d]
    requires forall j | 0 <= j < i :: Leq(ranks[list[j]], ranks[k])
    requires forall j | i <= j < |list| :: list[j] in ranks && Leq(ranks[k], ranks[list[j]])
    ensures var r := list[..i] + [k] + list[i..];
            r[a] in ranks && r[b] in ranks && Leq(ranks[r[a]], ranks[r[b]]) && r[a] != r[b]
  {
    hide Leq;
    var r := list[..i] + [k] + list[i..];
    assert r[a] == if a < i then list[a] else if a == i then k else list[a - 1];
    assert r[b] == if b < i then list[b] else if b == i then k else list[b - 1];
  }

  lemma PrefixPicks(ranks: map<string, Rank>, list: seq<string>, n: nat)
    requires Sorted(ranks, list) && n <= |list| && forall k | k in ranks :: k in list
    requires forall i, j | 0 <= i < j < |list| :: list[i] != list[j]
    ensures Picks(ranks, n, Members(list[..n]))
  {
    DistinctCard(list[..n]);
    var r := Members(list[..n]);
    forall x, y | x in r && y in ranks.Keys - r ensures Leq(ranks[x], ranks[y]) {
      var i :| 0 <= i < n && list[..n][i] == x;
      var j :| 0 <= j < |list| && list[j] == y;
      assert forall q | 0 <= q < n :: list[q] == list[..n][q] && list[q] in list[..n];
    }
  }

  class Guard {
    var entries: map<string, Entry>
    var ips: map<string, Bucket>

    ghost function State(): Tables
      reads this
    {
      Tables(entries, ips)
    }

    constructor ()
      ensures State() == Tables(map[], map[])
    {
      entries, ips := map[], map[];
    }

    method IsLocked(key: string, now: real) returns (until: Option<real>)
      ensures until.Some? <==> Locked(entries, key, now)
      ensures until.Some? ==> until == entries[key].until
    {
      if key !in entries || entries[key].until == None || now > entries[key].until.value { return None; }
      return entries[key].until;
    }

    method EvictEntries(now: real) returns (evicted: set<string>)
      requires |entries| >= 1
      modifies this`entries
      ensures EvictsEntries(old(entries), now, evicted) && entries == old(entries) - evicted
    {
      var list := EntryRanks(entries, now);
      assert list.Keys == entries.Keys;
      evicted := Oldest(list, Tenth(|entries|));
      entries := entries - evicted;
    }

    method AddFailure(key: string, now: real) returns (evicted: set<string>)
      modifies this`entries
      ensures State() == Fail(old(State()), key, now, evicted)
      ensures if key !in old(entries) && |old(entries)| >= MAX_ENTRIES then EvictsEntries(old(entries), now, evicted)
              else evicted == {}
    {
      evicted := {};
      var e := Entry(0, None, 0.0);
      if key in entries { e := entries[key]; } else if |entries| >= MAX_ENTRIES { evicted := EvictEntries(now); }
      e := e.(failures := e.failures + 1, last := now);
      if e.failures >= 5 {
        var lock := 30.0 * Pow2(if e.failures - 5 <= 5 then e.failures - 5 else 5) as real;
        if lock > 900.0 { lock := 900.0; }
        e := e.(until := Some(now + lock));
      }
      entries := entries[key := e];
    }

    method EvictBuckets(now: real) returns (evicted: set<string>)
      modifies this`ips
      ensures EvictsBuckets(old(ips), now, evicted) && ips == DropFull(old(ips), now) - evicted
    {
      evicted := {};
      var left := ips.Keys;
      while left != {}
        invariant left <= old(ips).Keys
        invariant forall k :: k in ips <==> k in old(ips) && (k in left || Refilled(old(ips)[k], now) < IP_BURST)
        invariant forall k | k in ips :: ips[k] == old(ips)[k]
        decreases left
      {
        var k :| k in left;
        if Refilled(ips[k], now) >= IP_BURST { ips := ips - {k}; }
        left := left - {k};
      }
      assert ips == DropFull(old(ips), now);
      if |ips| < MAX_ENTRIES { return; }
      var keys := BucketRanks(ips);
      assert keys.Keys == ips.Keys;
      evicted := Oldest(keys, Tenth(|ips|));
      ips := ips - evicted;
    }

    method AllowIP(ip: string, now: real) returns (ok: bool, evicted: set<string>)
      modifies this`ips
      ensures State() == Allow(old(State()), ip, now, evicted) && ok == Allowed(old(State()), ip, now, evicted)
      ensures if Overflows(old(ips), ip) then EvictsBuckets(old(ips), now, evicted) else evicted == {}
    {
      evicted := {};
      var b := Bucket(IP_BURST, now);
      if ip in ips { b := ips[ip]; } else if |ips| >= MAX_ENTRIES { evicted := EvictBuckets(now); }
      b := Bucket(Min(IP_BURST, b.tokens + (now - b.at) * IP_RATE), now);
      ok := b.tokens >= 1.0;
      if ok { b := b.(tokens := b.tokens - 1.0); }
      ips := ips[ip := b];
    }

    method SignedIn(key: string, ip: string)
      modifies this
      ensures State() == Success(old(State()), key, ip)
    {
      entries := entries - {key};
      if ip in ips { ips := ips[ip := ips[ip].(tokens := Min(IP_BURST, ips[ip].tokens + 1.0))]; }
    }
  }

  // ------------------------------------------------------------------- runs

  datatype State = State(t: Tables, now: real)

  /** Each action takes place at some later or equal time. */
  datatype Action =
    | Failing(key: string, at: real, evicted: set<string>)
    | Trying(ip: string, at: real, evicted: set<string>)
    | SigningIn(key: string, ip: string, at: real)

  ghost predicate Enabled(s: State, a: Action) {
    && a.at >= s.now
    && match a
       case Failing(key, at, evicted) =>
         if key !in s.t.entries && |s.t.entries| >= MAX_ENTRIES then EvictsEntries(s.t.entries, at, evicted)
         else evicted == {}
       case Trying(ip, at, evicted) =>
         if Overflows(s.t.ips, ip) then EvictsBuckets(s.t.ips, at, evicted) else evicted == {}
       case SigningIn(_, _, _) => true
  }

  function Apply(s: State, a: Action): State {
    match a
    case Failing(key, at, evicted) => State(Fail(s.t, key, at, evicted), at)
    case Trying(ip, at, evicted) => State(Allow(s.t, ip, at, evicted), at)
    case SigningIn(key, ip, at) => State(Success(s.t, key, ip), at)
  }

  predicate BucketOk(b: Bucket, now: real) { 0.0 <= b.tokens <= IP_BURST && b.at <= now }

  predicate Inv(s: State) {
    && |s.t.entries| <= MAX_ENTRIES && |s.t.ips| <= MAX_ENTRIES
    && forall ip | ip in s.t.ips :: BucketOk(s.t.ips[ip], s.now)
  }

  lemma AddedCard<V>(m: map<string, V>, k: string, v: V)
    ensures |m[k := v]| <= |m| + 1 && (k in m ==> |m[k := v]| == |m|)
  {
    assert m[k := v].Keys == m.Keys + {k};
    assert k in m ==> m.Keys + {k} == m.Keys;
  }

  lemma RemovedCard<V>(m: map<string, V>, r: set<string>)
    requires r <= m.Keys
    ensures |m - r| == |m| - |r|
  {
    assert (m - r).Keys == m.Keys - r;
  }

  /** A full table that evicts has room for one more. */
  lemma FailBounded(t: Tables, key: string, now: real, evicted: set<string>)
    requires Enabled(State(t, now), Failing(key, now, evicted)) && |t.entries| <= MAX_ENTRIES
    ensures |Fail(t, key, now, evicted).entries| <= MAX_ENTRIES
  {
    if key !in t.entries && |t.entries| >= MAX_ENTRIES { RemovedCard(t.entries, evicted); }
    var entries := if key !in t.entries && |t.entries| >= MAX_ENTRIES then t.entries - evicted else t.entries;
    AddedCard(entries, key, Failed(EntryOf(entries, key), now));
  }

  lemma RoomBounded(ips: map<string, Bucket>, ip: string, now: real, evicted: set<string>)
    requires |ips| <= MAX_ENTRIES && if Overflows(ips, ip) then EvictsBuckets(ips, now, evicted) else evicted == {}
    ensures |Room(ips, ip, now, evicted)| <= MAX_ENTRIES
    ensures ip !in Room(ips, ip, now, evicted) ==> |Room(ips, ip, now, evicted)| < MAX_ENTRIES
    ensures forall k | k in Room(ips, ip, now, evicted) :: k in ips && Room(ips, ip, now, evicted)[k] == ips[k]
  {
    if Overflows(ips, ip) {
      var left := DropFull(ips, now);
      SubsetCard(left.Keys, ips.Keys);
      assert left - {} == left;
      if |left| >= MAX_ENTRIES { RemovedCard(left, evicted); }
    }
  }

  lemma Keeps(s: State, a: Action)
    requires Inv(s) && Enabled(s, a)
    ensures Inv(Apply(s, a))
  {
    hide EvictsEntries, EvictsBuckets, Fail;
    match a {
      case Failing(key, at, evicted) =>
        FailBounded(s.t, key, at, evicted);
        FailLeavesIps(s.t, key, at, evicted);
      case Trying(ip, at, evicted) =>
        RoomBounded(s.t.ips, ip, at, evicted);
        var ips := Room(s.t.ips, ip, at, evicted);
        hide Room;
        var level := Level(ips, ip, at);
        AddedCard(ips, ip, Bucket(if level >= 1.0 then level - 1.0 else level, at));
      case SigningIn(key, ip, at) =>
        SubsetCard((s.t.entries - {key}).Keys, s.t.entries.Keys);
        if ip in s.t.ips { AddedCard(s.t.ips, ip, Success(s.t, key, ip).ips[ip]); }
    }
  }

  lemma FailLeavesIps(t: Tables, key: string, now: real, evicted: set<string>)
    ensures Fail(t, key, now, evicted).ips == t.ips
  {
  }

  ghost function After(s: State, run: seq<Action>): Option<State> {
    if run == [] then Some(s)
    else
      var before := After(s, run[..|run| - 1]);
      if before.Some? && Enabled(before.value, run[|run| - 1]) then Some(Apply(before.value, run[|run| - 1])) else None
  }

  /** Both tables stay within their bound over every run. */
  lemma {:induction false} TablesAreBounded(s: State, run: seq<Action>)
    requires Inv(s) && After(s, run).Some?
    ensures Inv(After(s, run).value)
  {
    hide Inv, Apply, Enabled;
    if run != [] {
      TablesAreBounded(s, run[..|run| - 1]);
      Keeps(After(s, run[..|run| - 1]).value, run[|run| - 1]);
    }
  }

  // ------------------------------------------------------------- rate of tries

  /** For one address: attempts let through, attempts given back, and times its
      bucket was dropped before it was full. */
  datatype Tally = Tally(admitted: nat, refunds: nat, drops: nat)

  function Count(s: State, a: Action, ip: string): Tally {
    match a
    case Trying(other, at, evicted) =>
      if other == ip then Tally(if Allowed(s.t, ip, at, evicted) then 1 else 0, 0, 0)
      else Tally(0, 0, if ip in s.t.ips && ip in evicted && Refilled(s.t.ips[ip], at) < IP_BURST then 1 else 0)
    case SigningIn(_, other, _) => Tally(0, if other == ip && ip in s.t.ips then 1 else 0, 0)
    case Failing(_, _, _) => Tally(0, 0, 0)
  }

  function Plus(a: Tally, b: Tally): Tally {
    Tally(a.admitted + b.admitted, a.refunds + b.refunds, a.drops + b.drops)
  }

  ghost function Total(s: State, run: seq<Action>, ip: string): Tally
    requires After(s, run).Some?
  {
    if run == [] then Tally(0, 0, 0)
    else Plus(Total(s, run[..|run| - 1], ip), Count(After(s, run[..|run| - 1]).value, run[|run| - 1], ip))
  }

  /** A bucket gains no more than the rate, and the burst bounds it. */
  lemma LevelGrows(ips: map<string, Bucket>, ip: string, now: real, later: real)
    requires now <= later
    ensures Level(ips, ip, later) <= Level(ips, ip, now) + (later - now) * IP_RATE
    ensures Level(ips, ip, later) <= IP_BURST
  {
  }

  /** Dropping full buckets changes no answer, now or later. */
  lemma DropFullChangesNothing(ips: map<string, Bucket>, ip: string, now: real, later: real)
    requires now <= later
    ensures Level(DropFull(ips, now), ip, later) == Level(ips, ip, later)
  {
  }

  /** Making room only helps an address whose bucket is dropped unfilled. */
  lemma RoomLevel(ips: map<string, Bucket>, ip: string, other: string, now: real, evicted: set<string>)
    requires other in evicted ==> other in ips
    ensures Level(Room(ips, ip, now, evicted), other, now) ==
            if Overflows(ips, ip) && other in evicted then IP_BURST else Level(ips, other, now)
  {
    DropFullChangesNothing(ips, other, now, now);
  }

  /** Attempts let through are paid for from the bucket, by time, by refunds or
      by a dropped bucket. */
  lemma StepPays(s: State, a: Action, ip: string)
    requires Inv(s) && Enabled(s, a)
    ensures var n, s' := Count(s, a, ip), Apply(s, a);
            n.admitted as real + Level(s'.t.ips, ip, s'.now) <=
              Level(s.t.ips, ip, s.now) + (s'.now - s.now) * IP_RATE + n.refunds as real + IP_BURST * n.drops as real
  {
    LevelGrows(s.t.ips, ip, s.now, a.at);
    if a.Trying? {
      TryPays(s, a, ip);
    }
  }

  lemma TryPays(s: State, a: Action, ip: string)
    requires Inv(s) && Enabled(s, a) && a.Trying?
    ensures var n, s' := Count(s, a, ip), Apply(s, a);
            n.admitted as real + Level(s'.t.ips, ip, s'.now) <= Level(s.t.ips, ip, a.at) + IP_BURST * n.drops as real
  {
    EvictedAreListed(s.t.ips, a.ip, a.at, a.evicted);
    RoomLevel(s.t.ips, a.ip, ip, a.at, a.evicted);
    hide Room, EvictsBuckets;
    var ips := Room(s.t.ips, a.ip, a.at, a.evicted);
    if a.ip == ip {
      assert !(ip in a.evicted);
    } else {
      assert Level(Apply(s, a).t.ips, ip, a.at) == Level(ips, ip, a.at);
    }
  }

  lemma EvictedAreListed(ips: map<string, Bucket>, ip: string, now: real, evicted: set<string>)
    requires if Overflows(ips, ip) then EvictsBuckets(ips, now, evicted) else evicted == {}
    ensures forall k | k in evicted :: k in ips && k != ip && Refilled(ips[k], now) < IP_BURST
  {
  }

  lemma {:induction false} AttemptsArePaid(s: State, run: seq<Action>, ip: string)
    requires Inv(s) && After(s, run).Some?
    ensures var n, s' := Total(s, run, ip), After(s, run).value;
            n.admitted as real + Level(s'.t.ips, ip, s'.now) <=
              Level(s.t.ips, ip, s.now) + (s'.now - s.now) * IP_RATE + n.refunds as real + IP_BURST * n.drops as real
  {
    hide Inv, Apply, Enabled, Count;
    if run != [] {
      AttemptsArePaid(s, run[..|run| - 1], ip);
      TablesAreBounded(s, run[..|run| - 1]);
      StepPays(After(s, run[..|run| - 1]).value, run[|run| - 1], ip);
      hide Level;
    }
  }

  /** Over any stretch of time, an address gets no more attempts than the burst,
      the rate times the stretch, what was given back, and one more burst for
      each time its bucket was dropped before it was full. */
  lemma AttemptsAreBounded(s: State, run: seq<Action>, ip: string)
    requires Inv(s) && After(s, run).Some?
    ensures var n, s' := Total(s, run, ip), After(s, run).value;
            n.admitted as real <=
              IP_BURST + (s'.now - s.now) * IP_RATE + n.refunds as real + IP_BURST * n.drops as real
  {
    AttemptsArePaid(s, run, ip);
    TablesAreBounded(s, run);
    LevelGrows(s.t.ips, ip, s.now, s.now);
    LevelIsPositive(After(s, run).value, ip);
    hide Level, Inv;
  }

  lemma LevelIsPositive(s: State, ip: string)
    requires Inv(s)
    ensures Level(s.t.ips, ip, s.now) >= 0.0
  {
  }

  // --------------------------------------------------- what full buckets hold

  /** Two guards that differ in full buckets alone. */
  ghost predicate Similar(s: State, t: State) {
    && s.now == t.now && s.t.entries == t.t.entries
    && DropFull(s.t.ips, s.now) == DropFull(t.t.ips, s.now)
  }

  ghost function Answers(s: State, run: seq<Action>): seq<bool>
    requires After(s, run).Some?
  {
    if run == [] then []
    else
      var front, a := run[..|run| - 1], run[|run| - 1];
      Answers(s, front) + if a.Trying? then [Allowed(After(s, front).value.t, a.ip, a.at, a.evicted)] else []
  }

  /** What is full stays full while nobody takes from it. */
  lemma DropFullAgain(ips: map<string, Bucket>, now: real, later: real)
    requires now <= later
    ensures DropFull(DropFull(ips, now), later) == DropFull(ips, later)
  {
    forall k | k in ips ensures Refilled(ips[k], now) <= Refilled(ips[k], later) {}
  }

  lemma DropFullLater(x: map<string, Bucket>, y: map<string, Bucket>, now: real, later: real)
    requires now <= later && DropFull(x, now) == DropFull(y, now)
    ensures DropFull(x, later) == DropFull(y, later)
  {
    DropFullAgain(x, now, later);
    DropFullAgain(y, now, later);
  }

  /** If a table is too full even without its full buckets, it has none. */
  lemma NoneIsFull(ips: map<string, Bucket>, now: real)
    requires |ips| <= MAX_ENTRIES <= |DropFull(ips, now)|
    ensures DropFull(ips, now) == ips
  {
    var left := DropFull(ips, now);
    forall k | k in ips ensures k in left {
      if k !in left { SubsetCard(left.Keys, ips.Keys - {k}); }
    }
  }

  /** Two such tables make room for an address by dropping the same buckets, if
      any that is not full. */
  lemma SameRoom(x: map<string, Bucket>, y: map<string, Bucket>, ip: string, now: real, evicted: set<string>)
    requires |x| <= MAX_ENTRIES && |y| <= MAX_ENTRIES && DropFull(x, now) == DropFull(y, now)
    requires if Overflows(x, ip) then EvictsBuckets(x, now, evicted) else evicted == {}
    ensures if Overflows(y, ip) then EvictsBuckets(y, now, evicted) else evicted == {}
    ensures DropFull(Room(x, ip, now, evicted), now) == DropFull(Room(y, ip, now, evicted), now)
  {
    var left := DropFull(x, now);
    if |left| >= MAX_ENTRIES {
      NoneIsFull(x, now);
      NoneIsFull(y, now);
    } else {
      assert evicted == {} && left - {} == left;
      DropFullAgain(x, now, now);
      DropFullAgain(y, now, now);
    }
  }

  lemma SameUpdate(x: map<string, Bucket>, y: map<string, Bucket>, ip: string, b: Bucket, now: real)
    requires DropFull(x, now) == DropFull(y, now)
    ensures DropFull(x[ip := b], now) == DropFull(y[ip := b], now)
  {
    var v, w := DropFull(x[ip := b], now), DropFull(y[ip := b], now);
    forall k ensures k in v <==> k in w {
      if k != ip { assert k in v <==> k in DropFull(x, now); assert k in w <==> k in DropFull(y, now); }
    }
    forall k | k in v ensures v[k] == w[k] {
      if k != ip { assert v[k] == DropFull(x, now)[k] && w[k] == DropFull(y, now)[k]; }
    }
  }

  /** A refund to a full bucket leaves it full. */
  lemma SameRefund(s: State, t: State, key: string, ip: string)
    requires Inv(s) && Inv(t) && Similar(s, t)
    ensures DropFull(Success(s.t, key, ip).ips, s.now) == DropFull(Success(t.t, key, ip).ips, s.now)
  {
    RefundedFull(s, key, ip);
    RefundedFull(t, key, ip);
  }

  lemma RefundedFull(s: State, key: string, ip: string)
    requires Inv(s)
    ensures DropFull(Success(s.t, key, ip).ips, s.now) ==
            DropFull(Success(s.t.(ips := DropFull(s.t.ips, s.now)), key, ip).ips, s.now)
  {
    var x, left := s.t.ips, DropFull(s.t.ips, s.now);
    DropFullAgain(x, s.now, s.now);
    if ip in left {
      SameUpdate(x, left, ip, x[ip].(tokens := Min(IP_BURST, x[ip].tokens + 1.0)), s.now);
    } else if ip in x {
      var b := x[ip].(tokens := Min(IP_BURST, x[ip].tokens + 1.0));
      assert BucketOk(x[ip], s.now) && Refilled(b, s.now) >= IP_BURST;
      assert DropFull(x[ip := b], s.now) == left;
    }
  }

  lemma SameTry(s: State, t: State, a: Action)
    requires Inv(s) && Inv(t) && Similar(s, t) && Enabled(s, a) && a.Trying?
    ensures Enabled(t, a) && Similar(Apply(s, a), Apply(t, a))
    ensures Allowed(s.t, a.ip, a.at, a.evicted) == Allowed(t.t, a.ip, a.at, a.evicted)
  {
    hide DropFull, EvictsBuckets, Level, Room, Allow, Allowed;
    DropFullLater(s.t.ips, t.t.ips, s.now, a.at);
    SameRoom(s.t.ips, t.t.ips, a.ip, a.at, a.evicted);
    SameAllow(s.t, t.t, a.ip, a.at, a.evicted);
  }

  lemma SameAllow(s: Tables, t: Tables, ip: string, now: real, evicted: set<string>)
    requires DropFull(Room(s.ips, ip, now, evicted), now) == DropFull(Room(t.ips, ip, now, evicted), now)
    ensures Allowed(s, ip, now, evicted) == Allowed(t, ip, now, evicted)
    ensures DropFull(Allow(s, ip, now, evicted).ips, now) == DropFull(Allow(t, ip, now, evicted).ips, now)
    ensures Allow(s, ip, now, evicted).entries == s.entries && Allow(t, ip, now, evicted).entries == t.entries
  {
    hide DropFull, Level, Room;
    var x, y := Room(s.ips, ip, now, evicted), Room(t.ips, ip, now, evicted);
    DropFullChangesNothing(x, ip, now, now);
    DropFullChangesNothing(y, ip, now, now);
    var level := Level(x, ip, now);
    SameUpdate(x, y, ip, Bucket(if level >= 1.0 then level - 1.0 else level, now), now);
  }

  lemma SameStep(s: State, t: State, a: Action)
    requires Inv(s) && Inv(t) && Similar(s, t) && Enabled(s, a)
    ensures Enabled(t, a) && Similar(Apply(s, a), Apply(t, a))
    ensures a.Trying? ==> Allowed(s.t, a.ip, a.at, a.evicted) == Allowed(t.t, a.ip, a.at, a.evicted)
  {
    hide EvictsEntries, EvictsBuckets, DropFull, Allow, Success;
    DropFullLater(s.t.ips, t.t.ips, s.now, a.at);
    match a {
      case Failing(key, at, evicted) =>
        FailLeavesIps(s.t, key, at, evicted);
        FailLeavesIps(t.t, key, at, evicted);
      case Trying(_, _, _) => SameTry(s, t, a);
      case SigningIn(key, ip, at) =>
        SameRefund(s.(now := at), t.(now := at), key, ip);
        RefundEntries(s.t, key, ip);
        RefundEntries(t.t, key, ip);
    }
  }

  lemma RefundEntries(t: Tables, key: string, ip: string)
    ensures Success(t, key, ip).entries == t.entries - {key}
  {
  }

  /** Two guards that differ in full buckets alone can do the same, evictions
      included, give the same answers, and go on differing in no more. */
  lemma {:induction false} SameAnswers(s: State, t: State, run: seq<Action>)
    requires Inv(s) && Inv(t) && Similar(s, t) && After(s, run).Some?
    ensures After(t, run).Some? && Answers(s, run) == Answers(t, run)
    ensures Similar(After(s, run).value, After(t, run).value)
  {
    hide Inv, Apply, Enabled, Similar;
    if run != [] {
      var front := run[..|run| - 1];
      SameAnswers(s, t, front);
      TablesAreBounded(s, front);
      TablesAreBounded(t, front);
      SameStep(After(s, front).value, After(t, front).value, run[|run| - 1]);
    }
  }

  /** Dropping the full buckets, as a full table does first, is never noticed:
      what can happen next is the same, whatever is evicted later, and so are
      the answers. */
  lemma DroppingFullIsInvisible(s: State, run: seq<Action>)
    requires Inv(s)
    ensures var t := s.(t := s.t.(ips := DropFull(s.t.ips, s.now)));
            && (After(s, run).Some? <==> After(t, run).Some?)
            && (After(s, run).Some? ==> Answers(s, run) == Answers(t, run))
  {
    var t := s.(t := s.t.(ips := DropFull(s.t.ips, s.now)));
    SubsetCard(t.t.ips.Keys, s.t.ips.Keys);
    DropFullAgain(s.t.ips, s.now, s.now);
    assert Inv(t);
    hide After, Answers, DropFull;
    if After(s, run).Some? { SameAnswers(s, t, run); }
    if After(t, run).Some? { SameAnswers(t, s, run); }
  }

  // ------------------------------------------------------------------- locks

  /** A locked pair loses its lock to eviction only in a pass that removes every
      pair that is not locked, of which there is less than a tenth. */
  lemma LockedGoLast(entries: map<string, Entry>, now: real, evicted: set<string>, key: string)
    requires EvictsEntries(entries, now, evicted) && key in evicted && StillLocked(entries[key], now)
    ensures forall k | k in entries && !StillLocked(entries[k], now) :: k in evicted
    ensures |set k | k in entries && !StillLocked(entries[k], now)| < Tenth(|entries|)
  {
    var ranks := EntryRanks(entries, now);
    assert ranks[key].locked;
    var free := set k | k in entries && !StillLocked(entries[k], now);
    forall k | k in free ensures k in evicted {
      assert k in ranks.Keys - evicted ==> Leq(ranks[key], ranks[k]);
    }
    SubsetCard(free + {key}, evicted);
  }

  /** Among pairs alike, those that failed longest ago go first. */
  lemma OldestGoFirst(entries: map<string, Entry>, now: real, evicted: set<string>, gone: string, kept: string)
    requires EvictsEntries(entries, now, evicted) && gone in evicted && kept in entries && kept !in evicted
    ensures StillLocked(entries[gone], now) ==> StillLocked(entries[kept], now)
    ensures StillLocked(entries[gone], now) == StillLocked(entries[kept], now) ==>
            entries[gone].last <= entries[kept].last
  {
    var ranks := EntryRanks(entries, now);
    assert Leq(ranks[gone], ranks[kept]);
  }

  /** Locks get longer with each failure, from half a minute to a quarter of an
      hour. */
  lemma LocksGrow(f: nat, g: nat)
    requires 5 <= f <= g
    ensures 30.0 <= LockTime(f) <= LockTime(g) <= 900.0
    ensures LockTime(f) == 900.0 <==> f >= 10
  {
    Pow2Grows(0, if f - 5 <= 5 then f - 5 else 5);
    Pow2Grows(if f - 5 <= 5 then f - 5 else 5, if g - 5 <= 5 then g - 5 else 5);
    assert Pow2(5) == 32 && Pow2(4) == 16 by { assert Pow2(3) == 8; }
    if f < 10 { Pow2Grows(f - 5, 4); }
  }

  /** The locks in seconds, from the fifth failure to the tenth. */
  lemma LocksAre(f: nat)
    requires f >= 5
    ensures LockTime(f) == if f >= 10 then 900.0 else [30.0, 60.0, 120.0, 240.0, 480.0][f - 5]
  {
    assert Pow2(1) == 2 && Pow2(2) == 4 && Pow2(3) == 8;
    assert Pow2(4) == 16 && Pow2(5) == 32;
  }

  /** What is due: a lock ends when its time is over, not before. */
  ghost predicate Due(s: State) { forall k | k in s.t.entries :: EntryDue(s.t.entries[k], s.now) }

  predicate EntryDue(e: Entry, now: real) {
    && (e.until.Some? <==> e.failures >= 5) && e.last <= now
    && (e.until.Some? ==> e.until.value == e.last + LockTime(e.failures))
  }

  /** A pair loses its count and its lock by signing in or by eviction. */
  predicate Forgets(a: Action, key: string) {
    (a.SigningIn? && a.key == key) || (a.Failing? && a.key != key && key in a.evicted)
  }

  predicate Counted(a: Action, key: string) { a.Failing? && a.key == key }

  /** Otherwise its failures count up, and its lock only moves to a later end. */
  lemma LockStays(s: State, a: Action, key: string)
    requires Due(s) && Enabled(s, a)
    ensures Due(Apply(s, a))
    ensures var s' := Apply(s, a);
            key in s.t.entries && !Forgets(a, key) ==>
              && key in s'.t.entries
              && s'.t.entries[key].failures == s.t.entries[key].failures + (if Counted(a, key) then 1 else 0)
              && (!Counted(a, key) ==> s'.t.entries[key] == s.t.entries[key])
              && (s.t.entries[key].until.Some? ==>
                    s'.t.entries[key].until.Some? && s'.t.entries[key].until.value >= s.t.entries[key].until.value)
  {
    hide LockTime, Allow;
    if a.Failing? && a.key == key && key in s.t.entries && s.t.entries[key].failures >= 5 {
      LocksGrow(s.t.entries[key].failures, s.t.entries[key].failures + 1);
    }
    assert a.Trying? ==> Apply(s, a).t.entries == s.t.entries
      by { if a.Trying? { AllowLeavesEntries(s.t, a.ip, a.at, a.evicted); } }
  }

  lemma AllowLeavesEntries(t: Tables, ip: string, now: real, evicted: set<string>)
    ensures Allow(t, ip, now, evicted).entries == t.entries
  {
  }

  const EMPTY := Tables(map[], map[])

  lemma {:induction false} EveryRunIsDue(start: real, run: seq<Action>)
    requires After(State(EMPTY, start), run).Some?
    ensures Due(After(State(EMPTY, start), run).value)
  {
    hide Due, Apply, Enabled;
    if run == [] {
      NothingIsDue(start);
    } else {
      var s := After(State(EMPTY, start), run[..|run| - 1]).value;
      EveryRunIsDue(start, run[..|run| - 1]);
      LockStays(s, run[|run| - 1], "");
    }
  }

  lemma NothingIsDue(start: real)
    ensures Due(State(EMPTY, start))
  {
  }

  // When a pair is locked, from the attempts of a run alone.

  /** A pair's failures since it signed in or was evicted, and the last of them. */
  datatype Streak = Streak(failures: nat, last: real)

  function StreakOf(run: seq<Action>, key: string): Streak {
    if run == [] then Streak(0, 0.0)
    else
      var before, a := StreakOf(run[..|run| - 1], key), run[|run| - 1];
      if Forgets(a, key) then Streak(0, 0.0)
      else if Counted(a, key) then Streak(before.failures + 1, a.at)
      else before
  }

  predicate Shows(entries: map<string, Entry>, key: string, k: Streak) {
    if k.failures == 0 then key !in entries
    else key in entries && entries[key].failures == k.failures && entries[key].last == k.last
  }

  lemma StreakStep(s: State, a: Action, key: string, k: Streak)
    requires Enabled(s, a) && Shows(s.t.entries, key, k)
    ensures Shows(Apply(s, a).t.entries, key,
                  if Forgets(a, key) then Streak(0, 0.0)
                  else if Counted(a, key) then Streak(k.failures + 1, a.at) else k)
  {
    hide LockTime, Allow;
    if a.Trying? { AllowLeavesEntries(s.t, a.ip, a.at, a.evicted); }
  }

  lemma {:induction false} StreakIs(start: real, run: seq<Action>, key: string)
    requires After(State(EMPTY, start), run).Some?
    ensures Shows(After(State(EMPTY, start), run).value.t.entries, key, StreakOf(run, key))
  {
    hide Apply, Enabled, Forgets, Counted;
    if run != [] {
      StreakIs(start, run[..|run| - 1], key);
      StreakStep(After(State(EMPTY, start), run[..|run| - 1]).value, run[|run| - 1], key,
                 StreakOf(run[..|run| - 1], key));
    }
  }

  /** In every run a pair is locked at a moment if and only if it failed five
      times or more since it signed in or was evicted, and the last failure was
      no longer ago than its number of failures earns. */
  lemma LockedIff(start: real, run: seq<Action>, key: string, now: real)
    requires After(State(EMPTY, start), run).Some?
    ensures var k, earned := StreakOf(run, key), [30.0, 60.0, 120.0, 240.0, 480.0, 900.0];
            Locked(After(State(EMPTY, start), run).value.t.entries, key, now) <==>
            k.failures >= 5 && now <= k.last + earned[if k.failures < 10 then k.failures - 5 else 5]
  {
    StreakIs(start, run, key);
    EveryRunIsDue(start, run);
    hide After, LockTime;
    var k := StreakOf(run, key);
    if k.failures >= 5 { LocksAre(k.failures); }
  }

  function Failures(run: seq<Action>, key: string): nat {
    if run == [] then 0
    else Failures(run[..|run| - 1], key) + if Counted(run[|run| - 1], key) then 1 else 0
  }

  /** From a failure on, over any further run in which the pair neither signs in
      nor is evicted. */
  lemma {:induction false} LockHolds(start: real, run: seq<Action>, more: seq<Action>, key: string)
    requires After(State(EMPTY, start), run).Some? && After(State(EMPTY, start), run + more).Some?
    requires key in After(State(EMPTY, start), run).value.t.entries && forall a | a in more :: !Forgets(a, key)
    ensures var s, s' := After(State(EMPTY, start), run).value, After(State(EMPTY, start), run + more).value;
            && key in s'.t.entries
            && s'.t.entries[key].failures == s.t.entries[key].failures + Failures(more, key)
            && (Failures(more, key) == 0 ==> s'.t.entries[key] == s.t.entries[key])
            && (s.t.entries[key].until.Some? ==>
                  s'.t.entries[key].until.Some? && s'.t.entries[key].until.value >= s.t.entries[key].until.value)
    decreases |more|
  {
    hide Apply, Enabled, Due, Forgets, Counted;
    if more == [] {
      assert run + more == run;
    } else {
      var front, last := more[..|more| - 1], more[|more| - 1];
      assert (run + more)[..|run + more| - 1] == run + front && last in more && forall a | a in front :: a in more;
      LockHolds(start, run, front, key);
      EveryRunIsDue(start, run + front);
      LockStays(After(State(EMPTY, start), run + front).value, last, key);
    }
  }

  /** After a pair's f-th failure in a row, f being at least five, it is refused at
      every time up to the end of the lock that f earns, whatever else happens,
      until it signs in or is evicted; and if it does not fail again it is
      refused at no later time. */
  lemma LockedUntilDue(start: real, run: seq<Action>, key: string, at: real, evicted: set<string>, more: seq<Action>)
    requires var all := run + [Failing(key, at, evicted)] + more; After(State(EMPTY, start), all).Some?
    requires After(State(EMPTY, start), run + [Failing(key, at, evicted)]).Some?
    requires forall a | a in more :: !Forgets(a, key)
    ensures var s := After(State(EMPTY, start), run + [Failing(key, at, evicted)]).value;
            var s' := After(State(EMPTY, start), run + [Failing(key, at, evicted)] + more).value;
            && key in s.t.entries
            && var f := s.t.entries[key].failures;
            f >= 5 ==>
              && (forall t | t <= at + LockTime(f) :: Locked(s'.t.entries, key, t))
              && (Failures(more, key) == 0 ==> forall t | t > at + LockTime(f) :: !Locked(s'.t.entries, key, t))
    ensures var s := After(State(EMPTY, start), run + [Failing(key, at, evicted)]).value;
            s.t.entries[key].failures < 5 ==> forall t :: !Locked(s.t.entries, key, t)
  {
    var now := run + [Failing(key, at, evicted)];
    FailureIsNow(start, run, key, at, evicted);
    EveryRunIsDue(start, now);
    hide After, LockTime;
    LockHolds(start, now, more, key);
  }

  lemma FailureIsNow(start: real, run: seq<Action>, key: string, at: real, evicted: set<string>)
    requires After(State(EMPTY, start), run + [Failing(key, at, evicted)]).Some?
    ensures var s := After(State(EMPTY, start), run + [Failing(key, at, evicted)]).value;
            key in s.t.entries && s.t.entries[key].last == at
  {
    assert (run + [Failing(key, at, evicted)])[..|run|] == run;
  }
}
