/**
 When an attempt to sign in is refused: exactly when the address has used up its
 burst, what time has given it since, and what was given back.
 */
module LoginRates {
  import opened Common
  import opened LoginGuard

  /** What time gives an address. */
  function Gain(a: real, b: real): real { (b - a) * IP_RATE }

  /** What one action does to the attempts an address has. */
  lemma LevelStep(s: State, a: Action, ip: string)
    requires Inv(s) && Enabled(s, a)
    ensures var n, level := Count(s, a, ip), Level(s.t.ips, ip, a.at);
            && Level(Apply(s, a).t.ips, ip, a.at) ==
               (if n.drops > 0 then IP_BURST
                else if n.refunds > 0 then Min(IP_BURST, level + 1.0)
                else level - n.admitted as real)
            && n.admitted <= 1 && n.refunds <= 1 && (n.refunds > 0 ==> n.admitted == 0)
  {
    if a.Trying? {
      TryStep(s, a, ip);
    } else if a.Failing? {
      FailLeavesIps(s.t, a.key, a.at, a.evicted);
    } else {
      RefundStep(s, a, ip);
    }
  }

  lemma RefundStep(s: State, a: Action, ip: string)
    requires Inv(s) && Enabled(s, a) && a.SigningIn?
    ensures Level(Apply(s, a).t.ips, ip, a.at) ==
            if a.ip == ip && ip in s.t.ips then Min(IP_BURST, Level(s.t.ips, ip, a.at) + 1.0)
            else Level(s.t.ips, ip, a.at)
  {
  }

  lemma TryStep(s: State, a: Action, ip: string)
    requires Inv(s) && Enabled(s, a) && a.Trying?
    ensures var n, level := Count(s, a, ip), Level(s.t.ips, ip, a.at);
            Level(Apply(s, a).t.ips, ip, a.at) == if n.drops > 0 then IP_BURST else level - n.admitted as real
  {
    EvictedAreListed(s.t.ips, a.ip, a.at, a.evicted);
    RoomLevel(s.t.ips, a.ip, ip, a.at, a.evicted);
    hide Room, EvictsBuckets;
    var ips := Room(s.t.ips, a.ip, a.at, a.evicted);
    if a.ip != ip { assert Level(Apply(s, a).t.ips, ip, a.at) == Level(ips, ip, a.at); }
  }

  /** Runs can be cut in two. */
  lemma {:induction false} Cut(s: State, run: seq<Action>, k: nat)
    requires k <= |run| && After(s, run).Some?
    ensures After(s, run[..k]).Some? && After(After(s, run[..k]).value, run[k..]) == After(s, run)
    decreases |run|
  {
    hide Enabled, Apply;
    if k == |run| {
      assert run[..k] == run && run[k..] == [];
    } else {
      var front := run[..|run| - 1];
      Cut(s, front, k);
      assert front[..k] == run[..k] && run[k..][..|run| - k - 1] == front[k..];
    }
  }

  /** The state before the k-th action of a run. */
  ghost function Before(s: State, run: seq<Action>, k: nat): State
    requires k <= |run| && After(s, run).Some?
  {
    Cut(s, run, k);
    After(s, run[..k]).value
  }

  /** Attempts let through, given back, and drops from the k-th action on. */
  ghost function From(s: State, run: seq<Action>, k: nat, ip: string): Tally
    requires k <= |run| && After(s, run).Some?
  {
    Cut(s, run, k);
    Total(Before(s, run, k), run[k..], ip)
  }

  lemma FromEnd(s: State, run: seq<Action>, ip: string)
    requires After(s, run).Some?
    ensures From(s, run, |run|, ip) == Tally(0, 0, 0)
  {
  }

  lemma FromMore(s: State, run: seq<Action>, k: nat, ip: string)
    requires k < |run| && After(s, run).Some?
    ensures var front := run[..|run| - 1];
            && After(s, front).Some?
            && From(s, run, k, ip) == Plus(From(s, front, k, ip), Count(After(s, front).value, run[|run| - 1], ip))
  {
    hide Enabled, Apply, Count;
    var front := run[..|run| - 1];
    Cut(s, run, k);
    Cut(s, front, k);
    assert front[..k] == run[..k] && run[k..][..|run[k..]| - 1] == front[k..];
  }

  /** From the k-th action on the address had its burst, what time gave since that
      action, and what was given back, and has what it did not use. */
  ghost predicate Since(s: State, run: seq<Action>, ip: string, k: nat)
    requires After(s, run).Some?
  {
    && k <= |run| && From(s, run, k, ip).drops == 0
    && var n, end := From(s, run, k, ip), After(s, run).value;
       Level(end.t.ips, ip, end.now) ==
         IP_BURST + (if k < |run| then Gain(run[k].at, end.now) else 0.0)
         + n.refunds as real - n.admitted as real
  }

  lemma SinceNow(s: State, run: seq<Action>, ip: string)
    requires After(s, run).Some? && Level(After(s, run).value.t.ips, ip, After(s, run).value.now) == IP_BURST
    ensures Since(s, run, ip, |run|)
  {
    hide After;
    FromEnd(s, run, ip);
  }

  lemma Scale(a: real, b: real, c: real)
    ensures Gain(a, c) == Gain(a, b) + Gain(b, c)
    ensures Gain(c, c) == 0.0
  {
  }

  lemma {:induction false} AlwaysSince(start: real, run: seq<Action>, ip: string) returns (k: nat)
    requires After(State(EMPTY, start), run).Some?
    ensures Since(State(EMPTY, start), run, ip, k)
  {
    var s := State(EMPTY, start);
    if run == [] {
      k := 0;
      SinceNow(s, run, ip);
    } else {
      var front, a := run[..|run| - 1], run[|run| - 1];
      k := AlwaysSince(start, front, ip);
      TablesAreBounded(s, front);
      k := SinceStep(s, run, ip, k);
    }
  }

  /** The level after one more action, unless the bucket was full before it or
      is after it. */
  lemma LevelAfter(s: State, a: Action, ip: string)
    requires Inv(s) && Enabled(s, a)
    ensures var n, s' := Count(s, a, ip), Apply(s, a);
            var level, level' := Level(s.t.ips, ip, a.at), Level(s'.t.ips, ip, s'.now);
            && s'.now == a.at
            && (level' != IP_BURST ==> n.drops == 0 && level' == level + n.refunds as real - n.admitted as real)
            && (level != IP_BURST ==> level == Level(s.t.ips, ip, s.now) + Gain(s.now, a.at))
  {
    LevelStep(s, a, ip);
    LevelAt(s, a, ip);
    ApplyAt(s, a);
    hide Inv, Enabled, Apply, Count, Level, Gain;
  }

  lemma SinceStep(s: State, run: seq<Action>, ip: string, k: nat) returns (k': nat)
    requires run != [] && After(s, run).Some? && After(s, run[..|run| - 1]).Some?
    requires Inv(After(s, run[..|run| - 1]).value) && Since(s, run[..|run| - 1], ip, k)
    ensures Since(s, run, ip, k')
  {
    hide Inv, Count, Level, From, Gain, Apply, Enabled;
    var front, a := run[..|run| - 1], run[|run| - 1];
    var mid, end := After(s, front).value, After(s, run).value;
    assert Enabled(mid, a) && end == Apply(mid, a);
    LevelAfter(mid, a, ip);
    hide After;
    FromEnd(s, front, ip);
    if Level(end.t.ips, ip, end.now) == IP_BURST {
      k' := |run|;
      SinceNow(s, run, ip);
    } else if Level(mid.t.ips, ip, a.at) == IP_BURST {
      k' := |run| - 1;
      FromMore(s, run, k', ip);
      Scale(a.at, a.at, a.at);
    } else {
      k' := k;
      FromMore(s, run, k, ip);
      Scale(run[k].at, mid.now, a.at);
      NotFull(s, front, a, ip, k);
    }
  }

  lemma NotFull(s: State, front: seq<Action>, a: Action, ip: string, k: nat)
    requires After(s, front).Some? && Inv(After(s, front).value) && Enabled(After(s, front).value, a)
    requires Since(s, front, ip, k) && Level(After(s, front).value.t.ips, ip, a.at) != IP_BURST
    ensures k < |front|
  {
    hide Inv, Level, Gain, From, After;
    var mid := After(s, front).value;
    LevelAt(mid, a, ip);
    FromEnd(s, front, ip);
    ApplyAt(mid, a);
    Rate(mid.now, a.at);
  }

  /** Time alone adds what the rate says, unless the bucket fills up. */
  lemma LevelThen(s: State, ip: string, at: real)
    requires Inv(s) && s.now <= at
    ensures Level(s.t.ips, ip, at) == Min(IP_BURST, Level(s.t.ips, ip, s.now) + Gain(s.now, at))
    ensures Level(s.t.ips, ip, at) <= IP_BURST
  {
  }

  lemma LevelAt(s: State, a: Action, ip: string)
    requires Inv(s) && Enabled(s, a)
    ensures Level(s.t.ips, ip, a.at) == Min(IP_BURST, Level(s.t.ips, ip, s.now) + Gain(s.now, a.at))
    ensures Level(s.t.ips, ip, a.at) <= IP_BURST
  {
    hide Inv, Level, Gain;
    LevelThen(s, ip, a.at);
  }

  /** From no action on can an address have had more. */
  lemma {:induction false} AtMost(s: State, run: seq<Action>, ip: string, k: nat)
    requires Inv(s) && After(s, run).Some? && k < |run| && From(s, run, k, ip).drops == 0
    ensures var n, end := From(s, run, k, ip), After(s, run).value;
            Level(end.t.ips, ip, end.now) <=
              IP_BURST + Gain(run[k].at, end.now) + n.refunds as real - n.admitted as real
    decreases |run|
  {
    hide Inv, Count, Level, From, Enabled, Apply, Gain;
    var front, a := run[..|run| - 1], run[|run| - 1];
    var mid := After(s, front).value;
    TablesAreBounded(s, front);
    LevelStep(mid, a, ip);
    LevelAt(mid, a, ip);
    ApplyAt(mid, a);
    FromMore(s, run, k, ip);
    if k < |front| {
      AtMost(s, front, ip, k);
      Scale(run[k].at, mid.now, a.at);
    } else {
      FromEnd(s, front, ip);
      Scale(a.at, a.at, a.at);
    }
  }

  lemma ApplyAt(s: State, a: Action)
    requires Enabled(s, a)
    ensures Apply(s, a).now == a.at >= s.now
  {
  }

  lemma AllowedAt(s: State, a: Action)
    requires Inv(s) && Enabled(s, a) && a.Trying?
    ensures Allowed(s.t, a.ip, a.at, a.evicted) <==> Level(s.t.ips, a.ip, a.at) >= 1.0
  {
    EvictedAreListed(s.t.ips, a.ip, a.at, a.evicted);
    RoomLevel(s.t.ips, a.ip, a.ip, a.at, a.evicted);
    hide Room, EvictsBuckets, Level;
  }

  /** Ten a minute. */
  function PerMinute(from: real, to: real): real { (to - from) * 10.0 / 60.0 }

  /** Since the k-th action, and without losing its bucket, the address was let
      through more often than nine times, ten a minute, and what it was given
      back. */
  ghost predicate Spent(s: State, run: seq<Action>, ip: string, k: nat, at: real)
    requires After(s, run).Some?
  {
    && k < |run| && From(s, run, k, ip).drops == 0
    && From(s, run, k, ip).admitted as real >
         9.0 + PerMinute(run[k].at, at) + From(s, run, k, ip).refunds as real
  }

  /** In every run an attempt is refused if and only if there is such a stretch:
      the limit is kept, and nobody within it is refused. */
  lemma RefusedIff(start: real, run: seq<Action>, ip: string, at: real, evicted: set<string>)
    requires After(State(EMPTY, start), run).Some?
    requires Enabled(After(State(EMPTY, start), run).value, Trying(ip, at, evicted))
    ensures !Allowed(After(State(EMPTY, start), run).value.t, ip, at, evicted) <==>
            exists k :: Spent(State(EMPTY, start), run, ip, k, at)
  {
    hide After, Inv, Level, Enabled, Allowed, Since, Spent;
    var s := State(EMPTY, start);
    var end, a := After(s, run).value, Trying(ip, at, evicted);
    NothingIsBounded(start);
    TablesAreBounded(s, run);
    AllowedAt(end, a);
    LaterAt(end, a);
    var k := AlwaysSince(start, run, ip);
    if Level(end.t.ips, ip, at) < 1.0 { RefusedIsSpent(s, run, ip, k, at); }
    forall j | Spent(s, run, ip, j, at) ensures Level(end.t.ips, ip, at) < 1.0 { SpentIsRefused(s, run, ip, j, at); }
  }

  lemma NothingIsBounded(start: real)
    ensures Inv(State(EMPTY, start))
  {
  }

  lemma LaterAt(s: State, a: Action)
    requires Enabled(s, a)
    ensures s.now <= a.at
  {
  }

  lemma Rate(a: real, b: real)
    ensures Gain(a, b) == PerMinute(a, b) && (a <= b ==> Gain(a, b) >= 0.0)
  {
  }

  lemma RefusedIsSpent(s: State, run: seq<Action>, ip: string, k: nat, at: real)
    requires After(s, run).Some? && Inv(After(s, run).value) && After(s, run).value.now <= at
    requires Since(s, run, ip, k) && Level(After(s, run).value.t.ips, ip, at) < 1.0
    ensures Spent(s, run, ip, k, at)
  {
    hide After, From, Level, Gain, PerMinute;
    var end := After(s, run).value;
    LevelThen(end, ip, at);
    Rate(end.now, at);
    FromEnd(s, run, ip);
    if k < |run| {
      Scale(run[k].at, end.now, at);
      Rate(run[k].at, at);
    }
  }

  lemma SpentIsRefused(s: State, run: seq<Action>, ip: string, k: nat, at: real)
    requires Inv(s) && After(s, run).Some? && After(s, run).value.now <= at && Spent(s, run, ip, k, at)
    ensures Level(After(s, run).value.t.ips, ip, at) < 1.0
  {
    hide After, From, Level, Gain, PerMinute;
    AtMost(s, run, ip, k);
    TablesAreBounded(s, run);
    LevelThen(After(s, run).value, ip, at);
    Scale(run[k].at, After(s, run).value.now, at);
    Rate(run[k].at, at);
  }
}
