/**
 Whole runs of the live updates of one panel: publishing, subscribing, being cut
 off and coming back. The hub, the connection with its queue, the messages on
 their way in either direction and the panel's client move independently.
 */
module LiveRuns {
  import opened Common
  import opened Hub

  datatype Op = SubscribeOp(names: seq<string>, since: map<string, nat>) | UnsubscribeOp(names: seq<string>)

  /** wire: sent and not handled; ops: asked for and not read by the server;
      lost: once the connection is ended, how many of the messages not handled
      were queued before that. The rest is a record: what each topic published
      in its lifetime, the data the panel handled or loaded again, where its
      following of a topic began, the topics it cannot follow before it connects
      again because the sequence was forgotten or messages of a connection that
      had been ended still arrived (ended), those it came back to with a number
      that may be of an earlier lifetime and has heard nothing of yet (stale), and
      the topics it asked for more than once when it connected, which the panel
      never does. */
  datatype State = State(
    topics: map<string, Topic>, conn: Conn, wire: seq<Message>, ops: seq<Op>, open: bool, lost: Option<nat>,
    seqs: map<string, nat>, log: map<string, seq<nat>>, done: set<nat>, base: map<string, nat>, ended: set<string>,
    stale: set<string>, twice: set<string>, count: nat)

  datatype Action =
    | Publish(name: string)
    | Forget(name: string)
    | Restart
    | Connect(names: seq<string>)
    | Disconnect
    | Follow(name: string)
    | Unfollow(name: string)
    | ReadOp
    | Write
    | Cut
    | Handle

  const INIT := State(map[], NEW_CONN, [], [], false, None, map[], map[], {}, map[], {}, {}, {}, 1)

  function Pending(s: State): seq<Message> { s.wire + s.conn.send }

  /** What is on its way and was queued before the connection was ended. */
  function Safe(s: State): seq<Message> {
    if s.lost.Some? && s.lost.value <= |Pending(s)| then Pending(s)[..s.lost.value] else Pending(s)
  }

  predicate Enabled(s: State, a: Action) {
    match a
    case Connect(_) => !s.open
    case Disconnect => s.open
    case ReadOp => s.ops != []
    case Write => s.conn.send != []
    case Cut => s.open
    case Handle => s.wire != []
    case _ => true
  }

  /** The hub changed the connection, and may have ended it. */
  function Update(s: State, c: Conn): State {
    s.(conn := c, lost := if s.conn.gone || !c.gone then s.lost else Some(|s.wire| + |c.send|))
  }

  function LogOf(s: State, name: string): seq<nat> { if name in s.log then s.log[name] else [] }

  function DoPublish(s: State, name: string): State {
    var t := TopicOf(s.topics, name);
    Update(s, Deliver(s.conn, Next(t, name, s.count)))
      .(topics := s.topics[name := PublishTopic(t, name, s.count)],
        log := s.log[name := LogOf(s, name) + [s.count]], count := s.count + 1)
  }

  function Close(s: State): State {
    s.(conn := NEW_CONN, wire := [], ops := [], open := false, lost := None, twice := {})
  }

  function DoRestart(s: State): State {
    Close(s).(topics := map[], log := map[], ended := s.ended + s.topics.Keys)
  }

  /** Topics the client could not follow any more begin again where it is. */
  function DoConnect(s: State, names: seq<string>): State {
    s.(ops := [SubscribeOp(names, s.seqs)], open := true, ended := {}, stale := s.stale + s.ended * s.seqs.Keys,
       base := s.base + map n | n in s.seqs && n in s.ended :: s.seqs[n],
       twice := set i, j | 0 <= i < j < |names| && names[i] == names[j] :: names[i])
  }

  function Send(s: State, op: Op): State { if s.open then s.(ops := s.ops + [op]) else s }

  /** At most so many topics of one request are looked at. */
  function Limit(names: seq<string>): seq<string> { if |names| > MAX_TOPICS then names[..MAX_TOPICS] else names }

  function DoReadOp(s: State): State
    requires s.ops != []
  {
    var s1 := s.(ops := s.ops[1..]);
    match s.ops[0]
    case SubscribeOp(names, since) => Update(s1, Subscribe(s.topics, s.conn, Limit(names), since))
    case UnsubscribeOp(names) => s1.(conn := s.conn.(topics := s.conn.topics - set n | n in names))
  }

  /** What the panel has of the topic after a message: its data, or, loaded
      again, all that had been published when the notice was queued. */
  function Gained(s: State, m: Message): set<nat> {
    if m.kind.Update? then {m.data}
    else if Reloads(s.seqs, m) && m.seqno <= |LogOf(s, m.topic)| then set d | d in LogOf(s, m.topic)[..m.seqno]
    else {}
  }

  /** Where the following of a topic begins: with its first message, or, loaded
      again, from the start. */
  function Begins(s: State, m: Message): map<string, nat> {
    if Reloads(s.seqs, m) then s.base[m.topic := 0]
    else if m.topic in s.seqs then s.base
    else s.base[m.topic := if m.kind.Update? && m.seqno > 0 then m.seqno - 1 else m.seqno]
  }

  function DoHandle(s: State): State
    requires s.wire != []
  {
    var m := s.wire[0];
    s.(wire := s.wire[1..], seqs := s.seqs[m.topic := m.seqno], done := s.done + Gained(s, m),
       base := Begins(s, m), stale := s.stale - {m.topic},
       ended := if s.lost == Some(0) then s.ended + {m.topic} else s.ended,
       lost := if s.lost.Some? && s.lost.value > 0 then Some(s.lost.value - 1) else s.lost)
  }

  function Apply(s: State, a: Action): State
    requires Enabled(s, a)
  {
    match a
    case Publish(name) => DoPublish(s, name)
    case Forget(name) => s.(topics := s.topics - {name}, log := s.log - {name}, ended := s.ended + {name})
    case Restart => DoRestart(s)
    case Connect(names) => DoConnect(s, names)
    case Disconnect => Close(s)
    case Follow(name) => Send(s, SubscribeOp([name], map[]))
    case Unfollow(name) => Send(s.(seqs := s.seqs - {name}), UnsubscribeOp([name]))
    case ReadOp => DoReadOp(s)
    case Write => s.(wire := s.wire + [s.conn.send[0]], conn := s.conn.(send := s.conn.send[1..]))
    case Cut => Update(s, s.conn.(gone := true))
    case Handle => DoHandle(s)
  }

  predicate Once(names: seq<string>, name: string) {
    forall i, j | 0 <= i < j < |names| :: names[i] == name ==> names[j] != name
  }

  // ---------------------------------------------------------------- sequences

  /** The messages of one topic. */
  function Of(q: seq<Message>, name: string): seq<Message> {
    if q == [] then []
    else
      var front := Of(q[..|q| - 1], name);
      if q[|q| - 1].topic == name then front + [q[|q| - 1]] else front
  }

  /** An update follows the number before its own, or, if that is not exact, any
      from there on; a notice follows any. */
  predicate Follows(exact: bool, k: Option<nat>, m: Message) {
    m.kind.Update? && k.Some? ==> m.seqno == k.value + 1 || (!exact && m.seqno <= k.value)
  }

  function Before(k: Option<nat>, q: seq<Message>, i: nat): Option<nat>
    requires i <= |q|
  {
    if i == 0 then k else Some(q[i - 1].seqno)
  }

  /** Handled one after the other from number k on, the updates come in sequence. */
  predicate Chain(exact: bool, k: Option<nat>, q: seq<Message>) {
    forall i | 0 <= i < |q| :: Follows(exact, Before(k, q, i), q[i])
  }

  function End(k: Option<nat>, q: seq<Message>): Option<nat> { Before(k, q, |q|) }

  lemma {:induction false} OfConcat(a: seq<Message>, b: seq<Message>, name: string)
    ensures Of(a + b, name) == Of(a, name) + Of(b, name)
  {
    if b == [] {
      assert a + b == a;
    } else {
      assert (a + b)[..|a + b| - 1] == a + b[..|b| - 1];
      OfConcat(a, b[..|b| - 1], name);
    }
  }

  lemma {:induction false} OfOwn(q: seq<Message>, topic: string, name: string)
    requires forall i | 0 <= i < |q| :: q[i].topic == topic
    ensures Of(q, name) == if topic == name then q else []
  {
    if q != [] { OfOwn(q[..|q| - 1], topic, name); }
  }

  lemma {:induction false} OfTopic(q: seq<Message>, name: string)
    ensures forall i | 0 <= i < |Of(q, name)| :: Of(q, name)[i].topic == name && Of(q, name)[i] in q
  {
    if q != [] {
      var front, last := q[..|q| - 1], q[|q| - 1];
      OfTopic(front, name);
      assert q == front + [last];
    }
  }

  lemma ChainConcat(exact: bool, k: Option<nat>, a: seq<Message>, b: seq<Message>)
    requires Chain(exact, k, a) && Chain(exact, End(k, a), b)
    ensures Chain(exact, k, a + b) && End(k, a + b) == End(End(k, a), b)
  {
    hide Follows;
    forall i | 0 <= i < |a + b| ensures Follows(exact, Before(k, a + b, i), (a + b)[i]) {
      if i < |a| {
        assert Follows(exact, Before(k, a, i), a[i]) && Before(k, a + b, i) == Before(k, a, i);
      } else {
        assert Follows(exact, Before(End(k, a), b, i - |a|), b[i - |a|]);
        assert Before(k, a + b, i) == Before(End(k, a), b, i - |a|);
      }
    }
  }

  lemma ChainTail(exact: bool, k: Option<nat>, q: seq<Message>)
    requires Chain(exact, k, q) && q != []
    ensures Follows(exact, k, q[0]) && Chain(exact, Some(q[0].seqno), q[1..]) &&
            End(Some(q[0].seqno), q[1..]) == End(k, q)
  {
    assert Follows(exact, Before(k, q, 0), q[0]);
    forall i | 0 <= i < |q[1..]| ensures Follows(exact, Before(Some(q[0].seqno), q[1..], i), q[1..][i]) {
      assert Follows(exact, Before(k, q, i + 1), q[i + 1]);
    }
  }

  lemma ChainPrefix(exact: bool, k: Option<nat>, q: seq<Message>, n: nat)
    requires Chain(exact, k, q) && n <= |q|
    ensures Chain(exact, k, q[..n])
  {
    forall i | 0 <= i < n ensures Follows(exact, Before(k, q[..n], i), q[..n][i]) {
      assert Follows(exact, Before(k, q, i), q[i]);
    }
  }

  lemma ChainNone(exact: bool, k: Option<nat>, q: seq<Message>)
    requires Chain(exact, k, q)
    ensures Chain(exact, None, q) && (End(None, q) == None || End(None, q) == End(k, q))
  {
    forall i | 0 <= i < |q| ensures Follows(exact, Before(None, q, i), q[i]) {
      assert Follows(exact, Before(k, q, i), q[i]);
    }
  }

  // ---------------------------------------------------------------- invariant

  /** The buffer ends with the topic's last message and skips none. */
  predicate TopicWF(t: Topic, name: string, log: seq<nat>) {
    && t.seqno == |log| && |t.buf| == (if t.seqno < BufferSize(name) then t.seqno else BufferSize(name))
    && forall i | 0 <= i < |t.buf| ::
         t.buf[i] == Message(name, t.seqno - |t.buf| + 1 + i, Kind.Update, log[t.seqno - |t.buf| + i])
  }

  ghost predicate HubOk(s: State) { forall name :: TopicWF(TopicOf(s.topics, name), name, LogOf(s, name)) }

  predicate ConnOk(s: State) {
    && |s.conn.send| <= WS_QUEUE && (s.lost.Some? <==> s.conn.gone)
    && (s.lost.Some? ==> s.lost.value <= |Pending(s)|)
    && (!s.open ==> s.conn == NEW_CONN && s.wire == [] && s.ops == [])
  }

  /** Only the first request of a connection tells what the client has, and it
      still is what it has, or less. */
  ghost predicate OpsOk(s: State) {
    && (forall i | 0 < i < |s.ops| && s.ops[i].SubscribeOp? :: s.ops[i].since == map[])
    && (forall i, name | 0 <= i < |s.ops| && s.ops[i].SubscribeOp? && name !in s.twice :: Once(s.ops[i].names, name))
    && (s.ops != [] && s.ops[0].SubscribeOp? && s.ops[0].since != map[] ==>
          && s.conn.topics == {} && Pending(s) == []
          && forall name | name in s.seqs :: name in s.ops[0].since && s.ops[0].since[name] == s.seqs[name])
  }

  function Known(s: State, name: string): Option<nat> { if name in s.seqs then Some(s.seqs[name]) else None }

  predicate Live(s: State, name: string) { name in s.conn.topics && !s.conn.gone }

  predicate Genuine(m: Message, log: seq<nat>) {
    m.seqno <= |log| && (m.kind.Update? ==> m.seqno > 0 && m.data == log[m.seqno - 1])
  }

  predicate AllGenuine(q: seq<Message>, log: seq<nat>) { forall i | 0 <= i < |q| :: Genuine(q[i], log) }

  /** Handling what is on its way skips nothing, and leads up to now. */
  predicate Linked(exact: bool, k: Option<nat>, q: seq<Message>, live: bool, log: seq<nat>) {
    && Chain(exact, k, q) && AllGenuine(q, log)
    && (live ==> End(k, q) == None || End(k, q) == Some(|log|))
  }

  /** All the data between where the following began and the client's number,
      which is one of the topic's unless it came back with an old one. */
  ghost predicate Covered(s: State, name: string) {
    name in s.seqs ==>
      && name in s.base
      && (if name in s.stale then s.base[name] == s.seqs[name] else s.seqs[name] <= |LogOf(s, name)|)
      && forall j | s.base[name] <= j < s.seqs[name] :: LogOf(s, name)[j] in s.done
  }

  predicate Exact(s: State, name: string) { name !in s.twice }

  ghost predicate TopicOk(s: State, name: string) {
    Linked(Exact(s, name), Known(s, name), Of(Safe(s), name), Live(s, name), LogOf(s, name)) && Covered(s, name)
  }

  ghost predicate Inv(s: State) {
    HubOk(s) && ConnOk(s) && OpsOk(s) && forall name | name !in s.ended :: TopicOk(s, name)
  }

  // ------------------------------------------------------- the hub's buffers

  lemma PublishWF(t: Topic, name: string, log: seq<nat>, data: nat)
    requires TopicWF(t, name, log)
    ensures TopicWF(PublishTopic(t, name, data), name, log + [data])
  {
    var t' := PublishTopic(t, name, data);
    var all := t.buf + [Next(t, name, data)];
    var first, drop := t.seqno - |t.buf|, |all| - |t'.buf|;
    assert t'.seqno == |log + [data]| && t'.buf == all[drop..] && |t'.buf| <= BufferSize(name);
    hide PublishTopic, BufferSize;
    forall i | 0 <= i < |t'.buf|
      ensures t'.buf[i] == Message(name, first + drop + 1 + i, Kind.Update, (log + [data])[first + drop + i])
    {
      assert t'.buf[i] == all[drop + i];
      if drop + i < |t.buf| { assert all[drop + i] == t.buf[drop + i]; }
    }
  }

  /** Replaying starts right after the last number the client has. */
  lemma MissedIsTail(t: Topic, name: string, log: seq<nat>, last: nat, n: nat)
    requires TopicWF(t, name, log) && n <= |t.buf| && t.seqno - |t.buf| <= last
    ensures var cut := last - (t.seqno - |t.buf|);
            Missed(t.buf[..n], last) == if n <= cut then [] else t.buf[cut..n]
  {
    hide Missed;
    var first, cut := t.seqno - |t.buf| + 1, last - (t.seqno - |t.buf|);
    forall i | 0 <= i < n ensures t.buf[..n][i].seqno == first + i { assert t.buf[..n][i] == t.buf[i]; }
    hide TopicWF;
    MissedFrom(t.buf[..n], first, last);
    if n > cut { assert t.buf[..n][cut..] == t.buf[cut..n]; }
  }

  lemma {:induction false} MissedFrom(buf: seq<Message>, first: nat, last: nat)
    requires (forall i | 0 <= i < |buf| :: buf[i].seqno == first + i) && first <= last + 1
    ensures Missed(buf, last) == if |buf| <= last + 1 - first then [] else buf[last + 1 - first..]
    decreases |buf|
  {
    if buf != [] {
      var front, m := buf[..|buf| - 1], buf[|buf| - 1];
      MissedFrom(front, first, last);
      MissedOneMore(front, m, last);
      assert buf == front + [m];
      hide Missed;
      if |buf| > last + 1 - first { assert buf[last + 1 - first..] == front[last + 1 - first..] + [m]; }
    }
  }

  lemma MissedOneMore(buf: seq<Message>, m: Message, last: nat)
    ensures Missed(buf + [m], last) == Missed(buf, last) + if m.seqno > last then [m] else []
  {
    assert (buf + [m])[..|buf|] == buf;
  }

  /** The messages replayed, one by one. */
  lemma MissedIs(t: Topic, name: string, log: seq<nat>, last: nat) returns (ms: seq<Message>)
    requires TopicWF(t, name, log) && last < t.seqno && t.seqno - |t.buf| <= last
    ensures ms == Missed(t.buf, last) && |ms| == |log| - last
    ensures forall i | 0 <= i < |ms| :: ms[i] == Message(name, last + 1 + i, Kind.Update, log[last + i])
  {
    hide Missed;
    var cut := last - (t.seqno - |t.buf|);
    assert t.buf[..|t.buf|] == t.buf;
    MissedIsTail(t, name, log, last, |t.buf|);
    ms := t.buf[cut..];
    forall i | 0 <= i < |ms| ensures ms[i] == Message(name, last + 1 + i, Kind.Update, log[last + i]) {
      assert ms[i] == t.buf[cut + i];
    }
  }

  /** Replayed messages follow what the client has, and lead up to now. */
  lemma ReplayFits(exact: bool, t: Topic, name: string, log: seq<nat>, last: nat, k: Option<nat>)
    requires TopicWF(t, name, log) && last < t.seqno && t.seqno - |t.buf| <= last
    requires k == None || k.value == last || (!exact && k.value >= last)
    ensures var ms := Missed(t.buf, last);
            && Linked(exact, k, ms, true, log) && ms != [] && End(k, ms) == Some(|log|)
            && forall i | 0 <= i < |ms| :: ms[i].topic == name
  {
    hide Missed;
    var ms := MissedIs(t, name, log, last);
    hide TopicWF;
    forall i | 0 <= i < |ms| ensures Follows(exact, Before(k, ms, i), ms[i]) && Genuine(ms[i], log) {}
    hide Follows, Genuine;
  }

  /** What a subscription queues first follows what the client has, and leads up
      to now. */
  lemma OpeningFits(exact: bool, t: Topic, name: string, log: seq<nat>, since: map<string, nat>, k: Option<nat>)
    requires TopicWF(t, name, log)
    requires name in since && since[name] < t.seqno ==>
               k == None || k.value == since[name] || (!exact && k.value >= since[name])
    ensures var ms := Opening(t, name, since);
            && Linked(exact, k, ms, true, log) && ms != [] && End(k, ms) == Some(|log|)
            && forall i | 0 <= i < |ms| :: ms[i].topic == name
  {
    hide Missed;
    if name in since && since[name] < t.seqno && |t.buf| > 0 && t.buf[0].seqno <= since[name] + 1 {
      ReplayFits(exact, t, name, log, since[name], k);
    }
  }

  // ------------------------------------------------------ pushing to the queue

  function Room(c: Conn, n: nat): nat
    requires |c.send| <= WS_QUEUE
  {
    if n <= WS_QUEUE - |c.send| then n else WS_QUEUE - |c.send|
  }

  lemma {:induction false} PushAllForm(c: Conn, ms: seq<Message>)
    requires |c.send| <= WS_QUEUE
    ensures var n := Room(c, |ms|);
            PushAll(c, ms) == Conn(c.topics, c.send + ms[..n], c.gone || n < |ms|)
  {
    if ms != [] {
      PushAllForm(c, ms[..|ms| - 1]);
    }
  }

  /** A connection as one topic of the client sees it. */
  predicate Fed(exact: bool, wire: seq<Message>, c: Conn, name: string, k: Option<nat>, log: seq<nat>) {
    && |c.send| <= WS_QUEUE && (c.gone ==> |c.send| == WS_QUEUE)
    && Linked(exact, k, Of(wire + c.send, name), name in c.topics && !c.gone, log)
  }

  /** What pushing does to one topic's messages. */
  lemma PushOf(wire: seq<Message>, c: Conn, ms: seq<Message>, topic: string, name: string)
    requires |c.send| <= WS_QUEUE && forall i | 0 <= i < |ms| :: ms[i].topic == topic
    ensures var n, c' := Room(c, |ms|), PushAll(c.(topics := c.topics + {topic}), ms);
            && c' == Conn(c.topics + {topic}, c.send + ms[..n], c.gone || n < |ms|)
            && Of(wire + c'.send, name) == Of(wire + c.send, name) + if topic == name then ms[..n] else []
  {
    var n := Room(c, |ms|);
    PushAllForm(c.(topics := c.topics + {topic}), ms);
    hide PushAll, Of;
    assert wire + (c.send + ms[..n]) == wire + c.send + ms[..n];
    OfConcat(wire + c.send, ms[..n], name);
    OfOwn(ms[..n], topic, name);
  }

  lemma LinkMore(exact: bool, k: Option<nat>, q: seq<Message>, ms: seq<Message>, n: nat, log: seq<nat>)
    requires Linked(exact, k, q, false, log) && Linked(exact, End(k, q), ms, true, log) && n <= |ms|
    ensures Linked(exact, k, q + ms[..n], false, log)
    ensures n == |ms| && ms != [] && End(End(k, q), ms) == Some(|log|) ==> Linked(exact, k, q + ms[..n], true, log)
  {
    assert AllGenuine(q + ms[..n], log);
    hide AllGenuine, Follows;
    ChainPrefix(exact, End(k, q), ms, n);
    ChainConcat(exact, k, q, ms[..n]);
    if n == |ms| { assert ms[..n] == ms; }
  }

  lemma PushFed(exact: bool, wire: seq<Message>, c: Conn, ms: seq<Message>,
                topic: string, name: string, k: Option<nat>, log: seq<nat>)
    requires Fed(exact, wire, c, name, k, log) && forall i | 0 <= i < |ms| :: ms[i].topic == topic
    requires topic == name && !c.gone ==>
               var q := Of(wire + c.send, name);
               Linked(exact, End(k, q), ms, true, log) && ms != [] && End(End(k, q), ms) == Some(|log|)
    ensures Fed(exact, wire, PushAll(c.(topics := c.topics + {topic}), ms), name, k, log)
  {
    hide Chain, AllGenuine, End, PushAll, Of;
    PushOf(wire, c, ms, topic, name);
    var q := Of(wire + c.send, name);
    if topic == name && !c.gone {
      LinkMore(exact, k, q, ms, Room(c, |ms|), log);
    } else {
      assert c.gone ==> ms[..Room(c, |ms|)] == [];
      assert q + [] == q;
    }
  }

  // ------------------------------------------------------------- subscribing

  /** What is on its way leads up to the client's last number, if the server was
      told it, or beyond. */
  predicate Resumes(exact: bool, wire: seq<Message>, c: Conn, name: string, k: Option<nat>, log: seq<nat>,
                    since: map<string, nat>) {
    name in since && since[name] < |log| && !c.gone ==>
      var e := End(k, Of(wire + c.send, name));
      e == None || e.value == since[name] || (!exact && e.value >= since[name])
  }

  lemma OpeningTopic(s: State, n: string, since: map<string, nat>)
    requires HubOk(s)
    ensures var ms := Opening(TopicOf(s.topics, n), n, since);
            forall i | 0 <= i < |ms| :: ms[i].topic == n
  {
    assert TopicWF(TopicOf(s.topics, n), n, LogOf(s, n));
    hide Opening, HubOk;
    OpeningFits(true, TopicOf(s.topics, n), n, LogOf(s, n), since, None);
  }

  lemma SubscribeOneFed(exact: bool, s: State, wire: seq<Message>, c: Conn, n: string, since: map<string, nat>,
                        name: string, k: Option<nat>)
    requires HubOk(s) && Fed(exact, wire, c, name, k, LogOf(s, name))
    requires n == name ==> Resumes(exact, wire, c, name, k, LogOf(s, name), since)
    ensures Fed(exact, wire, SubscribeOne(s.topics, c, n, since), name, k, LogOf(s, name))
    ensures (n != name || !exact) && Resumes(exact, wire, c, name, k, LogOf(s, name), since) ==>
              Resumes(exact, wire, SubscribeOne(s.topics, c, n, since), name, k, LogOf(s, name), since)
  {
    hide HubOk, TopicWF, Opening, Of, Linked, PushAll, ValidTopic, TopicOf, LogOf;
    var t, log := TopicOf(s.topics, n), LogOf(s, name);
    var q, ms := Of(wire + c.send, name), Opening(t, n, since);
    OpeningTopic(s, n, since);
    if n == name && !c.gone { OwnOpening(exact, s, name, since, End(k, q)); }
    PushFed(exact, wire, c, ms, n, name, k, log);
    PushOf(wire, c, ms, n, name);
    hide Fed;
    assert q + [] == q;
    if n == name && !c.gone && Room(c, |ms|) == |ms| { EndOfAll(k, q, ms); }
  }

  lemma EndOfAll(k: Option<nat>, q: seq<Message>, ms: seq<Message>)
    ensures q + ms[..|ms|] == q + ms && End(k, q + ms) == End(End(k, q), ms)
  {
    assert ms[..|ms|] == ms;
  }

  lemma OwnOpening(exact: bool, s: State, name: string, since: map<string, nat>, k: Option<nat>)
    requires HubOk(s)
    requires name in since && since[name] < |LogOf(s, name)| ==>
               k == None || k.value == since[name] || (!exact && k.value >= since[name])
    ensures var ms, log := Opening(TopicOf(s.topics, name), name, since), LogOf(s, name);
            && Linked(exact, k, ms, true, log) && ms != [] && End(k, ms) == Some(|log|)
  {
    LogLength(s, name);
    assert TopicWF(TopicOf(s.topics, name), name, LogOf(s, name));
    hide Opening, Linked, TopicWF;
    OpeningFits(exact, TopicOf(s.topics, name), name, LogOf(s, name), since, k);
  }

  /** A request keeps the messages of each topic it names once in sequence, leaves
      those of the topics it does not name, and skips none of any other. */
  lemma {:induction false} SubscribeFed(exact: bool, s: State, wire: seq<Message>, c: Conn, names: seq<string>,
                                        since: map<string, nat>, name: string, k: Option<nat>)
    requires HubOk(s) && (exact ==> Once(names, name)) && Fed(exact, wire, c, name, k, LogOf(s, name))
    requires Resumes(exact, wire, c, name, k, LogOf(s, name), since)
    ensures Fed(exact, wire, Subscribe(s.topics, c, names, since), name, k, LogOf(s, name))
    ensures name !in names || !exact ==>
              Resumes(exact, wire, Subscribe(s.topics, c, names, since), name, k, LogOf(s, name), since)
  {
    hide Fed, Resumes, HubOk;
    if names != [] {
      var front, n := names[..|names| - 1], names[|names| - 1];
      assert (exact ==> n != name || name !in front) && forall x | x in front :: x in names;
      SubscribeFed(exact, s, wire, c, front, since, name, k);
      SubscribeOneFed(exact, s, wire, Subscribe(s.topics, c, front, since), n, since, name, k);
    }
  }

  lemma {:induction false} SubscribeGrows(topics: map<string, Topic>, c: Conn,
                                         names: seq<string>, since: map<string, nat>)
    requires |c.send| <= WS_QUEUE
    ensures var c' := Subscribe(topics, c, names, since);
            c.send <= c'.send && |c'.send| <= WS_QUEUE && (c.gone ==> c'.gone)
  {
    hide Opening;
    if names != [] {
      SubscribeGrows(topics, c, names[..|names| - 1], since);
      var d, n := Subscribe(topics, c, names[..|names| - 1], since), names[|names| - 1];
      PushAllForm(d.(topics := d.topics + {n}), Opening(TopicOf(topics, n), n, since));
      hide PushAll;
    }
  }

  // ----------------------------------------------------------- every step

  lemma UpdateSafe(s: State, c: Conn)
    requires ConnOk(s) && s.conn.send <= c.send && (s.conn.gone ==> c.gone)
    ensures Safe(Update(s, c)) == if s.conn.gone then Safe(s) else s.wire + c.send
  {
    if s.conn.gone {
      assert Pending(Update(s, c))[..|Pending(s)|] == Pending(s);
    }
  }

  /** The topic still is followed after the hub queued something. */
  lemma UpdateTopicOk(s: State, c: Conn, name: string)
    requires ConnOk(s) && s.conn.send <= c.send && (s.conn.gone ==> c.gone) && TopicOk(s, name)
    requires !s.conn.gone ==> Linked(Exact(s, name), Known(s, name), Of(s.wire + c.send, name),
                                     name in c.topics && !c.gone, LogOf(s, name))
    ensures TopicOk(Update(s, c), name)
  {
    UpdateSafe(s, c);
    hide Chain, AllGenuine, End, Of, Safe;
  }

  lemma ReadTopicOk(s: State, names: seq<string>, since: map<string, nat>, name: string)
    requires HubOk(s) && ConnOk(s) && OpsOk(s) && TopicOk(s, name)
    requires s.ops != [] && s.ops[0] == SubscribeOp(names, since)
    ensures TopicOk(Update(s, Subscribe(s.topics, s.conn, Limit(names), since)), name)
  {
    var k, log := Known(s, name), LogOf(s, name);
    assert TopicWF(TopicOf(s.topics, name), name, log);
    SubscribeGrows(s.topics, s.conn, Limit(names), since);
    if !s.conn.gone {
      assert Safe(s) == s.wire + s.conn.send;
      if since != map[] { assert Pending(s) == []; }
      SubscribeFed(Exact(s, name), s, s.wire, s.conn, Limit(names), since, name, k);
    }
    hide Subscribe, HubOk, OpsOk, Linked, Of, Limit;
    UpdateTopicOk(s, Subscribe(s.topics, s.conn, Limit(names), since), name);
  }

  lemma ReadSubscribe(s: State)
    requires Inv(s) && s.ops != [] && s.ops[0].SubscribeOp?
    ensures Inv(DoReadOp(s))
  {
    hide TopicOk, Subscribe, Limit, TopicWF, HubOk;
    var s', c := DoReadOp(s), Subscribe(s.topics, s.conn, Limit(s.ops[0].names), s.ops[0].since);
    SameHub(s, s');
    SubscribeGrows(s.topics, s.conn, Limit(s.ops[0].names), s.ops[0].since);
    forall name | name !in s'.ended ensures TopicOk(s', name) {
      ReadTopicOk(s, s.ops[0].names, s.ops[0].since, name);
      SameTopic(Update(s, c), s', name);
    }
  }

  lemma ReadUnsubscribe(s: State)
    requires Inv(s) && s.ops != [] && s.ops[0].UnsubscribeOp?
    ensures Inv(DoReadOp(s))
  {
    hide TopicOk, TopicWF, HubOk;
    var s' := DoReadOp(s);
    SameHub(s, s');
    forall name | name !in s'.ended ensures TopicOk(s', name) { LessTopics(s, s', name); }
  }

  lemma KeepsReadOp(s: State)
    requires Inv(s) && s.ops != []
    ensures Inv(DoReadOp(s))
  {
    hide Inv, DoReadOp;
    if s.ops[0].SubscribeOp? { ReadSubscribe(s); } else { ReadUnsubscribe(s); }
  }

  /** Topics do not depend on what is asked for. */
  lemma SameTopic(s: State, s': State, name: string)
    requires TopicOk(s, name) && s' == s.(ops := s'.ops, open := s'.open, ended := s'.ended)
    ensures TopicOk(s', name)
  {
    assert Safe(s') == Safe(s);
    hide Linked, Of, Safe;
  }

  lemma LessTopics(s: State, s': State, name: string)
    requires TopicOk(s, name) && s' == s.(ops := s'.ops, conn := s.conn.(topics := s'.conn.topics))
    requires s'.conn.topics <= s.conn.topics
    ensures TopicOk(s', name)
  {
    assert Safe(s') == Safe(s);
    hide Of, Safe, Chain, AllGenuine, End;
  }

  lemma GenuineMore(q: seq<Message>, log: seq<nat>, data: nat)
    requires AllGenuine(q, log)
    ensures AllGenuine(q, log + [data])
  {
    forall i | 0 <= i < |q| ensures Genuine(q[i], log + [data]) { assert Genuine(q[i], log); }
  }

  /** A message more in the topic's log, queued if the client follows it. */
  lemma PublishLinked(exact: bool, k: Option<nat>, q: seq<Message>, log: seq<nat>, m: Message, live: bool)
    requires Linked(exact, k, q, live, log) && m == Message(m.topic, |log| + 1, Kind.Update, m.data)
    ensures Linked(exact, k, q, false, log + [m.data])
    ensures live ==> Linked(exact, k, q + [m], true, log + [m.data])
  {
    GenuineMore(q, log, m.data);
    if live {
      assert Follows(exact, End(k, q), m);
      ChainConcat(exact, k, q, [m]);
    }
  }

  predicate Queues(s: State, topic: string, name: string) {
    topic == name && Live(s, name) && |s.conn.send| < WS_QUEUE
  }

  lemma PublishQueue(s: State, topic: string)
    requires ConnOk(s)
    ensures var m, s' := Next(TopicOf(s.topics, topic), topic, s.count), DoPublish(s, topic);
            && Safe(s') == (if Queues(s, topic, topic) then Safe(s) + [m] else Safe(s))
            && s'.conn.topics == s.conn.topics && (Live(s', topic) ==> Queues(s, topic, topic))
            && (s.conn.gone ==> s'.conn.gone)
  {
    var m := Next(TopicOf(s.topics, topic), topic, s.count);
    var c := Deliver(s.conn, m);
    UpdateSafe(s, c);
    assert s.wire + (s.conn.send + [m]) == s.wire + s.conn.send + [m];
    assert Safe(DoPublish(s, topic)) == Safe(Update(s, c));
  }

  lemma PublishLogs(s: State, topic: string, name: string)
    ensures var s' := DoPublish(s, topic);
            && LogOf(s', name) == (if topic == name then LogOf(s, name) + [s.count] else LogOf(s, name))
            && Known(s', name) == Known(s, name) && (topic != name ==> Live(s', name) ==> Live(s, name))
            && s'.seqs == s.seqs && s'.base == s.base && s'.done == s.done && s'.twice == s.twice && s'.stale == s.stale
  {
  }

  lemma CoveredMore(s: State, s': State, name: string)
    requires Covered(s, name) && LogOf(s, name) <= LogOf(s', name) && s.done <= s'.done
    requires s'.base == s.base && s'.stale == s.stale
    requires name in s'.seqs ==> name in s.seqs && s'.seqs[name] == s.seqs[name]
    ensures Covered(s', name)
  {
    hide LogOf;
  }

  lemma LogLength(s: State, topic: string)
    requires HubOk(s)
    ensures TopicOf(s.topics, topic).seqno == |LogOf(s, topic)|
  {
    assert TopicWF(TopicOf(s.topics, topic), topic, LogOf(s, topic));
  }

  lemma LinkedLess(exact: bool, k: Option<nat>, q: seq<Message>, live: bool, less: bool, log: seq<nat>)
    requires Linked(exact, k, q, live, log) && (less ==> live)
    ensures Linked(exact, k, q, less, log)
  {
  }

  lemma PublishTopicOk(s: State, topic: string, name: string)
    requires HubOk(s) && ConnOk(s) && TopicOk(s, name)
    ensures TopicOk(DoPublish(s, topic), name)
  {
    hide HubOk, ConnOk, DoPublish, Safe, LogOf, Of, Linked, Covered, Known, Live, TopicOf;
    var m, s' := Next(TopicOf(s.topics, topic), topic, s.count), DoPublish(s, topic);
    var k, q, log := Known(s, name), Of(Safe(s), name), LogOf(s, name);
    PublishQueue(s, topic);
    PublishLogs(s, topic, name);
    LogLength(s, topic);
    CoveredMore(s, s', name);
    OfConcat(Safe(s), [m], name);
    OfOwn([m], topic, name);
    if topic == name {
      PublishLinked(Exact(s, name), k, q, log, m, Live(s, name));
      LinkedLess(Exact(s, name), k, Of(Safe(s'), name), Queues(s, topic, name), Live(s', name), LogOf(s', name));
    } else {
      assert q + [] == q;
      LinkedLess(Exact(s, name), k, q, Live(s, name), Live(s', name), log);
    }
  }

  lemma KeepsPublish(s: State, topic: string)
    requires Inv(s)
    ensures Inv(DoPublish(s, topic))
  {
    var s', t := DoPublish(s, topic), TopicOf(s.topics, topic);
    assert TopicWF(t, topic, LogOf(s, topic));
    PublishWF(t, topic, LogOf(s, topic), s.count);
    hide PublishTopic, TopicOk;
    forall name ensures TopicWF(TopicOf(s'.topics, name), name, LogOf(s', name)) {
      assert TopicWF(TopicOf(s.topics, name), name, LogOf(s, name));
    }
    hide TopicWF;
    assert ConnOk(s') && OpsOk(s');
    forall name | name !in s'.ended ensures TopicOk(s', name) { PublishTopicOk(s, topic, name); }
  }

  /** What the client has of a topic grows with each of its messages. */
  lemma HandleCovers(s: State, name: string)
    requires s.wire != [] && s.wire[0].topic == name && Covered(s, name)
    requires Genuine(s.wire[0], LogOf(s, name)) && Follows(false, Known(s, name), s.wire[0])
    ensures Covered(DoHandle(s), name)
  {
    var m, s' := s.wire[0], DoHandle(s);
    assert LogOf(s', name) == LogOf(s, name);
    forall j | s'.base[name] <= j < m.seqno ensures LogOf(s, name)[j] in s'.done {
      if Reloads(s.seqs, m) { assert LogOf(s, name)[j] in LogOf(s, name)[..m.seqno]; }
    }
  }

  lemma HandleSafe(s: State)
    requires s.wire != [] && ConnOk(s)
    ensures Safe(s) == if s.lost == Some(0) then [] else [s.wire[0]] + Safe(DoHandle(s))
    ensures s.lost == Some(0) ==> Safe(DoHandle(s)) == []
  {
    assert Pending(s) == [s.wire[0]] + Pending(DoHandle(s));
  }

  lemma HandleTopicOk(s: State, name: string)
    requires s.wire != [] && ConnOk(s) && TopicOk(s, name) && !(s.lost == Some(0) && s.wire[0].topic == name)
    ensures TopicOk(DoHandle(s), name)
  {
    var m, s' := s.wire[0], DoHandle(s);
    HandleSafe(s);
    HandleKeeps(s, name);
    var k, q := Known(s, name), Of(Safe(s), name);
    hide DoHandle, Safe, HubOk, LogOf, TopicWF, Of;
    if s.lost == Some(0) {
      OtherTopicOk(s, s', name);
    } else {
      OfConcat([m], Safe(s'), name);
      OfOwn([m], m.topic, name);
      if m.topic == name {
        assert q[0] == m && q[1..] == Of(Safe(s'), name);
        assert Genuine(q[0], LogOf(s, name));
        ChainTail(Exact(s, name), k, q);
        HandleCovers(s, name);
        GenuineTail(q, LogOf(s, name));
      } else {
        assert [] + Of(Safe(s'), name) == Of(Safe(s'), name);
        OtherTopicOk(s, s', name);
      }
    }
  }

  lemma GenuineTail(q: seq<Message>, log: seq<nat>)
    requires AllGenuine(q, log) && q != []
    ensures AllGenuine(q[1..], log)
  {
    forall i | 0 <= i < |q[1..]| ensures Genuine(q[1..][i], log) { assert Genuine(q[i + 1], log); }
  }

  lemma HandleKeeps(s: State, name: string)
    requires s.wire != []
    ensures var s' := DoHandle(s);
            && LogOf(s', name) == LogOf(s, name) && Live(s', name) == Live(s, name) && s.done <= s'.done
            && s'.twice == s.twice
            && (if s.wire[0].topic == name then Known(s', name) == Some(s.wire[0].seqno) else
                  && Known(s', name) == Known(s, name) && (name in s'.stale <==> name in s.stale)
                  && (name in s'.base <==> name in s.base) && (name in s.base ==> s'.base[name] == s.base[name]))
  {
  }

  lemma OtherTopicOk(s: State, s': State, name: string)
    requires TopicOk(s, name) && LogOf(s', name) == LogOf(s, name) && Live(s', name) == Live(s, name)
    requires s.done <= s'.done && Known(s', name) == Known(s, name) && Of(Safe(s'), name) == Of(Safe(s), name)
    requires s'.twice == s.twice && (name in s'.stale <==> name in s.stale)
    requires (name in s'.base <==> name in s.base) && (name in s.base ==> s'.base[name] == s.base[name])
    ensures TopicOk(s', name)
  {
    hide LogOf, Live, Of, Safe, Linked;
  }

  lemma KeepsHandle(s: State)
    requires Inv(s) && s.wire != []
    ensures Inv(DoHandle(s))
  {
    var s' := DoHandle(s);
    hide TopicOk, TopicWF;
    forall name ensures TopicWF(TopicOf(s'.topics, name), name, LogOf(s', name)) {
      assert TopicWF(TopicOf(s.topics, name), name, LogOf(s, name));
    }
    forall name | name !in s'.ended ensures TopicOk(s', name) { HandleTopicOk(s, name); }
  }

  lemma SameHub(s: State, s': State)
    requires HubOk(s) && s'.topics == s.topics && s'.log == s.log
    ensures HubOk(s')
  {
    hide TopicWF;
    forall name ensures TopicWF(TopicOf(s'.topics, name), name, LogOf(s', name)) {
      assert TopicWF(TopicOf(s.topics, name), name, LogOf(s, name));
    }
  }

  /** Nothing is on its way. */
  lemma EmptyTopicOk(s: State, name: string)
    requires Safe(s) == [] && !Live(s, name) && Covered(s, name)
    ensures TopicOk(s, name)
  {
    assert Of([], name) == [];
  }

  lemma KeepsClose(s: State)
    requires Inv(s)
    ensures Inv(Close(s))
  {
    var s' := Close(s);
    SameHub(s, s');
    hide HubOk, Linked, Of;
    forall name | name !in s'.ended ensures TopicOk(s', name) {
      assert TopicOk(s, name);
      EmptyTopicOk(s', name);
    }
  }

  lemma KeepsConnect(s: State, names: seq<string>)
    requires Inv(s) && !s.open
    ensures Inv(DoConnect(s, names))
  {
    var s' := DoConnect(s, names);
    SameHub(s, s');
    hide HubOk, Linked, Of;
    forall name | name !in s'.ended ensures TopicOk(s', name) {
      assert name !in s.ended ==> TopicOk(s, name);
      EmptyTopicOk(s', name);
    }
  }

  lemma KeepsRestart(s: State)
    requires Inv(s)
    ensures Inv(DoRestart(s))
  {
    var s' := DoRestart(s);
    hide Linked, Of, Genuine;
    forall name | name !in s'.ended ensures TopicOk(s', name) {
      assert TopicWF(TopicOf(s.topics, name), name, LogOf(s, name)) && TopicOk(s, name);
      EmptyTopicOk(s', name);
    }
  }

  lemma KeepsForget(s: State, topic: string)
    requires Inv(s)
    ensures Inv(s.(topics := s.topics - {topic}, log := s.log - {topic}, ended := s.ended + {topic}))
  {
    var s' := s.(topics := s.topics - {topic}, log := s.log - {topic}, ended := s.ended + {topic});
    hide Linked, Of;
    assert HubOk(s') by {
      forall name ensures TopicWF(TopicOf(s'.topics, name), name, LogOf(s', name)) {
        assert TopicWF(TopicOf(s.topics, name), name, LogOf(s, name));
      }
    }
    hide HubOk, TopicWF;
    forall name | name !in s'.ended ensures TopicOk(s', name) {
      assert TopicOk(s, name);
      assert Safe(s') == Safe(s) && LogOf(s', name) == LogOf(s, name);
    }
  }

  lemma KeepsFollow(s: State, name: string)
    requires Inv(s)
    ensures Inv(Send(s, SubscribeOp([name], map[])))
  {
    var s' := Send(s, SubscribeOp([name], map[]));
    SameHub(s, s');
    hide HubOk, TopicOk;
    forall n | n !in s'.ended ensures TopicOk(s', n) { SameTopic(s, s', n); }
  }

  lemma UnfollowTopicOk(s: State, s': State, topic: string, name: string)
    requires TopicOk(s, name) && s' == s.(seqs := s.seqs - {topic}, ops := s'.ops)
    ensures TopicOk(s', name)
  {
    assert Safe(s') == Safe(s) && LogOf(s', name) == LogOf(s, name);
    hide Of, Safe, LogOf;
    if name == topic { ChainNone(Exact(s, name), Known(s, name), Of(Safe(s), name)); }
    hide Chain, AllGenuine;
  }

  lemma KeepsUnfollow(s: State, name: string)
    requires Inv(s)
    ensures Inv(Send(s.(seqs := s.seqs - {name}), UnsubscribeOp([name])))
  {
    var s' := Send(s.(seqs := s.seqs - {name}), UnsubscribeOp([name]));
    SameHub(s, s');
    hide HubOk, TopicOk;
    forall n | n !in s'.ended ensures TopicOk(s', n) { UnfollowTopicOk(s, s', name, n); }
  }

  lemma KeepsWrite(s: State)
    requires Inv(s) && s.conn.send != []
    ensures Inv(Apply(s, Write))
  {
    var s' := Apply(s, Write);
    assert Pending(s') == Pending(s);
    SameHub(s, s');
    hide HubOk, Pending;
    forall name | name !in s'.ended ensures TopicOk(s', name) {
      assert TopicOk(s, name) && Safe(s') == Safe(s);
      hide Linked, Of;
    }
  }

  lemma KeepsCut(s: State)
    requires Inv(s) && s.open
    ensures Inv(Update(s, s.conn.(gone := true)))
  {
    var s' := Update(s, s.conn.(gone := true));
    SameHub(s, s');
    hide HubOk;
    forall name | name !in s'.ended ensures TopicOk(s', name) {
      assert TopicOk(s, name);
      UpdateTopicOk(s, s.conn.(gone := true), name);
    }
  }

  lemma Keeps(s: State, a: Action)
    requires Inv(s) && Enabled(s, a)
    ensures Inv(Apply(s, a))
  {
    hide Inv, DoPublish, DoRestart, Close, DoConnect, Send, DoReadOp, Update, DoHandle;
    match a {
      case Publish(name) => KeepsPublish(s, name);
      case Forget(name) => KeepsForget(s, name);
      case Restart => KeepsRestart(s);
      case Connect(names) => KeepsConnect(s, names);
      case Disconnect => KeepsClose(s);
      case Follow(name) => KeepsFollow(s, name);
      case Unfollow(name) => KeepsUnfollow(s, name);
      case ReadOp => KeepsReadOp(s);
      case Write => KeepsWrite(s);
      case Cut => KeepsCut(s);
      case Handle => KeepsHandle(s);
    }
  }

  // -------------------------------------------------------------- whole runs

  /** The state after some actions in a row, if each could happen in its turn. */
  function After(run: seq<Action>): Option<State> {
    if run == [] then Some(INIT)
    else
      var before := After(run[..|run| - 1]);
      if before.Some? && Enabled(before.value, run[|run| - 1]) then Some(Apply(before.value, run[|run| - 1])) else None
  }

  lemma {:induction false} EveryRunKeeps(run: seq<Action>)
    requires After(run).Some?
    ensures Inv(After(run).value)
  {
    hide Inv, Apply, Enabled;
    if run == [] {
      InitOk();
    } else {
      EveryRunKeeps(run[..|run| - 1]);
      Keeps(After(run[..|run| - 1]).value, run[|run| - 1]);
    }
  }

  lemma InitOk()
    ensures Inv(INIT)
  {
  }

  /** The client's number for a topic means that it has every message published
      from where its following began up to that number; only if it came back
      with an old number and has heard nothing since, the following is empty. */
  lemma NothingMissed(run: seq<Action>, name: string)
    requires After(run).Some? && name !in After(run).value.ended && name in After(run).value.seqs
    ensures var s := After(run).value;
            && name in s.base
            && (if name in s.stale then s.base[name] == s.seqs[name] else s.seqs[name] <= |LogOf(s, name)|)
            && forall j | s.base[name] <= j < s.seqs[name] :: LogOf(s, name)[j] in s.done
  {
    EveryRunKeeps(run);
    assert TopicOk(After(run).value, name);
  }

  /** What is on its way to a client whose connection was not ended is numbered
      consecutively from its number on, or from the last notice. Of a topic asked
      for twice in one request, none is skipped. */
  lemma QueueIsConsecutive(run: seq<Action>, name: string, i: nat)
    requires After(run).Some? && name !in After(run).value.ended && !After(run).value.conn.gone
    requires i < |Of(Pending(After(run).value), name)| && Of(Pending(After(run).value), name)[i].kind.Update?
    ensures var s := After(run).value; var q := Of(Pending(s), name);
            && 0 < q[i].seqno <= |LogOf(s, name)| && q[i].data == LogOf(s, name)[q[i].seqno - 1]
            && (name !in s.twice && i > 0 ==> q[i].seqno == q[i - 1].seqno + 1)
            && (name !in s.twice && i == 0 && name in s.seqs ==> q[i].seqno == s.seqs[name] + 1)
            && (i > 0 ==> q[i].seqno <= q[i - 1].seqno + 1)
            && (i == 0 && name in s.seqs ==> q[i].seqno <= s.seqs[name] + 1)
  {
    EveryRunKeeps(run);
    var s := After(run).value;
    hide After;
    var k, q := Known(s, name), Of(Pending(s), name);
    assert TopicOk(s, name) && Safe(s) == Pending(s);
    assert Follows(Exact(s, name), Before(k, q, i), q[i]) && Genuine(q[i], LogOf(s, name));
  }

  /** Of each topic the hub keeps the last messages, as many as it says, and all
      while there are no more. */
  lemma BufferHolds(run: seq<Action>, name: string)
    requires After(run).Some?
    ensures var s := After(run).value;
            var t, log := TopicOf(s.topics, name), LogOf(s, name);
            var most := if name == "node" then 1 else if "camera:" <= name || "job:" <= name then 200 else 1000;
            && |t.buf| == (if |log| < most then |log| else most)
            && forall i | 0 <= i < |t.buf| ::
                 t.buf[i].topic == name && t.buf[i].seqno == |log| - |t.buf| + 1 + i
                 && t.buf[i].data == log[|log| - |t.buf| + i]
  {
    EveryRunKeeps(run);
    var s := After(run).value;
    assert TopicWF(TopicOf(s.topics, name), name, LogOf(s, name));
    hide After, Inv, TopicOf, LogOf, TopicWF;
    BufferIs(TopicOf(s.topics, name), name, LogOf(s, name));
  }

  lemma BufferIs(t: Topic, name: string, log: seq<nat>)
    requires TopicWF(t, name, log)
    ensures var most := if name == "node" then 1 else if "camera:" <= name || "job:" <= name then 200 else 1000;
            && |t.buf| == (if |log| < most then |log| else most)
            && forall i | 0 <= i < |t.buf| ::
                 t.buf[i].topic == name && t.buf[i].seqno == |log| - |t.buf| + 1 + i
                 && t.buf[i].data == log[|log| - |t.buf| + i]
  {
  }

  /** A client that follows a topic and has handled all that was on its way has
      all the topic published since its following began. */
  lemma CaughtUp(run: seq<Action>, name: string)
    requires After(run).Some? && name !in After(run).value.ended && Live(After(run).value, name)
    requires Of(Pending(After(run).value), name) == [] && name in After(run).value.seqs
    ensures var s := After(run).value;
            && s.seqs[name] == TopicOf(s.topics, name).seqno == |LogOf(s, name)|
            && name in s.base && forall j | s.base[name] <= j < |LogOf(s, name)| :: LogOf(s, name)[j] in s.done
  {
    EveryRunKeeps(run);
    var s := After(run).value;
    assert TopicOk(s, name) && Safe(s) == Pending(s);
    assert TopicWF(TopicOf(s.topics, name), name, LogOf(s, name));
  }

  // What a client that was away while a topic began anew gets when it comes back.

  lemma Then(run: seq<Action>, s: State, a: Action, next: State)
    requires After(run) == Some(s) && Enabled(s, a) && Apply(s, a) == next
    ensures After(run + [a]) == Some(next)
  {
    assert (run + [a])[..|run|] == run;
  }

  predicate RisesTo(log: seq<nat>, count: nat) {
    && (forall i, j | 0 <= i < j < |log| :: log[i] < log[j])
    && forall i | 0 <= i < |log| :: log[i] < count
  }

  /** Each published piece of data has a number of its own. */
  ghost predicate Rising(s: State) { forall name :: RisesTo(LogOf(s, name), s.count) }

  lemma LogStep(s: State, a: Action, name: string)
    requires Enabled(s, a)
    ensures var s' := Apply(s, a);
            || (s'.count == s.count && (LogOf(s', name) == [] || LogOf(s', name) == LogOf(s, name)))
            || (s'.count == s.count + 1 &&
                (LogOf(s', name) == LogOf(s, name) || LogOf(s', name) == LogOf(s, name) + [s.count]))
  {
    hide Subscribe, Gained, Begins, Deliver, PublishTopic, Next, Limit, DoPublish, Close, DoReadOp, Send;
    if a.Publish? {
      PublishLogs(s, a.name, name);
      PublishCounts(s, a.name);
    } else if a.ReadOp? {
      ReadLogs(s);
    } else {
      OtherLogs(s, a);
    }
  }

  lemma PublishCounts(s: State, topic: string)
    ensures DoPublish(s, topic).count == s.count + 1
  {
  }

  lemma ReadLogs(s: State)
    requires s.ops != []
    ensures DoReadOp(s).log == s.log && DoReadOp(s).count == s.count
  {
  }

  lemma OtherLogs(s: State, a: Action)
    requires Enabled(s, a) && !a.Publish? && !a.ReadOp?
    ensures Apply(s, a).count == s.count
    ensures forall n | n in Apply(s, a).log :: n in s.log && Apply(s, a).log[n] == s.log[n]
  {
    hide Gained, Begins;
  }

  lemma RisingStep(s: State, a: Action)
    requires Rising(s) && Enabled(s, a)
    ensures Rising(Apply(s, a))
  {
    hide Apply, LogOf, Enabled;
    forall name ensures RisesTo(LogOf(Apply(s, a), name), Apply(s, a).count) {
      assert RisesTo(LogOf(s, name), s.count);
      LogStep(s, a, name);
    }
  }

  lemma {:induction false} DataDiffers(run: seq<Action>)
    requires After(run).Some?
    ensures Rising(After(run).value)
  {
    hide Apply, Enabled;
    if run == [] {
      assert Rising(INIT);
    } else {
      hide Rising;
      DataDiffers(run[..|run| - 1]);
      RisingStep(After(run[..|run| - 1]).value, run[|run| - 1]);
    }
  }

  /** Writing and handling so many messages, one after the other. */
  function Drained(n: nat): seq<Action> { if n == 0 then [] else [Write, Handle] + Drained(n - 1) }

  function Took(s: State, m: Message): State {
    s.(seqs := s.seqs[m.topic := m.seqno], base := Begins(s, m), stale := s.stale - {m.topic})
  }

  function TookAll(s: State, ms: seq<Message>): State
    decreases |ms|
  {
    if ms == [] then s else TookAll(Took(s, ms[0]), ms[1..])
  }

  /** The data the client gets from some messages. */
  function Gains(s: State, ms: seq<Message>): set<nat>
    decreases |ms|
  {
    if ms == [] then {} else Gained(s, ms[0]) + Gains(Took(s, ms[0]), ms[1..])
  }

  lemma {:induction false} GainsOnly(s: State, s': State, ms: seq<Message>)
    requires s'.seqs == s.seqs && s'.log == s.log
    ensures Gains(s', ms) == Gains(s, ms)
    decreases |ms|
  {
    if ms != [] { GainsOnly(Took(s, ms[0]), Took(s', ms[0]), ms[1..]); }
  }

  lemma {:induction false} TookOnly(s: State, s': State, ms: seq<Message>)
    requires s'.seqs == s.seqs && s'.base == s.base && s'.stale == s.stale
    ensures TookAll(s', ms).base == TookAll(s, ms).base && TookAll(s', ms).stale == TookAll(s, ms).stale
    decreases |ms|
  {
    if ms != [] { TookOnly(Took(s, ms[0]), Took(s', ms[0]), ms[1..]); }
  }

  lemma GainedOnly(s: State, s': State, m: Message)
    requires s'.seqs == s.seqs && s'.log == s.log
    ensures Gained(s', m) == Gained(s, m)
  {
  }

  /** One message is written and handled. */
  lemma DrainOne(run: seq<Action>, s: State) returns (s2: State)
    requires After(run) == Some(s) && s.conn.send != [] && s.wire == [] && s.lost == None
    ensures After(run + [Write] + [Handle]) == Some(s2)
    ensures var m := s.conn.send[0];
            && s2.wire == [] && s2.lost == None && s2.conn == s.conn.(send := s.conn.send[1..]) && s2.log == s.log
            && s2.done == s.done + Gained(s, m) && s2.ended == s.ended
            && s2.seqs == Took(s, m).seqs && s2.base == Took(s, m).base && s2.stale == Took(s, m).stale
  {
    hide After, Gained, Begins, Gains;
    var m := s.conn.send[0];
    var s1 := s.(wire := [m], conn := s.conn.(send := s.conn.send[1..]));
    Then(run, s, Write, s1);
    GainedOnly(s, s1, m);
    BeginsOnly(s, s1, m);
    s2 := HandleOne(run + [Write], s1);
  }

  lemma HandleOne(run: seq<Action>, s: State) returns (s2: State)
    requires After(run) == Some(s) && |s.wire| == 1 && s.lost == None
    ensures After(run + [Handle]) == Some(s2)
    ensures var m := s.wire[0];
            && s2.wire == [] && s2.lost == None && s2.conn == s.conn && s2.log == s.log
            && s2.done == s.done + Gained(s, m) && s2.ended == s.ended
            && s2.seqs == s.seqs[m.topic := m.seqno] && s2.base == Begins(s, m) && s2.stale == s.stale - {m.topic}
  {
    hide After, Gained, Begins;
    s2 := DoHandle(s);
    Then(run, s, Handle, s2);
  }

  lemma BeginsOnly(s: State, s': State, m: Message)
    requires s'.seqs == s.seqs && s'.base == s.base
    ensures Begins(s', m) == Begins(s, m)
  {
  }

  lemma {:induction false} Drain(run: seq<Action>, s: State, n: nat)
    requires After(run) == Some(s) && |s.conn.send| == n && s.wire == [] && s.lost == None
    ensures After(run + Drained(n)).Some?
    ensures var s' := After(run + Drained(n)).value;
            && Pending(s') == [] && s'.conn == s.conn.(send := []) && s'.log == s.log
            && s'.done == s.done + Gains(s, s.conn.send) && s'.ended == s.ended
            && s'.base == TookAll(s, s.conn.send).base && s'.stale == TookAll(s, s.conn.send).stale
    decreases n
  {
    hide After, Gained, Took;
    if n == 0 {
      assert run + Drained(0) == run;
    } else {
      var m, rest := s.conn.send[0], s.conn.send[1..];
      var s2 := DrainOne(run, s);
      assert run + [Write] + [Handle] + Drained(n - 1) == run + Drained(n);
      TookKeeps(s, m);
      GainsOnly(Took(s, m), s2, rest);
      TookOnly(Took(s, m), s2, rest);
      Drain(run + [Write] + [Handle], s2, n - 1);
    }
  }

  lemma TookKeeps(s: State, m: Message)
    ensures Took(s, m).log == s.log
  {
  }

  function DataOf(ms: seq<Message>): set<nat> { set i | 0 <= i < |ms| :: ms[i].data }

  lemma {:induction false} GainsOfUpdates(s: State, ms: seq<Message>)
    requires forall i | 0 <= i < |ms| :: ms[i].kind.Update?
    ensures Gains(s, ms) == DataOf(ms)
    decreases |ms|
  {
    if ms != [] {
      GainsOfUpdates(Took(s, ms[0]), ms[1..]);
      forall i | 0 <= i < |ms| ensures ms[i].data in Gains(s, ms) {
        if i > 0 { assert ms[i] == ms[1..][i - 1]; }
      }
      forall d | d in Gains(s, ms) ensures d in DataOf(ms) {
        if d != ms[0].data {
          var i :| 0 <= i < |ms[1..]| && ms[1..][i].data == d;
          assert ms[i + 1].data == d;
        }
      }
    }
  }

  /** When a client with this number comes back, it is told to load the topic
      again, or gets it from the beginning. */
  predicate Restarts(k: nat, t: Topic) { k == 0 || k > t.seqno || k < t.seqno - |t.buf| }

  /** What the opening of a subscription brings to such a client is all that the
      topic has published in this lifetime in exactly these cases. */
  lemma OpeningBringsAllIff(s: State, name: string)
    requires TopicWF(TopicOf(s.topics, name), name, LogOf(s, name)) && name in s.seqs && Rising(s)
    ensures var t, log := TopicOf(s.topics, name), LogOf(s, name);
            (forall j | 0 <= j < |log| :: log[j] in Gains(s, Opening(t, name, s.seqs))) <==> Restarts(s.seqs[name], t)
  {
    var t, log, k := TopicOf(s.topics, name), LogOf(s, name), s.seqs[name];
    var ms := Opening(t, name, s.seqs);
    if k < t.seqno && |t.buf| > 0 && t.buf[0].seqno <= k + 1 {
      ReplayBrings(s, name);
      if k > 0 { assert log[0] !in Gains(s, ms); }
    } else {
      NoticeBrings(s, ms[0]);
      if k > t.seqno || k < t.seqno { assert forall j | 0 <= j < |log| :: log[j] in log[..t.seqno]; }
      if k == t.seqno && k > 0 { assert log[0] !in Gains(s, ms); }
    }
  }

  lemma NoticeBrings(s: State, m: Message)
    ensures Gains(s, [m]) == Gained(s, m)
  {
    assert [m][1..] == [];
  }

  lemma ReplayBrings(s: State, name: string)
    requires TopicWF(TopicOf(s.topics, name), name, LogOf(s, name)) && name in s.seqs && Rising(s)
    requires var t := TopicOf(s.topics, name);
             s.seqs[name] < t.seqno && |t.buf| > 0 && t.buf[0].seqno <= s.seqs[name] + 1
    ensures var log := LogOf(s, name);
            forall j | 0 <= j < |log| ::
              log[j] in Gains(s, Opening(TopicOf(s.topics, name), name, s.seqs)) <==> j >= s.seqs[name]
  {
    hide Missed, Gains, LogOf, TopicOf;
    var t, log, k := TopicOf(s.topics, name), LogOf(s, name), s.seqs[name];
    assert RisesTo(log, s.count);
    var ms := MissedIs(t, name, log, k);
    assert ms == Opening(t, name, s.seqs);
    hide TopicWF, Rising, Opening;
    GainsOfUpdates(s, ms);
    DataFrom(name, log, ms, k, s.count);
  }

  lemma DataFrom(name: string, log: seq<nat>, ms: seq<Message>, k: nat, count: nat)
    requires RisesTo(log, count) && k <= |log| && |ms| == |log| - k
    requires forall i | 0 <= i < |ms| :: ms[i] == Message(name, k + 1 + i, Kind.Update, log[k + i])
    ensures forall j | 0 <= j < |log| :: log[j] in DataOf(ms) <==> j >= k
  {
    forall j | 0 <= j < |log| ensures log[j] in DataOf(ms) <==> j >= k {
      if j >= k {
        assert ms[j - k].data == log[j];
      } else {
        forall i | 0 <= i < |ms| ensures ms[i].data != log[j] { assert log[j] < log[k + i]; }
      }
    }
  }

  lemma {:induction false} UpdatesKeepBase(s: State, ms: seq<Message>, name: string)
    requires name in s.seqs && forall i | 0 <= i < |ms| :: ms[i].topic == name && ms[i].kind.Update?
    ensures TookAll(s, ms).base == s.base && (ms != [] ==> name !in TookAll(s, ms).stale)
    ensures name !in s.stale ==> name !in TookAll(s, ms).stale
    decreases |ms|
  {
    if ms != [] { UpdatesKeepBase(Took(s, ms[0]), ms[1..], name); }
  }

  /** For a client whose following begins again at its number k, the opening
      moves the beginning to the start of the lifetime in these very cases. */
  lemma OpeningBegins(s: State, name: string)
    requires TopicWF(TopicOf(s.topics, name), name, LogOf(s, name)) && name in s.seqs
    requires name in s.base && s.base[name] == s.seqs[name]
    ensures var s' := TookAll(s, Opening(TopicOf(s.topics, name), name, s.seqs));
            && name in s'.base && name !in s'.stale
            && s'.base[name] == if Restarts(s.seqs[name], TopicOf(s.topics, name)) then 0 else s.seqs[name]
  {
    var t, log, k := TopicOf(s.topics, name), LogOf(s, name), s.seqs[name];
    var ms := Opening(t, name, s.seqs);
    if k < t.seqno && |t.buf| > 0 && t.buf[0].seqno <= k + 1 {
      hide Missed;
      assert ms == Missed(t.buf, k);
      var replayed := MissedIs(t, name, log, k);
      hide TookAll, TopicOf, LogOf;
      UpdatesKeepBase(s, ms, name);
    } else {
      assert ms == [ms[0]] && ms[1..] == [];
      assert TookAll(s, ms) == Took(s, ms[0]);
    }
  }

  lemma OneTopic(topics: map<string, Topic>, c: Conn, name: string, since: map<string, nat>)
    ensures Subscribe(topics, c, Limit([name]), since) == SubscribeOne(topics, c, name, since)
  {
    assert Limit([name]) == [name] && [name][..0] == [];
  }

  /** Coming back to one topic. */
  lemma Reopened(run: seq<Action>, s: State, name: string) returns (s2: State)
    requires After(run) == Some(s) && !s.open && s.conn == NEW_CONN && s.wire == [] && s.ops == [] && s.lost == None
    requires ValidTopic(name) && |Opening(TopicOf(s.topics, name), name, s.seqs)| <= WS_QUEUE
    ensures After(run + [Connect([name])] + [ReadOp]) == Some(s2)
    ensures s2.conn == Conn({name}, Opening(TopicOf(s.topics, name), name, s.seqs), false)
    ensures s2.wire == [] && s2.lost == None && s2.seqs == s.seqs && s2.log == s.log && s2.done == s.done
    ensures s2.ended == {} && s2.topics == s.topics
    ensures name in s.ended && name in s.seqs ==> name in s2.base && s2.base[name] == s.seqs[name]
  {
    hide After, Opening, ValidTopic;
    var s1 := DoConnect(s, [name]);
    Then(run, s, Connect([name]), s1);
    s2 := DoReadOp(s1);
    Then(run + [Connect([name])], s1, ReadOp, s2);
    OneTopic(s.topics, NEW_CONN, name, s.seqs);
    var ms := Opening(TopicOf(s.topics, name), name, s.seqs);
    PushAllForm(NEW_CONN.(topics := {} + {name}), ms);
    assert {} + {name} == {name} && [] + ms[..|ms|] == ms;
  }

  /** A client that was away for all that a topic has published in its present
      lifetime comes back with an older number. Once it has handled what its
      subscription queues first, it has all of that data if and only if its
      number is none the new sequence can be taken to go on from. The following
      then begins at the start of this lifetime, and at its number otherwise. */
  lemma ComesBackCompleteIff(run: seq<Action>, name: string)
    requires After(run).Some? && !After(run).value.open && name in After(run).value.seqs && Exists(name)
    requires forall j | 0 <= j < |LogOf(After(run).value, name)| ::
               LogOf(After(run).value, name)[j] !in After(run).value.done
    ensures var s := After(run).value;
            var t, log := TopicOf(s.topics, name), LogOf(s, name);
            var more := [Connect([name]), ReadOp] + Drained(|Opening(t, name, s.seqs)|);
            && After(run + more).Some? && Pending(After(run + more).value) == []
            && Live(After(run + more).value, name)
            && ((forall j | 0 <= j < |log| :: log[j] in After(run + more).value.done) <==> Restarts(s.seqs[name], t))
            && name !in After(run + more).value.ended
            && (name in s.ended ==>
                  && name in After(run + more).value.base && name !in After(run + more).value.stale
                  && After(run + more).value.base[name] == if Restarts(s.seqs[name], t) then 0 else s.seqs[name])
  {
    hide After, Inv, Opening, Gains, TookAll, Rising, TopicWF, Drained, ValidTopic, Exists, Live, Restarts;
    ExistsIffValid(name);
    EveryRunKeeps(run);
    DataDiffers(run);
    var s := After(run).value;
    var t, log := TopicOf(s.topics, name), LogOf(s, name);
    Closed(s, name);
    var ms := Opening(t, name, s.seqs);
    OpeningFitsQueue(t, name, log, s.seqs);
    var s2 := Reopened(run, s, name);
    Drain(run + [Connect([name])] + [ReadOp], s2, |ms|);
    assert run + [Connect([name])] + [ReadOp] + Drained(|ms|) == run + ([Connect([name]), ReadOp] + Drained(|ms|));
    GainsOnly(s, s2, ms);
    OpeningBringsAllIff(s, name);
    if name in s.ended { OpeningBegins(s2, name); }
    NameIsLive(After(run + ([Connect([name]), ReadOp] + Drained(|ms|))).value, name);
  }

  lemma NameIsLive(s: State, name: string)
    ensures Live(s, name) <==> name in s.conn.topics && !s.conn.gone
  {
  }

  lemma Closed(s: State, name: string)
    requires Inv(s) && !s.open
    ensures s.conn == NEW_CONN && s.wire == [] && s.ops == [] && s.lost == None
    ensures TopicWF(TopicOf(s.topics, name), name, LogOf(s, name))
  {
  }

  lemma OpeningFitsQueue(t: Topic, name: string, log: seq<nat>, since: map<string, nat>)
    requires TopicWF(t, name, log)
    ensures |Opening(t, name, since)| <= WS_QUEUE
  {
    if name in since && since[name] < t.seqno && |t.buf| > 0 && t.buf[0].seqno <= since[name] + 1 {
      assert t.buf[..|t.buf|] == t.buf;
      MissedIsTail(t, name, log, since[name], |t.buf|);
    }
  }

  // A restart of the node can hide messages from a client that was away: its old
  // number falls into the new sequence.

  function Event(n: nat, data: nat): Message { Message("events", n, Kind.Update, data) }

  const FOLLOWING := INIT.(conn := Conn({"events"}, [], false), open := true, seqs := map["events" := 0],
                           base := map["events" := 0])

  const RESTARTED := INIT.(seqs := map["events" := 1], done := {1}, base := map["events" := 0], ended := {"events"},
                           count := 2)

  lemma BeginsFollowing() returns (run: seq<Action>)
    ensures After(run) == Some(FOLLOWING)
  {
    run := [];
    assert After(run) == Some(INIT);
    hide After;
    var names := ["events"];
    var s1 := INIT.(ops := [SubscribeOp(names, map[])], open := true);
    Then(run, INIT, Connect(names), s1);
    run := run + [Connect(names)];
    var notice := Notice("events", 0, Subscribed);
    var s2 := s1.(ops := [], conn := Conn({"events"}, [notice], false));
    OnePush(Conn({"events"}, [], false), notice);
    OneTopic(map[], NEW_CONN, "events", map[]);
    Then(run, s1, ReadOp, s2);
    run := run + [ReadOp];
    Then(run, s2, Write, s2.(wire := [notice], conn := FOLLOWING.conn));
    run := run + [Write];
    Then(run, s2.(wire := [notice], conn := FOLLOWING.conn), Handle, FOLLOWING);
    run := run + [Handle];
  }

  lemma FirstMessage(s: State)
    requires LogOf(s, "events") == [] && TopicOf(s.topics, "events") == NEW_TOPIC
    requires s.topics == map[] && s.log == map[] && !s.conn.gone
    ensures var s' := DoPublish(s, "events");
            && s'.topics == map["events" := Topic(1, [Event(1, s.count)])] && s'.log == map["events" := [s.count]]
            && s'.conn == Deliver(s.conn, Event(1, s.count))
  {
    assert [] + [Event(1, s.count)] == [Event(1, s.count)] && LogOf(s, "events") + [s.count] == [s.count];
    assert PublishTopic(NEW_TOPIC, "events", s.count) == Topic(1, [Event(1, s.count)]);
  }

  lemma HandlesOne() returns (run: seq<Action>)
    ensures After(run) == Some(FOLLOWING.(topics := map["events" := Topic(1, [Event(1, 1)])],
                                      log := map["events" := [1]],
                                          seqs := map["events" := 1], done := {1}, count := 2))
  {
    run := BeginsFollowing();
    hide After;
    var s1 := FOLLOWING.(topics := map["events" := Topic(1, [Event(1, 1)])], log := map["events" := [1]], count := 2,
                         conn := Conn({"events"}, [Event(1, 1)], false));
    FirstMessage(FOLLOWING);
    Then(run, FOLLOWING, Publish("events"), s1);
    run := run + [Publish("events")];
    var s2 := s1.(conn := FOLLOWING.conn, wire := [Event(1, 1)]);
    Then(run, s1, Write, s2);
    run := run + [Write];
    Then(run, s2, Handle, s2.(wire := [], seqs := map["events" := 1], done := {1}));
    run := run + [Handle];
  }

  lemma NodeRestarts() returns (run: seq<Action>)
    ensures After(run) == Some(RESTARTED)
  {
    run := HandlesOne();
    hide After;
    var s := FOLLOWING.(topics := map["events" := Topic(1, [Event(1, 1)])], log := map["events" := [1]],
                        seqs := map["events" := 1], done := {1}, count := 2);
    Then(run, s, Disconnect, Close(s));
    run := run + [Disconnect];
    Then(run, Close(s), Restart, RESTARTED);
    run := run + [Restart];
  }

  lemma PublishedAgain() returns (run: seq<Action>)
    ensures After(run) == Some(RESTARTED.(topics := map["events" := Topic(2, [Event(1, 2), Event(2, 3)])],
                                          log := map["events" := [2, 3]], count := 4))
  {
    run := NodeRestarts();
    hide After;
    var s := RESTARTED.(topics := map["events" := Topic(1, [Event(1, 2)])], log := map["events" := [2]], count := 3);
    FirstMessage(RESTARTED);
    Then(run, RESTARTED, Publish("events"), s);
    run := run + [Publish("events")];
    assert [2] + [3] == [2, 3] && [Event(1, 2)] + [Event(2, 3)] == [Event(1, 2), Event(2, 3)];
    Then(run, s, Publish("events"), RESTARTED.(topics := map["events" := Topic(2, [Event(1, 2), Event(2, 3)])],
                                               log := map["events" := [2, 3]], count := 4));
    run := run + [Publish("events")];
  }

  lemma MissedSecond()
    ensures Missed([Event(1, 2), Event(2, 3)], 1) == [Event(2, 3)]
  {
    assert [Event(1, 2), Event(2, 3)][..1] == [Event(1, 2)] && [Event(1, 2)][..0] == [];
  }

  const AWAY := RESTARTED.(topics := map["events" := Topic(2, [Event(1, 2), Event(2, 3)])],
                           log := map["events" := [2, 3]], count := 4)

  /** Back, with its number taken for one of the new sequence. */
  const BACK := AWAY.(open := true, base := map["events" := 1], ended := {}, stale := {"events"})

  lemma ConnectsAgain() returns (run: seq<Action>)
    ensures After(run) == Some(BACK.(ops := [SubscribeOp(["events"], map["events" := 1])]))
  {
    run := PublishedAgain();
    hide After;
    var names := ["events"];
    var s1 := BACK.(ops := [SubscribeOp(names, map["events" := 1])]);
    assert DoConnect(AWAY, names).base == s1.base && DoConnect(AWAY, names).stale == s1.stale;
    assert DoConnect(AWAY, names).twice == s1.twice;
    Then(run, AWAY, Connect(names), s1);
    run := run + [Connect(names)];
  }

  lemma Reconnected() returns (run: seq<Action>)
    ensures After(run) == Some(BACK.(conn := Conn({"events"}, [Event(2, 3)], false)))
  {
    run := ConnectsAgain();
    hide After;
    var since := map["events" := 1];
    var s1 := BACK.(ops := [SubscribeOp(["events"], since)]);
    OneTopic(s1.topics, NEW_CONN, "events", since);
    MissedSecond();
    OnePush(Conn({"events"}, [], false), Event(2, 3));
    Then(run, s1, ReadOp, s1.(ops := [], conn := Conn({"events"}, [Event(2, 3)], false)));
    run := run + [ReadOp];
  }

  /** The client ends up with the number of the last message, and without the
      first one: for it, the new sequence began at its old number. */
  lemma RestartHidesMessages() returns (run: seq<Action>)
    ensures After(run).Some?
    ensures var s := After(run).value;
            && Live(s, "events") && Pending(s) == [] && s.seqs == map["events" := 2] && LogOf(s, "events") == [2, 3]
            && s.base == map["events" := 1] && 2 !in s.done
  {
    run := Reconnected();
    hide After;
    var s2 := BACK.(conn := Conn({"events"}, [Event(2, 3)], false));
    var s3 := s2.(conn := FOLLOWING.conn, wire := [Event(2, 3)]);
    Then(run, s2, Write, s3);
    run := run + [Write];
    Then(run, s3, Handle, s3.(wire := [], seqs := map["events" := 2], done := {1, 3}, stale := {}));
    run := run + [Handle];
  }
}
