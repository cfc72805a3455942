/**
 Live updates: the hub that numbers the messages of every topic and keeps the
 last ones, the WebSocket connections it pushes them to, and the panel's client
 that remembers how far it got.
 */
module Hub {
  import opened Common

  /** An update of the topic, or one of the two notices a subscription gets. */
  datatype Kind = Update | Subscribed | Resync

  datatype Message = Message(topic: string, seqno: nat, kind: Kind, data: nat)

  datatype Topic = Topic(seqno: nat, buf: seq<Message>)

  /** One connection: what it subscribed to, what is queued, and whether it has
      been ended. */
  datatype Conn = Conn(topics: set<string>, send: seq<Message>, gone: bool)

  const WS_QUEUE: nat := 4096
  const MAX_TOPICS: nat := 256
  const NEW_TOPIC := Topic(0, [])
  const NEW_CONN := Conn({}, [], false)

  predicate HasPrefix(s: string, prefix: string) { prefix <= s }

  function BufferSize(topic: string): (n: nat)
    ensures n >= 1
  {
    if topic == "node" then 1
    else if HasPrefix(topic, "camera:") || HasPrefix(topic, "job:") then 200
    else 1000
  }

  predicate ValidID(id: string) { |id| == 26 && forall c | c in id :: '0' <= c <= '9' || 'A' <= c <= 'Z' }

  predicate ValidTopic(name: string) {
    || name in {"node", "cameras", "events", "profiles", "audit", "jobs"}
    || (HasPrefix(name, "camera:") && ValidID(name[7..])) || (HasPrefix(name, "job:") && ValidID(name[4..]))
  }

  function TopicOf(topics: map<string, Topic>, name: string): Topic {
    if name in topics then topics[name] else NEW_TOPIC
  }

  // --------------------------------------------------------------- operations

  function Tail(s: seq<Message>, max: nat): seq<Message> { if |s| > max then s[|s| - max..] else s }

  function Next(t: Topic, name: string, data: nat): Message { Message(name, t.seqno + 1, Update, data) }

  function PublishTopic(t: Topic, name: string, data: nat): Topic {
    Topic(t.seqno + 1, Tail(t.buf + [Next(t, name, data)], BufferSize(name)))
  }

  /** A notice carries no data. */
  function Notice(name: string, seqno: nat, kind: Kind): Message { Message(name, seqno, kind, 0) }

  /** Queues a message; a connection that is too slow is ended instead. */
  function Push(c: Conn, m: Message): Conn {
    if |c.send| < WS_QUEUE then c.(send := c.send + [m]) else c.(gone := true)
  }

  function PushAll(c: Conn, ms: seq<Message>): Conn {
    if ms == [] then c else Push(PushAll(c, ms[..|ms| - 1]), ms[|ms| - 1])
  }

  function Deliver(c: Conn, m: Message): Conn { if m.topic in c.topics then Push(c, m) else c }

  predicate Accepts(c: Conn, name: string) { name in c.topics || |c.topics| < MAX_TOPICS }

  function Missed(buf: seq<Message>, last: nat): seq<Message> {
    if buf == [] then []
    else
      var front := Missed(buf[..|buf| - 1], last);
      if buf[|buf| - 1].seqno > last then front + [buf[|buf| - 1]] else front
  }

  /** What a subscription queues first. */
  function Opening(t: Topic, name: string, since: map<string, nat>): seq<Message> {
    if name !in since || since[name] >= t.seqno then [Notice(name, t.seqno, Subscribed)]
    else if |t.buf| > 0 && t.buf[0].seqno <= since[name] + 1 then Missed(t.buf, since[name])
    else [Notice(name, t.seqno, Resync)]
  }

  function SubscribeOne(topics: map<string, Topic>, c: Conn, name: string, since: map<string, nat>): Conn {
    if ValidTopic(name) && Accepts(c, name)
    then PushAll(c.(topics := c.topics + {name}), Opening(TopicOf(topics, name), name, since))
    else c
  }

  function Subscribe(topics: map<string, Topic>, c: Conn, names: seq<string>, since: map<string, nat>): Conn {
    if names == [] then c
    else SubscribeOne(topics, Subscribe(topics, c, names[..|names| - 1], since), names[|names| - 1], since)
  }

  /** What the panel's client does with a message: its new number for the topic,
      and whether it loads the topic's data again. */
  predicate Reloads(seqs: map<string, nat>, m: Message) {
    m.kind.Resync? || (m.kind.Subscribed? && m.topic in seqs && seqs[m.topic] != m.seqno)
  }

  // ------------------------------------------------------------------ classes

  class WsClient {
    var topics: set<string>
    var send: seq<Message>
    var gone: bool

    ghost function State(): Conn
      reads this
    {
      Conn(topics, send, gone)
    }

    constructor ()
      ensures State() == NEW_CONN
    {
      topics, send, gone := {}, [], false;
    }

    method End()
      modifies this`gone
      ensures State() == old(State()).(gone := true)
    {
      gone := true;
    }

    method PushMessage(m: Message)
      modifies this`send, this`gone
      ensures State() == Push(old(State()), m)
    {
      if |send| < WS_QUEUE { send := send + [m]; } else { End(); }
    }

    method AddTopic(name: string) returns (ok: bool)
      modifies this`topics
      ensures ok == Accepts(old(State()), name)
      ensures State() == if ok then old(State()).(topics := old(topics) + {name}) else old(State())
    {
      if name !in topics && |topics| >= MAX_TOPICS { return false; }
      topics := topics + {name};
      return true;
    }

    method RemoveTopic(name: string)
      modifies this`topics
      ensures State() == old(State()).(topics := old(topics) - {name})
    {
      topics := topics - {name};
    }
  }

  class Server {
    var topics: map<string, Topic>
    var clients: set<WsClient>

    constructor ()
      ensures topics == map[] && clients == {}
    {
      topics, clients := map[], {};
    }

    method Add(c: WsClient)
      modifies this`clients
      ensures clients == old(clients) + {c}
    {
      clients := clients + {c};
    }

    method Remove(c: WsClient)
      modifies this`clients
      ensures clients == old(clients) - {c}
    {
      clients := clients - {c};
    }

    /** Numbers a message, keeps it, and queues it to whoever subscribed. */
    method Publish(name: string, data: nat)
      modifies this`topics, clients
      ensures topics == old(topics)[name := PublishTopic(TopicOf(old(topics), name), name, data)]
      ensures forall c | c in clients ::
                c.State() == Deliver(old(c.State()), Next(TopicOf(old(topics), name), name, data))
    {
      var t := if name in topics then topics[name] else NEW_TOPIC;
      var msg := Message(name, t.seqno + 1, Update, data);
      var buf := t.buf + [msg];
      var max := BufferSize(name);
      if |buf| > max { buf := buf[|buf| - max..]; }
      topics := topics[name := Topic(t.seqno + 1, buf)];
      var left := clients;
      while left != {}
        invariant left <= clients && topics == old(topics)[name := Topic(t.seqno + 1, buf)]
        invariant forall c | c in clients ::
                    c.State() == if c in left then old(c.State()) else Deliver(old(c.State()), msg)
        decreases left
      {
        var c :| c in left;
        if name in c.topics { c.PushMessage(msg); }
        left := left - {c};
      }
    }

    method Forget(name: string)
      modifies this`topics
      ensures topics == old(topics) - {name}
    {
      topics := topics - {name};
    }

    /** Registers topics for a client and queues what it must receive first. */
    method SubscribeClient(c: WsClient, names: seq<string>, since: map<string, nat>)
      modifies c
      ensures c.State() == Subscribe(topics, old(c.State()), names, since)
    {
      for i := 0 to |names|
        invariant c.State() == Subscribe(topics, old(c.State()), names[..i], since)
      {
        var name := names[i];
        assert names[..i + 1][..i] == names[..i];
        label Before:
        if ValidTopic(name) {
          var ok := c.AddTopic(name);
          if ok { Open(c, name, since); }
        }
        assert c.State() == SubscribeOne(topics, old@Before(c.State()), name, since);
      }
      assert names[..|names|] == names;
    }

    method Open(c: WsClient, name: string, since: map<string, nat>)
      modifies c
      ensures c.State() == PushAll(old(c.State()), Opening(TopicOf(topics, name), name, since))
    {
      var t := if name in topics then topics[name] else NEW_TOPIC;
      ghost var before := c.State();
      if name !in since || since[name] >= t.seqno {
        OnePush(c.State(), Notice(name, t.seqno, Subscribed));
        c.PushMessage(Notice(name, t.seqno, Subscribed));
      } else if |t.buf| > 0 && t.buf[0].seqno <= since[name] + 1 {
        for i := 0 to |t.buf|
          invariant c.State() == PushAll(before, Missed(t.buf[..i], since[name]))
        {
          assert t.buf[..i + 1][..i] == t.buf[..i];
          PushOneMore(before, Missed(t.buf[..i], since[name]), t.buf[i]);
          if t.buf[i].seqno > since[name] { c.PushMessage(t.buf[i]); }
        }
        assert t.buf[..|t.buf|] == t.buf;
      } else {
        OnePush(c.State(), Notice(name, t.seqno, Resync));
        c.PushMessage(Notice(name, t.seqno, Resync));
      }
    }
  }

  // ------------------------------------------------- what can be followed

  /** The topics there are: six fixed ones, and one for each camera and each job,
      whose IDs are 26 digits and capital letters. */
  ghost predicate Exists(name: string) {
    || name == "cameras" || name == "events" || name == "node"
    || name == "profiles" || name == "audit" || name == "jobs"
    || exists id: string ::
         && |id| == 26 && (forall i | 0 <= i < 26 :: '0' <= id[i] <= '9' || 'A' <= id[i] <= 'Z')
         && (name == "camera:" + id || name == "job:" + id)
  }

  lemma ValidIDAt(id: string)
    ensures ValidID(id) <==> |id| == 26 && forall i | 0 <= i < 26 :: '0' <= id[i] <= '9' || 'A' <= id[i] <= 'Z'
  {
    if ValidID(id) { assert forall i | 0 <= i < 26 :: id[i] in id; }
  }

  lemma ExistsIffValid(name: string)
    ensures Exists(name) <==> ValidTopic(name)
  {
    hide ValidID;
    if ValidTopic(name) { ValidExists(name); }
    forall id: string |
      && |id| == 26 && (forall i | 0 <= i < 26 :: '0' <= id[i] <= '9' || 'A' <= id[i] <= 'Z')
      && (name == "camera:" + id || name == "job:" + id)
      ensures ValidTopic(name)
    {
      ValidIDAt(id);
      assert name == "camera:" + id ==> name[7..] == id;
      assert name == "job:" + id ==> name[4..] == id;
    }
  }

  lemma ValidExists(name: string)
    requires ValidTopic(name)
    ensures Exists(name)
  {
    hide ValidID;
    if "camera:" <= name {
      ValidIDAt(name[7..]);
      assert name == "camera:" + name[7..];
    }
    if "job:" <= name {
      ValidIDAt(name[4..]);
      assert name == "job:" + name[4..];
    }
  }

  lemma {:induction false} PushAllKeepsTopics(c: Conn, ms: seq<Message>)
    ensures PushAll(c, ms).topics == c.topics
    ensures |c.send| + |ms| <= WS_QUEUE ==> PushAll(c, ms) == c.(send := c.send + ms)
  {
    if ms != [] {
      PushAllKeepsTopics(c, ms[..|ms| - 1]);
      assert c.send + ms[..|ms| - 1] + [ms[|ms| - 1]] == c.send + ms;
    } else {
      assert c.send + ms == c.send;
    }
  }

  /** A request for any topics adds those there are, and no others, until the
      client follows as many as it may. */
  lemma {:induction false} RequestAddsTopics(topics: map<string, Topic>, c: Conn, names: seq<string>,
                                             since: map<string, nat>)
    ensures var c' := Subscribe(topics, c, names, since);
            && c.topics <= c'.topics && (|c.topics| <= MAX_TOPICS ==> |c'.topics| <= MAX_TOPICS)
            && (forall n | n in c'.topics :: n in c.topics || (n in names && Exists(n)))
            && (forall n | n in names && Exists(n) :: n in c'.topics || |c'.topics| >= MAX_TOPICS)
            && ((forall n | n in names :: !Exists(n)) ==> c' == c)
    decreases |names|
  {
    hide ValidTopic, Exists, Opening;
    if names != [] {
      var front, n := names[..|names| - 1], names[|names| - 1];
      assert names == front + [n];
      RequestAddsTopics(topics, c, front, since);
      ExistsIffValid(n);
      var d, d' := Subscribe(topics, c, front, since), Subscribe(topics, c, names, since);
      assert d' == SubscribeOne(topics, d, n, since);
      PushAllKeepsTopics(d.(topics := d.topics + {n}), Opening(TopicOf(topics, n), n, since));
      SubsetCard(d.topics, d'.topics);
    }
  }

  /** Asking for one topic there is leaves a client with room following it, its
      opening queued behind what was. */
  lemma RequestIsGranted(topics: map<string, Topic>, c: Conn, name: string, since: map<string, nat>)
    requires Exists(name) && |c.topics| < MAX_TOPICS
    requires |c.send| + |Opening(TopicOf(topics, name), name, since)| <= WS_QUEUE
    ensures Subscribe(topics, c, [name], since) ==
            Conn(c.topics + {name}, c.send + Opening(TopicOf(topics, name), name, since), c.gone)
  {
    ExistsIffValid(name);
    hide ValidTopic, Exists, Opening;
    assert [name][..0] == [];
    PushAllKeepsTopics(c.(topics := c.topics + {name}), Opening(TopicOf(topics, name), name, since));
  }

  lemma OnePush(c: Conn, m: Message)
    ensures PushAll(c, [m]) == Push(c, m)
  {
    assert [m][..0] == [];
  }

  lemma PushOneMore(c: Conn, ms: seq<Message>, m: Message)
    ensures PushAll(c, ms + [m]) == Push(PushAll(c, ms), m)
  {
    assert (ms + [m])[..|ms|] == ms;
  }

  /** The panel's client: it keeps the last number of every topic. */
  class LiveClient {
    var seqs: map<string, nat>

    constructor ()
      ensures seqs == map[]
    {
      seqs := map[];
    }

    method UnsubscribeTopic(name: string)
      modifies this
      ensures seqs == old(seqs) - {name}
    {
      seqs := seqs - {name};
    }

    method Handle(m: Message) returns (reload: bool)
      modifies this
      ensures seqs == old(seqs)[m.topic := m.seqno] && reload == Reloads(old(seqs), m)
    {
      reload := false;
      if m.kind == Subscribed {
        var known := m.topic in seqs;
        var prev: nat := if known then seqs[m.topic] else 0;
        seqs := seqs[m.topic := m.seqno];
        if known && prev != m.seqno { reload := true; }
        return;
      }
      seqs := seqs[m.topic := m.seqno];
      if m.kind == Resync { reload := true; }
    }
  }
}
