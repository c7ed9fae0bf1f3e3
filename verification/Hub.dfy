/** The notification hub: a set of bounded client channels under a mutex, and the handlers that
    register, read, deregister and close them. */
module Hub {
  import opened Schema

  const CAPACITY := 16

  type Message = string

  /** A non-blocking send: the message is dropped when the buffer is full. */
  function Offered(buf: seq<Message>, msg: Message): seq<Message> {
    if |buf| < CAPACITY then buf + [msg] else buf
  }

  class Channel {
    var buf: seq<Message>
    var closed: bool

    constructor ()
      ensures buf == [] && !closed
    {
      buf := [];
      closed := false;
    }

    /** A send on a closed channel would panic. */
    method TrySend(msg: Message)
      requires !closed
      modifies this`buf
      ensures buf == Offered(old(buf), msg)
    {
      if |buf| < CAPACITY {
        buf := buf + [msg];
      }
    }

    method Receive() returns (msg: Message)
      requires buf != []
      modifies this`buf
      ensures [msg] + buf == old(buf)
    {
      msg := buf[0];
      buf := buf[1..];
    }

    /** A second close would panic. */
    method Close()
      requires !closed
      modifies this`closed
      ensures closed
    {
      closed := true;
    }
  }

  class NotificationHub {
    var clients: set<Channel>

    constructor ()
      ensures Valid() && clients == {}
    {
      clients := {};
    }

    /** Every channel in the set is open. */
    ghost predicate Valid()
      reads this, clients
    {
      forall c :: c in clients ==> !c.closed && |c.buf| <= CAPACITY
    }

    method Register() returns (ch: Channel)
      requires Valid()
      modifies this
      ensures Valid() && fresh(ch) && ch.buf == [] && clients == old(clients) + {ch}
    {
      ch := new Channel();
      clients := clients + {ch};
    }

    /** The handler's exit: the channel leaves the set before it is closed. */
    method Leave(ch: Channel)
      requires Valid() && ch in clients
      modifies this, ch`closed
      ensures Valid() && clients == old(clients) - {ch} && ch.closed
    {
      clients := clients - {ch};
      ch.Close();
    }

    /** Every client is offered the message once, in whatever order the set is walked. */
    method Notify(msg: Message)
      requires Valid()
      modifies clients
      ensures Valid()
      ensures forall c :: c in clients ==>
                c.buf == if |old(c.buf)| < 16 then old(c.buf) + [msg] else old(c.buf)
    {
      var rest := clients;
      while rest != {}
        invariant rest <= clients
        invariant forall c :: c in clients ==> !c.closed
        invariant forall c :: c in clients ==> c.buf == if c in rest then old(c.buf) else Offered(old(c.buf), msg)
        decreases rest
      {
        var c :| c in rest;
        c.TrySend(msg);
        rest := rest - {c};
      }
    }
  }

  /** A handler's progress: registered, out of the set, channel closed. */
  datatype Phase = Open | Left | Closed

  /** A handler and its channel. `since` and `until` delimit the part of the history it has been
      offered, and `room` says for each of those messages whether its buffer had room. */
  datatype Client = Client(phase: Phase, buf: seq<Message>, read: seq<Message>, since: nat, until: nat, room: seq<bool>)

  /** A Notify that holds the mutex, and the clients it has still to visit. */
  datatype Sending = Sending(msg: Message, rest: set<int>)

  datatype State = State(clients: map<int, Client>, lock: Option<Sending>, history: seq<Message>, panicked: bool)

  const START := State(map[], None, [], false)

  datatype Label =
    | Join(id: int)
    | Begin(msg: Message)     // Notify takes the mutex
    | Send(id: int)           // and visits one client
    | End                     // and releases it
    | Read(id: int)
    | Depart(id: int)         // the deferred delete
    | Shut(id: int)           // and the close after it

  function OpenIds(clients: map<int, Client>): set<int> {
    set id | id in clients && clients[id].phase.Open?
  }

  function Visit(c: Client, msg: Message): Client {
    c.(buf := Offered(c.buf, msg), until := c.until + 1, room := c.room + [|c.buf| < CAPACITY])
  }

  function Next(s: State, l: Label): Option<State> {
    match l
    case Join(id) =>
      if s.lock.Some? || id in s.clients then None
      else Some(s.(clients := s.clients[id := Client(Open, [], [], |s.history|, |s.history|, [])]))
    case Begin(msg) =>
      if s.lock.Some? then None
      else Some(s.(lock := Some(Sending(msg, OpenIds(s.clients))), history := s.history + [msg]))
    case Send(id) =>
      if s.lock.None? || id !in s.lock.value.rest || id !in s.clients then None
      else if s.clients[id].phase.Closed? then Some(s.(panicked := true))
      else
        Some(s.(clients := s.clients[id := Visit(s.clients[id], s.lock.value.msg)],
                lock := Some(s.lock.value.(rest := s.lock.value.rest - {id}))))
    case End =>
      if s.lock.None? || s.lock.value.rest != {} then None else Some(s.(lock := None))
    case Read(id) =>
      if id !in s.clients || !s.clients[id].phase.Open? || s.clients[id].buf == [] then None
      else
        var c := s.clients[id];
        Some(s.(clients := s.clients[id := c.(buf := c.buf[1..], read := c.read + [c.buf[0]])]))
    case Depart(id) =>
      if s.lock.Some? || id !in s.clients || !s.clients[id].phase.Open? then None
      else Some(s.(clients := s.clients[id := s.clients[id].(phase := Left)]))
    case Shut(id) =>
      if id !in s.clients || !s.clients[id].phase.Left? then None
      else Some(s.(clients := s.clients[id := s.clients[id].(phase := Closed)]))
  }

  function Run(s: State, ls: seq<Label>): Option<State>
    decreases |ls|
  {
    if ls == [] then Some(s)
    else if Next(s, ls[0]).None? then None
    else Run(Next(s, ls[0]).value, ls[1..])
  }

  ghost predicate Reachable(s: State) {
    exists ls :: Run(START, ls) == Some(s)
  }

  /** The messages whose flag is set. */
  function Kept(msgs: seq<Message>, room: seq<bool>): seq<Message>
    requires |msgs| == |room|
  {
    if msgs == [] then []
    else
      var n := |msgs| - 1;
      Kept(msgs[..n], room[..n]) + (if room[n] then [msgs[n]] else [])
  }

  ghost predicate ClientInv(s: State, id: int)
    requires id in s.clients
  {
    var c := s.clients[id];
    && |c.buf| <= CAPACITY
    && c.since <= c.until <= |s.history| && |c.room| == c.until - c.since
    && c.read + c.buf == Kept(s.history[c.since..c.until], c.room)
    && (c.phase.Open? ==> c.until == if s.lock.Some? && id in s.lock.value.rest then |s.history| - 1 else |s.history|)
  }

  ghost predicate HubInv(s: State) {
    && !s.panicked
    && (forall id :: id in s.clients ==> ClientInv(s, id))
    && (s.lock.Some? ==>
          && |s.history| > 0 && s.history[|s.history| - 1] == s.lock.value.msg
          && forall id :: id in s.lock.value.rest ==> id in s.clients && s.clients[id].phase.Open?)
  }

  lemma KeptMore(msgs: seq<Message>, room: seq<bool>, msg: Message, r: bool)
    requires |msgs| == |room|
    ensures Kept(msgs + [msg], room + [r]) == Kept(msgs, room) + (if r then [msg] else [])
  {
  }

  lemma VisitKeeps(s: State, s': State, id: int)
    requires HubInv(s) && Next(s, Send(id)) == Some(s')
    ensures ClientInv(s', id)
  {
    var c := s.clients[id];
    var h := s.history;
    assert h[c.since..c.until + 1] == h[c.since..c.until] + [h[c.until]];
    KeptMore(h[c.since..c.until], c.room, h[c.until], |c.buf| < CAPACITY);
  }

  lemma BeginKeeps(s: State, s': State, msg: Message, id: int)
    requires HubInv(s) && Next(s, Begin(msg)) == Some(s') && id in s.clients
    ensures ClientInv(s', id)
  {
    var c := s.clients[id];
    assert s'.history[c.since..c.until] == s.history[c.since..c.until];
  }

  lemma ReadKeeps(s: State, s': State, id: int)
    requires HubInv(s) && Next(s, Read(id)) == Some(s')
    ensures ClientInv(s', id)
  {
  }

  lemma ClientKeeps(s: State, l: Label, s': State, id: int)
    requires HubInv(s) && Next(s, l) == Some(s') && id in s'.clients
    ensures ClientInv(s', id)
  {
    if l.Begin? {
      BeginKeeps(s, s', l.msg, id);
    } else if l == Send(id) {
      VisitKeeps(s, s', id);
    } else if l == Read(id) {
      ReadKeeps(s, s', id);
    } else if l != Join(id) {
      assert ClientInv(s, id);
    }
  }

  lemma LockKeeps(s: State, l: Label, s': State)
    requires HubInv(s) && Next(s, l) == Some(s')
    ensures !s'.panicked
    ensures s'.lock.Some? ==>
              && |s'.history| > 0 && s'.history[|s'.history| - 1] == s'.lock.value.msg
              && forall id :: id in s'.lock.value.rest ==> id in s'.clients && s'.clients[id].phase.Open?
  {
  }

  lemma NextKeeps(s: State, l: Label, s': State)
    requires HubInv(s) && Next(s, l) == Some(s')
    ensures HubInv(s')
  {
    LockKeeps(s, l, s');
    forall id | id in s'.clients
      ensures ClientInv(s', id)
    {
      ClientKeeps(s, l, s', id);
    }
  }

  lemma {:induction false} RunKeeps(s: State, ls: seq<Label>, s': State)
    requires HubInv(s) && Run(s, ls) == Some(s')
    ensures HubInv(s')
    decreases |ls|
  {
    if ls != [] {
      NextKeeps(s, ls[0], Next(s, ls[0]).value);
      RunKeeps(Next(s, ls[0]).value, ls[1..], s');
    }
  }

  lemma ReachableInv(s: State)
    requires Reachable(s)
    ensures HubInv(s)
  {
    var ls :| Run(START, ls) == Some(s);
    RunKeeps(START, ls, s);
  }

  /** Over all interleavings of notifications, registrations, reads and disconnections: no send
      hits a closed channel, no buffer exceeds its capacity, and what a client has read and
      has buffered is, in order, what it was offered while it was registered, less the
      messages that found its buffer full. */
  lemma HubSafety(s: State, id: int)
    requires Reachable(s) && id in s.clients
    ensures !s.panicked
    ensures |s.clients[id].buf| <= 16
    ensures var c := s.clients[id];
            && c.since <= c.until <= |s.history| && |c.room| == c.until - c.since
            && c.read + c.buf == Kept(s.history[c.since..c.until], c.room)
    ensures s.clients[id].phase.Open? && s.lock.None? ==> s.clients[id].until == |s.history|
  {
    ReachableInv(s);
    assert ClientInv(s, id);
  }

  /** Registered and not yet out of the set. */
  predicate Inside(s: State, id: int) {
    id in s.clients && s.clients[id].phase.Open?
  }

  /** The messages of a run's Notify calls that take the mutex after the client's registration and
      before its departure. */
  function Meanwhile(ls: seq<Label>, id: int, inside: bool): seq<Message> {
    if ls == [] then []
    else
      (if inside && ls[0].Begin? then [ls[0].msg] else []) +
      Meanwhile(ls[1..], id, (inside || ls[0] == Join(id)) && ls[0] != Depart(id))
  }

  /** The client's part of the history ends where it left, or not yet. */
  function SpanEnd(s: State, id: int): nat
    requires id in s.clients
  {
    if s.clients[id].phase.Open? then |s.history| else s.clients[id].until
  }

  ghost function Span(s: State, id: int): seq<Message> {
    if id in s.clients && s.clients[id].since <= SpanEnd(s, id) <= |s.history| then
      s.history[s.clients[id].since..SpanEnd(s, id)]
    else []
  }

  lemma InsideStep(s: State, l: Label, s': State, id: int)
    requires Next(s, l) == Some(s')
    ensures Inside(s', id) == ((Inside(s, id) || l == Join(id)) && l != Depart(id))
  {
  }

  lemma BeginSpan(s: State, s': State, msg: Message, id: int)
    requires HubInv(s) && Next(s, Begin(msg)) == Some(s')
    ensures Span(s', id) == Span(s, id) + (if Inside(s, id) then [msg] else [])
  {
    if id in s.clients {
      assert ClientInv(s, id);
    }
  }

  lemma OtherSpan(s: State, l: Label, s': State, id: int)
    requires HubInv(s) && Next(s, l) == Some(s') && !l.Begin?
    ensures Span(s', id) == Span(s, id)
  {
    if id in s.clients {
      assert ClientInv(s, id);
      assert s'.history == s.history && s'.clients[id].since == s.clients[id].since;
      assert SpanEnd(s', id) == SpanEnd(s, id);
    }
  }

  lemma SpanStep(s: State, l: Label, s': State, id: int, more: seq<Message>)
    requires HubInv(s) && Next(s, l) == Some(s')
    ensures Span(s', id) + more == Span(s, id) + ((if Inside(s, id) && l.Begin? then [l.msg] else []) + more)
  {
    if l.Begin? {
      BeginSpan(s, s', l.msg, id);
    } else {
      OtherSpan(s, l, s', id);
    }
  }

  lemma {:induction false} SpanRun(s: State, ls: seq<Label>, s': State, id: int)
    requires HubInv(s) && Run(s, ls) == Some(s')
    ensures Span(s', id) == Span(s, id) + Meanwhile(ls, id, Inside(s, id))
    decreases |ls|
  {
    if ls != [] {
      var mid := Next(s, ls[0]).value;
      NextKeeps(s, ls[0], mid);
      InsideStep(s, ls[0], mid, id);
      SpanRun(mid, ls[1..], s', id);
      SpanStep(s, ls[0], mid, id, Meanwhile(ls[1..], id, Inside(mid, id)));
    }
  }

  /** The one message that a Notify under way may still have to offer the client. */
  predicate Pending(s: State, id: int) {
    s.lock.Some? && id in s.lock.value.rest
  }

  /** A client has been offered its span, but for a pending message. */
  lemma OfferedSpan(s: State, id: int)
    requires HubInv(s) && id in s.clients
    ensures var c := s.clients[id]; var sent := Span(s, id);
            && |sent| == |c.room| + (if Pending(s, id) then 1 else 0)
            && (Pending(s, id) ==> sent[|c.room|] == s.lock.value.msg)
            && sent[..|c.room|] == s.history[c.since..c.until]
  {
    assert ClientInv(s, id);
  }

  /** In any run, what a client has been offered is, in order, what was notified between its
      registration and its departure, but for a message whose Notify has not yet come to it;
      what it has read and has buffered is that, less the messages that found its buffer full. */
  lemma OfferedMeanwhile(ls: seq<Label>, s: State, id: int)
    requires Run(START, ls) == Some(s) && id in s.clients
    ensures var c := s.clients[id]; var sent := Meanwhile(ls, id, false);
            && |sent| == |c.room| + (if Pending(s, id) then 1 else 0)
            && (Pending(s, id) ==> sent[|c.room|] == s.lock.value.msg)
            && c.read + c.buf == Kept(sent[..|c.room|], c.room)
  {
    RunKeeps(START, ls, s);
    SpanRun(START, ls, s, id);
    assert Meanwhile(ls, id, false) == Span(s, id);
    OfferedSpan(s, id);
    assert ClientInv(s, id);
  }

  /** A message is lost to a client exactly when its buffer is full as the client is visited. */
  lemma LostOnlyWhenFull(s: State, l: Label, s': State, id: int)
    requires Reachable(s) && Next(s, l) == Some(s') && id in s.clients
    ensures id in s'.clients
    ensures var c := s.clients[id]; var c' := s'.clients[id];
            c'.read + c'.buf ==
            if l == Send(id) && |c.buf| < 16 then c.read + c.buf + [s.lock.value.msg] else c.read + c.buf
  {
    ReachableInv(s);
    assert ClientInv(s, id);
    var c, c' := s.clients[id], s'.clients[id];
    if l == Read(id) {
      assert c'.read + c'.buf == c.read + c.buf;
    } else if l == Send(id) {
      assert |c.buf| < CAPACITY ==> c'.read + c'.buf == c.read + c.buf + [s.lock.value.msg];
    }
  }

  lemma {:induction false} AllKept(msgs: seq<Message>, room: seq<bool>)
    requires |msgs| == |room| && forall i :: 0 <= i < |room| ==> room[i]
    ensures Kept(msgs, room) == msgs
    decreases |msgs|
  {
    if msgs != [] {
      var n := |msgs| - 1;
      AllKept(msgs[..n], room[..n]);
      assert msgs == msgs[..n] + [msgs[n]];
    }
  }

  /** A client whose buffer always had room has missed nothing that was notified meanwhile, but for
      a message it has yet to be offered. */
  lemma NothingMissed(ls: seq<Label>, s: State, id: int)
    requires Run(START, ls) == Some(s) && id in s.clients
    requires forall i :: 0 <= i < |s.clients[id].room| ==> s.clients[id].room[i]
    ensures var c := s.clients[id];
            Meanwhile(ls, id, false) == c.read + c.buf + (if Pending(s, id) then [s.lock.value.msg] else [])
  {
    OfferedMeanwhile(ls, s, id);
    var c := s.clients[id];
    AllKept(Meanwhile(ls, id, false)[..|c.room|], c.room);
  }

  /** A Notify that holds the mutex never blocks: it can visit any client it has still to visit,
      and release the mutex when none is left. */
  lemma NotifyGoesOn(s: State)
    requires Reachable(s) && s.lock.Some?
    ensures forall id :: id in s.lock.value.rest ==> Next(s, Send(id)).Some? && !Next(s, Send(id)).value.panicked
    ensures s.lock.value.rest == {} ==> Next(s, End).Some?
  {
    ReachableInv(s);
  }
}
