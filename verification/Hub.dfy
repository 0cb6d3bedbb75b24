/** The in-memory hub of apps/api/internal/gateway/hub.go: connections, subscriptions and one bounded
    send queue per connection. Each operation holds the hub's mutex. */
module Hub {

  type ConnId = nat     // the identity of one *Client
  type Payload = string

  const CAPACITY := 256

  /** One connection: its user, what is buffered on its send channel, and whether that was closed. */
  datatype Conn = Conn(user: string, queue: seq<Payload>, closed: bool)

  datatype State = State(
    clients: map<string, set<ConnId>>,  // user -> registered connections
    channels: map<string, set<string>>, // channel -> subscribed users
    conns: map<ConnId, Conn>,
    panicked: bool)                     // a closed channel was closed again or sent to

  const EMPTY := State(map[], map[], map[], false)

  function ConnsOf(s: State, user: string): set<ConnId> { if user in s.clients then s.clients[user] else {} }

  function Subscribers(s: State, channel: string): set<string> { if channel in s.channels then s.channels[channel] else {} }

  predicate Registered(s: State, c: ConnId) { c in s.conns && c in ConnsOf(s, s.conns[c].user) }

  /** Only open connections of the right user are registered, and no user has an empty set. */
  ghost predicate Consistent(s: State) {
    && (forall u, c :: u in s.clients && c in s.clients[u] ==> c in s.conns && s.conns[c].user == u && !s.conns[c].closed)
    && (forall u :: u in s.clients ==> s.clients[u] != {})
    && !s.panicked
  }

  /** A non-blocking send: the message is dropped when the buffer is full. */
  function Offer(k: Conn, m: Payload): Conn {
    if |k.queue| < CAPACITY then k.(queue := k.queue + [m]) else k
  }

  function Listeners(s: State, channel: string): set<ConnId> {
    set c | c in s.conns && Registered(s, c) && s.conns[c].user in Subscribers(s, channel)
  }

  function OfferTo(conns: map<ConnId, Conn>, targets: set<ConnId>, m: Payload): map<ConnId, Conn> {
    map c | c in conns :: if c in targets then Offer(conns[c], m) else conns[c]
  }

  lemma OfferOne(conns: map<ConnId, Conn>, done: set<ConnId>, c: ConnId, m: Payload)
    requires c in conns && c !in done
    ensures OfferTo(conns, done, m)[c] == conns[c]
    ensures OfferTo(conns, done, m)[c := Offer(conns[c], m)] == OfferTo(conns, done + {c}, m)
  {
  }

  function Registering(s: State, c: ConnId): State
    requires c in s.conns
  {
    var u := s.conns[c].user;
    s.(clients := s.clients[u := ConnsOf(s, u) + {c}])
  }

  function Unregistering(s: State, c: ConnId): State
    requires c in s.conns
  {
    var u := s.conns[c].user;
    if !Registered(s, c) then s
    else
      var rest := ConnsOf(s, u) - {c};
      s.(clients := if rest == {} then s.clients - {u} else s.clients[u := rest],
         conns := s.conns[c := s.conns[c].(closed := true)],
         panicked := s.panicked || s.conns[c].closed)
  }

  function Subscribing(s: State, user: string, channel: string): State {
    s.(channels := s.channels[channel := Subscribers(s, channel) + {user}])
  }

  function Broadcasting(s: State, channel: string, m: Payload): State {
    var targets := Listeners(s, channel);
    s.(conns := OfferTo(s.conns, targets, m),
       panicked := s.panicked || exists c :: c in targets && s.conns[c].closed)
  }

  /** `n` sends of the same message. */
  function OfferTimes(k: Conn, m: Payload, n: nat): Conn {
    if n == 0 then k else Offer(OfferTimes(k, m, n - 1), m)
  }

  function ChannelsOf(s: State, user: string): set<string> { set ch | ch in s.channels && user in s.channels[ch] }

  function Shared(s: State, a: string, b: string): set<string> { ChannelsOf(s, a) * ChannelsOf(s, b) }

  /** Those of the given channels the user is subscribed to. */
  function Reaching(s: State, channels: set<string>, user: string): set<string> {
    set ch | ch in channels && user in Subscribers(s, ch)
  }

  function PresenceSent(s: State, user: string, m: Payload): State {
    s.(conns := map c | c in s.conns ::
         OfferTimes(s.conns[c], m, if Registered(s, c) then |Shared(s, user, s.conns[c].user)| else 0))
  }

  class Hub {
    var state: State

    constructor ()
      ensures state == EMPTY
    {
      state := EMPTY;
    }

    method Register(c: ConnId)
      requires c in state.conns
      modifies this
      ensures state == Registering(old(state), c)
    {
      var user := state.conns[c].user;
      if user !in state.clients {
        state := state.(clients := state.clients[user := {}]);
      }
      state := state.(clients := state.clients[user := state.clients[user] + {c}]);
    }

    method Unregister(c: ConnId)
      requires c in state.conns && Consistent(state)
      modifies this
      ensures state == Unregistering(old(state), c)
    {
      var user := state.conns[c].user;
      if user !in state.clients {
        return;
      }
      if c in state.clients[user] {
        state := state.(clients := state.clients[user := state.clients[user] - {c}]);
        Close(c);
      }
      if state.clients[user] == {} {
        state := state.(clients := state.clients - {user});
      }
    }

    method Close(c: ConnId)
      requires c in state.conns
      modifies this
      ensures state == old(state).(conns := old(state).conns[c := old(state).conns[c].(closed := true)],
                                   panicked := old(state).panicked || old(state).conns[c].closed)
    {
      var k := state.conns[c];
      state := state.(conns := state.conns[c := k.(closed := true)], panicked := state.panicked || k.closed);
    }

    method SubscribeToChannel(user: string, channel: string)
      modifies this
      ensures state == Subscribing(old(state), user, channel)
    {
      if channel !in state.channels {
        state := state.(channels := state.channels[channel := {}]);
      }
      state := state.(channels := state.channels[channel := state.channels[channel] + {user}]);
    }

    /** The two range loops, in whatever order the maps are walked. */
    method BroadcastToChannel(channel: string, m: Payload)
      requires Consistent(state)
      modifies this
      ensures state == Broadcasting(old(state), channel, m) && Consistent(state)
    {
      ghost var s := state;
      var users := if channel in state.channels then state.channels[channel] else {};
      while users != {}
        invariant users <= Subscribers(s, channel)
        invariant state == s.(conns := OfferTo(s.conns, Reached(s, channel, users), m))
        decreases |users|
      {
        var user :| user in users;
        ReachedStep(s, channel, users, user);
        OfferToUser(user, m, s, Reached(s, channel, users));
        users := users - {user};
      }
      BroadcastResult(s, channel, m);
    }

    method OfferToUser(user: string, m: Payload, ghost s: State, ghost done: set<ConnId>)
      requires Consistent(s) && done !! ConnsOf(s, user)
      requires state == s.(conns := OfferTo(s.conns, done, m))
      modifies this
      ensures state == s.(conns := OfferTo(s.conns, done + ConnsOf(s, user), m))
    {
      var todo := if user in state.clients then state.clients[user] else {};
      while todo != {}
        invariant todo <= ConnsOf(s, user)
        invariant state == s.(conns := OfferTo(s.conns, done + (ConnsOf(s, user) - todo), m))
        decreases |todo|
      {
        var c :| c in todo;
        OfferOne(s.conns, done + (ConnsOf(s, user) - todo), c, m);
        assert done + (ConnsOf(s, user) - (todo - {c})) == done + (ConnsOf(s, user) - todo) + {c};
        todo := todo - {c};
        OfferToConn(c, m);
      }
      assert done + (ConnsOf(s, user) - todo) == done + ConnsOf(s, user);
    }

    /** select { case client.send <- data: default: } */
    method OfferToConn(c: ConnId, m: Payload)
      requires c in state.conns
      modifies this
      ensures state == old(state).(conns := old(state).conns[c := Offer(old(state).conns[c], m)])
    {
      var k := state.conns[c];
      if |k.queue| < CAPACITY {
        state := state.(conns := state.conns[c := k.(queue := k.queue + [m])]);
      } else {
        assert state.conns[c := k] == state.conns;
      }
    }

    /** Collects the user's channels, then broadcasts to each; every registered connection is offered the
        message once per channel its user shares with `user`. */
    method BroadcastPresence(user: string, m: Payload)
      requires Consistent(state)
      modifies this
      ensures state == PresenceSent(old(state), user, m) && Consistent(state)
    {
      ghost var s := state;
      var rest := set ch | ch in state.channels && user in state.channels[ch];
      ghost var all := rest;
      ghost var done: set<string> := {};
      assert SentOver(s, done, m) == s.conns;
      while rest != {}
        invariant done == all - rest && rest <= all
        invariant Consistent(state)
        invariant state == s.(conns := SentOver(s, done, m))
        decreases |rest|
      {
        var ch :| ch in rest;
        rest := rest - {ch};
        SentOverStep(s, done, ch, m);
        BroadcastToChannel(ch, m);
        done := done + {ch};
      }
      assert done == ChannelsOf(s, user);
      SentOverAll(s, user, m);
    }
  }

  /** The listeners served once only `users` are left. */
  function Reached(s: State, channel: string, users: set<string>): set<ConnId> {
    set c | c in Listeners(s, channel) && s.conns[c].user !in users
  }

  lemma ReachedStep(s: State, channel: string, users: set<string>, user: string)
    requires Consistent(s) && user in users && users <= Subscribers(s, channel)
    ensures Reached(s, channel, users) !! ConnsOf(s, user)
    ensures Reached(s, channel, users - {user}) == Reached(s, channel, users) + ConnsOf(s, user)
  {
  }

  lemma BroadcastResult(s: State, channel: string, m: Payload)
    requires Consistent(s)
    ensures Broadcasting(s, channel, m) == s.(conns := OfferTo(s.conns, Reached(s, channel, {}), m))
    ensures Consistent(Broadcasting(s, channel, m))
  {
    assert Reached(s, channel, {}) == Listeners(s, channel);
    assert forall c :: c in Listeners(s, channel) ==> !s.conns[c].closed;
  }

  /** Every registered connection after the message went out over the channels `done`. */
  function SentOver(s: State, done: set<string>, m: Payload): map<ConnId, Conn> {
    map c | c in s.conns ::
      OfferTimes(s.conns[c], m, if Registered(s, c) then |Reaching(s, done, s.conns[c].user)| else 0)
  }

  lemma {:induction false} OfferTimesKeeps(k: Conn, m: Payload, n: nat)
    ensures OfferTimes(k, m, n).user == k.user && OfferTimes(k, m, n).closed == k.closed
    decreases n
  {
    if n == 0 {
    } else {
      OfferTimesKeeps(k, m, n - 1);
    }
  }

  lemma SentOverConn(s: State, done: set<string>, ch: string, m: Payload, c: ConnId)
    requires ch !in done && c in s.conns
    ensures SentOver(s, done + {ch}, m)[c] ==
            if c in Listeners(s, ch) then Offer(SentOver(s, done, m)[c], m) else SentOver(s, done, m)[c]
  {
    var u := s.conns[c].user;
    var before := Reaching(s, done, u);
    assert Reaching(s, done + {ch}, u) == if u in Subscribers(s, ch) then before + {ch} else before;
  }

  lemma SentOverStep(s: State, done: set<string>, ch: string, m: Payload)
    requires Consistent(s) && ch !in done
    ensures var s' := s.(conns := SentOver(s, done, m));
            Broadcasting(s', ch, m) == s.(conns := SentOver(s, done + {ch}, m))
  {
    var s' := s.(conns := SentOver(s, done, m));
    forall c | c in s.conns ensures s'.conns[c].user == s.conns[c].user && s'.conns[c].closed == s.conns[c].closed {
      OfferTimesKeeps(s.conns[c], m, if Registered(s, c) then |Reaching(s, done, s.conns[c].user)| else 0);
    }
    assert Listeners(s', ch) == Listeners(s, ch);
    assert forall c :: c in Listeners(s, ch) ==> !s.conns[c].closed;
    forall c | c in s.conns ensures OfferTo(s'.conns, Listeners(s', ch), m)[c] == SentOver(s, done + {ch}, m)[c] {
      SentOverConn(s, done, ch, m, c);
    }
  }

  lemma SentOverAll(s: State, user: string, m: Payload)
    ensures SentOver(s, ChannelsOf(s, user), m) == PresenceSent(s, user, m).conns
  {
    forall c | c in s.conns ensures Shared(s, user, s.conns[c].user) == Reaching(s, ChannelsOf(s, user), s.conns[c].user) {
    }
  }

  function Copies(m: Payload, n: nat): seq<Payload> { seq(n, _ => m) }

  /** With room in the buffer all `n` copies are enqueued; otherwise as many as fit. */
  lemma {:induction false} OfferTimesEnqueues(k: Conn, m: Payload, n: nat)
    requires |k.queue| <= 256
    ensures var room := 256 - |k.queue|;
            OfferTimes(k, m, n).queue == k.queue + Copies(m, if n <= room then n else room)
    decreases n
  {
    if n == 0 {
    } else {
      OfferTimesEnqueues(k, m, n - 1);
      var room := CAPACITY - |k.queue|;
      if n <= room {
        assert Copies(m, n) == Copies(m, n - 1) + [m];
      }
    }
  }

  /// Runs

  /** A broadcast as sent: its message and the users subscribed to its channel at that moment. */
  datatype Sent = Sent(m: Payload, audience: set<string>)

  datatype Sys = Sys(
    hub: State,
    gone: set<ConnId>,                  // connections that have been unregistered
    sent: seq<Sent>,
    accepted: map<ConnId, seq<Payload>>) // everything ever enqueued on a connection

  const START := Sys(EMPTY, {}, [], map[])

  datatype Action =
    | Connect(c: ConnId, user: string)
    | Register(c: ConnId)
    | Unregister(c: ConnId)
    | Subscribe(user: string, channel: string)
    | Broadcast(channel: string, m: Payload)
    | Drain(c: ConnId)                  // the write pump takes one message

  predicate Enabled(s: Sys, a: Action) {
    match a
    case Connect(c, _) => c !in s.hub.conns
    case Register(c) => c in s.hub.conns && c !in s.gone
    case Unregister(c) => c in s.hub.conns
    case Drain(c) => c in s.hub.conns && s.hub.conns[c].queue != []
    case _ => true
  }

  function Apply(s: Sys, a: Action): Sys
    requires Enabled(s, a)
  {
    match a
    case Connect(c, user) =>
      s.(hub := s.hub.(conns := s.hub.conns[c := Conn(user, [], false)]), accepted := s.accepted[c := []])
    case Register(c) => s.(hub := Registering(s.hub, c))
    case Unregister(c) =>
      s.(hub := Unregistering(s.hub, c), gone := if Registered(s.hub, c) then s.gone + {c} else s.gone)
    case Subscribe(user, channel) => s.(hub := Subscribing(s.hub, user, channel))
    case Broadcast(channel, m) =>
      var targets := Listeners(s.hub, channel);
      s.(hub := Broadcasting(s.hub, channel, m),
         sent := s.sent + [Sent(m, Subscribers(s.hub, channel))],
         accepted := map c | c in s.accepted ::
           if c in targets && |s.hub.conns[c].queue| < CAPACITY then s.accepted[c] + [m] else s.accepted[c])
    case Drain(c) =>
      var k := s.hub.conns[c];
      s.(hub := s.hub.(conns := s.hub.conns[c := k.(queue := k.queue[1..])]))
  }

  predicate Valid(s: Sys, acts: seq<Action>)
    decreases |acts|
  {
    acts == [] || (Enabled(s, acts[0]) && Valid(Apply(s, acts[0]), acts[1..]))
  }

  function Run(s: Sys, acts: seq<Action>): Sys
    requires Valid(s, acts)
    decreases |acts|
  {
    if acts == [] then s else Run(Apply(s, acts[0]), acts[1..])
  }

  /** The messages a user was subscribed to, in the order they were broadcast. */
  function Heard(sent: seq<Sent>, user: string): seq<Payload> {
    if sent == [] then []
    else
      var last := sent[|sent| - 1];
      var before := Heard(sent[..|sent| - 1], user);
      if user in last.audience then before + [last.m] else before
  }

  /** `a` is `b` with some elements left out. */
  predicate Subsequence(a: seq<Payload>, b: seq<Payload>)
    decreases |b|
  {
    a == [] ||
    (b != [] && ((a[|a| - 1] == b[|b| - 1] && Subsequence(a[..|a| - 1], b[..|b| - 1])) || Subsequence(a, b[..|b| - 1])))
  }

  lemma SubsequenceSnoc(a: seq<Payload>, b: seq<Payload>, m: Payload)
    requires Subsequence(a, b)
    ensures Subsequence(a, b + [m]) && Subsequence(a + [m], b + [m])
  {
    assert (b + [m])[..|b|] == b && (a + [m])[..|a|] == a;
  }

  lemma HeardSnoc(sent: seq<Sent>, x: Sent, user: string)
    ensures Heard(sent + [x], user) == if user in x.audience then Heard(sent, user) + [x.m] else Heard(sent, user)
  {
    assert (sent + [x])[..|sent|] == sent;
  }

  /** `b` ends with `a`. */
  predicate Suffix(a: seq<Payload>, b: seq<Payload>) { |a| <= |b| && b[|b| - |a|..] == a }

  /** One connection's queue: bounded, and the unsent end of what it has accepted, which is an in-order
      selection of what its user was subscribed to. */
  predicate QueueSound(s: Sys, c: ConnId) {
    && c in s.hub.conns && c in s.accepted
    && |s.hub.conns[c].queue| <= CAPACITY
    && Suffix(s.hub.conns[c].queue, s.accepted[c])
    && Subsequence(s.accepted[c], Heard(s.sent, s.hub.conns[c].user))
  }

  ghost predicate Sound(s: Sys) {
    && Consistent(s.hub)
    && s.hub.conns.Keys == s.accepted.Keys
    && s.gone <= s.hub.conns.Keys
    && (forall c :: c in s.hub.conns ==> (s.hub.conns[c].closed <==> c in s.gone))
  }

  lemma StepSound(s: Sys, a: Action)
    requires Sound(s) && Enabled(s, a)
    ensures Sound(Apply(s, a))
  {
  }

  predicate Accepts(s: Sys, a: Action, c: ConnId) {
    a.Broadcast? && c in Listeners(s.hub, a.channel) && |s.hub.conns[c].queue| < CAPACITY
  }

  lemma QueueAfter(s: Sys, a: Action, c: ConnId)
    requires Sound(s) && Enabled(s, a) && c in s.hub.conns
    ensures var s' := Apply(s, a);
            && c in s'.hub.conns && c in s'.accepted && s'.hub.conns[c].user == s.hub.conns[c].user
            && s'.accepted[c] == (if Accepts(s, a, c) then s.accepted[c] + [a.m] else s.accepted[c])
            && s'.hub.conns[c].queue ==
               if Accepts(s, a, c) then s.hub.conns[c].queue + [a.m]
               else if a.Drain? && a.c == c then s.hub.conns[c].queue[1..]
               else s.hub.conns[c].queue
  {
  }

  lemma SuffixKeeps(a: seq<Payload>, b: seq<Payload>, m: Payload)
    requires Suffix(a, b)
    ensures Suffix(a + [m], b + [m])
    ensures a != [] ==> Suffix(a[1..], b)
  {
  }

  lemma StepQueue(s: Sys, a: Action, c: ConnId)
    requires Sound(s) && Enabled(s, a) && QueueSound(s, c)
    ensures QueueSound(Apply(s, a), c)
  {
    var u := s.hub.conns[c].user;
    QueueAfter(s, a, c);
    if a.Broadcast? {
      HeardSnoc(s.sent, Sent(a.m, Subscribers(s.hub, a.channel)), u);
      SubsequenceSnoc(s.accepted[c], Heard(s.sent, u), a.m);
    }
    SuffixKeeps(s.hub.conns[c].queue, s.accepted[c], if a.Broadcast? then a.m else "");
  }

  lemma {:induction false} RunSound(s: Sys, acts: seq<Action>)
    requires Valid(s, acts) && Sound(s) && forall c :: c in s.hub.conns ==> QueueSound(s, c)
    ensures Sound(Run(s, acts)) && forall c :: c in Run(s, acts).hub.conns ==> QueueSound(Run(s, acts), c)
    decreases |acts|
  {
    if acts == [] {
    } else {
      var s' := Apply(s, acts[0]);
      StepSound(s, acts[0]);
      forall c | c in s'.hub.conns ensures QueueSound(s', c) {
        if c in s.hub.conns {
          StepQueue(s, acts[0], c);
        }
      }
      RunSound(s', acts[1..]);
    }
  }

  /** Over every run in which no unregistered connection registers again: nothing is sent to or closes a
      closed channel, a channel is closed exactly when its connection has been unregistered, no empty
      connection set is stored, and each queue is bounded and in order. */
  lemma HubSafe(acts: seq<Action>)
    requires Valid(START, acts)
    ensures var s := Run(START, acts);
            && !s.hub.panicked
            && (forall u :: u in s.hub.clients ==> s.hub.clients[u] != {})
            && (forall c :: c in s.hub.conns ==>
                  && c in s.accepted
                  && (s.hub.conns[c].closed <==> c in s.gone)
                  && |s.hub.conns[c].queue| <= 256
                  && Suffix(s.hub.conns[c].queue, s.accepted[c])
                  && Subsequence(s.accepted[c], Heard(s.sent, s.hub.conns[c].user)))
  {
    RunSound(START, acts);
  }

  /// Who hears what

  predicate Subscribes(acts: seq<Action>, user: string, channel: string) {
    exists i :: 0 <= i < |acts| && acts[i] == Subscribe(user, channel)
  }

  lemma {:induction false} RunSubscribed(s: Sys, acts: seq<Action>, user: string, channel: string)
    requires Valid(s, acts)
    ensures user in Subscribers(Run(s, acts).hub, channel) <==>
            user in Subscribers(s.hub, channel) || Subscribes(acts, user, channel)
    decreases |acts|
  {
    if acts == [] {
    } else {
      RunSubscribed(Apply(s, acts[0]), acts[1..], user, channel);
      assert forall i :: 0 < i < |acts| ==> acts[i] == acts[1..][i - 1];
      if Subscribes(acts[1..], user, channel) {
        var i :| 0 <= i < |acts| - 1 && acts[1..][i] == Subscribe(user, channel);
        assert acts[i + 1] == Subscribe(user, channel);
      }
    }
  }

  predicate Leaves(acts: seq<Action>, c: ConnId) { exists i :: 0 <= i < |acts| && acts[i] == Unregister(c) }

  /** Some registration of the connection is followed by no unregistration of it. */
  predicate StaysRegistered(acts: seq<Action>, c: ConnId) {
    exists i :: 0 <= i < |acts| && acts[i] == Register(c) && !Leaves(acts[i + 1..], c)
  }

  lemma StepRegistered(s: Sys, a: Action, c: ConnId)
    requires Sound(s) && Enabled(s, a)
    ensures Registered(Apply(s, a).hub, c) <==> a == Register(c) || (Registered(s.hub, c) && a != Unregister(c))
  {
  }

  lemma StaysCons(acts: seq<Action>, c: ConnId)
    requires acts != []
    ensures Leaves(acts, c) <==> acts[0] == Unregister(c) || Leaves(acts[1..], c)
    ensures StaysRegistered(acts, c) <==>
            (acts[0] == Register(c) && !Leaves(acts[1..], c)) || StaysRegistered(acts[1..], c)
  {
    var rest := acts[1..];
    if Leaves(rest, c) {
      var i :| 0 <= i < |rest| && rest[i] == Unregister(c);
      assert acts[i + 1] == Unregister(c);
    }
    if StaysRegistered(rest, c) {
      var i :| 0 <= i < |rest| && rest[i] == Register(c) && !Leaves(rest[i + 1..], c);
      assert acts[i + 1] == Register(c) && acts[i + 2..] == rest[i + 1..];
    }
    if StaysRegistered(acts, c) {
      var i :| 0 <= i < |acts| && acts[i] == Register(c) && !Leaves(acts[i + 1..], c);
      if i > 0 {
        assert rest[i - 1] == Register(c) && rest[i..] == acts[i + 1..];
      }
    }
  }

  lemma {:induction false} RunRegistered(s: Sys, acts: seq<Action>, c: ConnId)
    requires Valid(s, acts) && Sound(s)
    ensures Registered(Run(s, acts).hub, c) <==>
            StaysRegistered(acts, c) || (Registered(s.hub, c) && !Leaves(acts, c))
    decreases |acts|
  {
    if acts == [] {
    } else {
      StepSound(s, acts[0]);
      StepRegistered(s, acts[0], c);
      StaysCons(acts, c);
      RunRegistered(Apply(s, acts[0]), acts[1..], c);
    }
  }

  /** A broadcast is accepted for every registered connection of a subscriber that has room, and only there. */
  lemma BroadcastAccepted(s: Sys, channel: string, m: Payload, c: ConnId)
    requires Sound(s) && c in s.hub.conns
    ensures var heard := Registered(s.hub, c) && s.hub.conns[c].user in Subscribers(s.hub, channel)
                         && |s.hub.conns[c].queue| < 256;
            c in Apply(s, Broadcast(channel, m)).accepted
            && Apply(s, Broadcast(channel, m)).accepted[c] == if heard then s.accepted[c] + [m] else s.accepted[c]
  {
    QueueAfter(s, Broadcast(channel, m), c);
  }

  /** What a run says of a connection and a channel: it was registered and not unregistered since, and its
      user has subscribed. */
  ghost predicate Listening(acts: seq<Action>, c: ConnId, user: string, channel: string) {
    StaysRegistered(acts, c) && Subscribes(acts, user, channel)
  }

  lemma ListeningIff(acts: seq<Action>, c: ConnId, user: string, channel: string)
    requires Valid(START, acts)
    ensures Sound(Run(START, acts))
    ensures Listening(acts, c, user, channel) <==>
            Registered(Run(START, acts).hub, c) && user in Subscribers(Run(START, acts).hub, channel)
  {
    RunSound(START, acts);
    RunRegistered(START, acts, c);
    RunSubscribed(START, acts, user, channel);
  }

  /** After any run, a connection accepts a broadcast iff it has been registered and not unregistered since,
      its user has subscribed to the channel, and fewer than 256 messages are waiting for it. */
  lemma BroadcastHeardIff(acts: seq<Action>, s: Sys, channel: string, m: Payload, c: ConnId)
    requires Valid(START, acts) && s == Run(START, acts) && c in s.hub.conns
    ensures c in s.accepted && c in Apply(s, Broadcast(channel, m)).accepted
    ensures Apply(s, Broadcast(channel, m)).accepted[c] ==
            if Listening(acts, c, s.hub.conns[c].user, channel) && |s.hub.conns[c].queue| < 256
            then s.accepted[c] + [m] else s.accepted[c]
  {
    ListeningIff(acts, c, s.hub.conns[c].user, channel);
    BroadcastAccepted(s, channel, m, c);
  }

  /** The premise is needed: a connection registered again after it was unregistered makes the next
      broadcast it would hear send on a closed channel. */
  lemma ReRegistrationPanics(s: State, c: ConnId, channel: string, m: Payload)
    requires Consistent(s) && Registered(s, c) && s.conns[c].user in Subscribers(s, channel)
    ensures !Unregistering(s, c).panicked
    ensures Broadcasting(Registering(Unregistering(s, c), c), channel, m).panicked
  {
    var s' := Registering(Unregistering(s, c), c);
    assert c in Listeners(s', channel) && s'.conns[c].closed;
  }
}
