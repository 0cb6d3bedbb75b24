/** Channel messages, reactions and the outbox, as the six handlers of
    apps/api/internal/message/handler.go change them: one transaction each. */
module MessageStore {
  import opened Wrappers

  type Id = nat
  type User = nat
  type Channel = nat

  datatype Parent = Root | Under(id: Id)

  /** `born` numbers the rows in the order they were inserted. */
  datatype Message = Message(channel: Channel, user: User, content: string, deleted: bool, parent: Parent,
                             replyCount: nat, born: nat)

  datatype Event =
    | MessageSent(id: Id, channel: Channel, user: User, content: string)
    | MessageEdited(id: Id, content: string)
    | MessageDeleted(id: Id)
    | ReactionAdded(message: Id, user: User, emoji: string)
    | ReactionRemoved(message: Id, user: User)

  datatype Db = Db(
    messages: map<Id, Message>,
    reactions: map<(Id, User), string>, // primary key (message, user)
    outbox: seq<Event>,                 // in commit order
    inserted: nat)

  const EMPTY := Db(map[], map[], [], 0)

  /** The transaction of one request; ids of new rows are drawn by the database. */
  datatype Request =
    | Send(id: Id, channel: Channel, user: User, content: string)
    | Reply(id: Id, channel: Channel, user: User, content: string, parent: Id)
    | Edit(message: Id, channel: Channel, content: string)
    | Delete(message: Id, channel: Channel)
    | AddReaction(message: Id, channel: Channel, user: User, emoji: string)
    | RemoveReaction(message: Id, channel: Channel, user: User)

  function Insert(db: Db, id: Id, channel: Channel, user: User, content: string, parent: Parent): Db {
    db.(messages := db.messages[id := Message(channel, user, content, false, parent, 0, db.inserted)],
        inserted := db.inserted + 1)
  }

  function CountReply(db: Db, parent: Id): Db {
    if parent in db.messages then
      db.(messages := db.messages[parent := db.messages[parent].(replyCount := db.messages[parent].replyCount + 1)])
    else db
  }

  function Enqueue(db: Db, e: Event): Db { db.(outbox := db.outbox + [e]) }

  /** The state a transaction commits, or nothing when the database refuses one of its statements. */
  function Committed(db: Db, r: Request): Option<Db> {
    match r
    case Send(id, channel, user, content) =>
      if id in db.messages then None
      else Some(Enqueue(Insert(db, id, channel, user, content, Root), MessageSent(id, channel, user, content)))
    case Reply(id, channel, user, content, parent) =>
      if id in db.messages || parent !in db.messages then None
      else Some(Enqueue(CountReply(Insert(db, id, channel, user, content, Under(parent)), parent),
                        MessageSent(id, channel, user, content)))
    case Edit(message, _, content) =>
      if message !in db.messages then None
      else Some(Enqueue(db.(messages := db.messages[message := db.messages[message].(content := content)]),
                        MessageEdited(message, content)))
    case Delete(message, _) =>
      var messages := if message in db.messages
                      then db.messages[message := db.messages[message].(deleted := true)] else db.messages;
      Some(Enqueue(db.(messages := messages), MessageDeleted(message)))
    case AddReaction(message, _, user, emoji) =>
      if message !in db.messages then None
      else Some(Enqueue(db.(reactions := db.reactions[(message, user) := emoji]), ReactionAdded(message, user, emoji)))
    case RemoveReaction(message, _, user) =>
      Some(Enqueue(db.(reactions := db.reactions - {(message, user)}), ReactionRemoved(message, user)))
  }

  /** Where a transaction breaks off: before its n-th statement, at the commit, or not at all. After
      `CommitUnseen` the transaction is committed although the caller sees an error. */
  datatype Fault = NoFault | Before(statement: nat) | CommitLost | CommitUnseen

  /** The queries a transaction closure may run, on a private copy of the state. */
  class Tx {
    var db: Db
    var statements: nat
    const fault: Fault

    constructor (db: Db, fault: Fault)
      ensures this.db == db && statements == 0 && this.fault == fault
    {
      this.db, this.statements, this.fault := db, 0, fault;
    }

    method Statement() returns (ok: bool)
      modifies this`statements
      ensures statements == old(statements) + 1
      ensures ok == (fault != Before(old(statements)))
    {
      ok := fault != Before(statements);
      statements := statements + 1;
    }

    method CreateMessage(id: Id, channel: Channel, user: User, content: string, parent: Parent) returns (ok: bool)
      modifies this
      ensures statements == old(statements) + 1
      ensures ok <==> fault != Before(old(statements)) && id !in old(db).messages
                      && (parent.Under? ==> parent.id in old(db).messages)
      ensures db == if ok then Insert(old(db), id, channel, user, content, parent) else old(db)
    {
      ok := Statement();
      ok := ok && id !in db.messages && (parent.Under? ==> parent.id in db.messages);
      if ok {
        db := db.(messages := db.messages[id := Message(channel, user, content, false, parent, 0, db.inserted)],
                  inserted := db.inserted + 1);
      }
    }

    method IncrementReplyCount(id: Id) returns (ok: bool)
      modifies this
      ensures statements == old(statements) + 1
      ensures ok <==> fault != Before(old(statements))
      ensures db == if ok then CountReply(old(db), id) else old(db)
    {
      ok := Statement();
      if ok && id in db.messages {
        var m := db.messages[id];
        db := db.(messages := db.messages[id := m.(replyCount := m.replyCount + 1)]);
      }
    }

    method EnqueueOutbox(e: Event) returns (ok: bool)
      modifies this
      ensures statements == old(statements) + 1
      ensures ok <==> fault != Before(old(statements))
      ensures db == if ok then Enqueue(old(db), e) else old(db)
    {
      ok := Statement();
      if ok {
        db := db.(outbox := db.outbox + [e]);
      }
    }

    /** The closure of one request: its statements in order, stopping at the first error. */
    method Body(r: Request) returns (ok: bool)
      requires statements == 0
      modifies this
      ensures ok ==> Committed(old(db), r) == Some(db)
      ensures ok <==> Committed(old(db), r).Some? && !(fault.Before? && fault.statement < Statements(r))
    {
      match r {
        case Send(id, channel, user, content) =>
          ok := CreateMessage(id, channel, user, content, Root);
          if ok { ok := EnqueueOutbox(MessageSent(id, channel, user, content)); }
        case Reply(id, channel, user, content, parent) =>
          ok := CreateMessage(id, channel, user, content, Under(parent));
          if ok { ok := IncrementReplyCount(parent); }
          if ok { ok := EnqueueOutbox(MessageSent(id, channel, user, content)); }
        case Edit(message, _, content) =>
          ok := Statement();
          ok := ok && message in db.messages;
          if ok {
            db := db.(messages := db.messages[message := db.messages[message].(content := content)]);
            ok := EnqueueOutbox(MessageEdited(message, content));
          }
        case Delete(message, _) =>
          ok := Statement();
          if ok {
            if message in db.messages {
              db := db.(messages := db.messages[message := db.messages[message].(deleted := true)]);
            }
            ok := EnqueueOutbox(MessageDeleted(message));
          }
        case AddReaction(message, _, user, emoji) =>
          ok := Statement();
          ok := ok && message in db.messages;
          if ok {
            db := db.(reactions := db.reactions[(message, user) := emoji]);
            ok := EnqueueOutbox(ReactionAdded(message, user, emoji));
          }
        case RemoveReaction(message, _, user) =>
          ok := Statement();
          if ok {
            db := db.(reactions := db.reactions - {(message, user)});
            ok := EnqueueOutbox(ReactionRemoved(message, user));
          }
      }
    }
  }

  function Statements(r: Request): nat { if r.Reply? then 3 else 2 }

  class Store {
    var db: Db

    constructor ()
      ensures db == EMPTY
    {
      db := EMPTY;
    }

    /** InTx: the whole transaction or nothing of it, wherever it breaks off. */
    method InTx(r: Request, fault: Fault) returns (ok: bool)
      modifies this
      ensures db == old(db) || Some(db) == Committed(old(db), r)
      ensures ok ==> Some(db) == Committed(old(db), r)
      ensures ok <==> Committed(old(db), r).Some? && (fault == NoFault || (fault.Before? && fault.statement >= Statements(r)))
      ensures !ok && fault != CommitUnseen ==> db == old(db)
    {
      var tx := new Tx(db, fault);
      ok := tx.Body(r);
      if !ok || fault == CommitLost {
        return false;
      }
      db := tx.db;
      ok := fault != CommitUnseen;
    }
  }

  /// Runs. A handler reads the message it acts on before its transaction begins, so other
  /// transactions may commit between the two.

  datatype Sys = Sys(db: Db, seen: set<(Id, Channel)>)

  datatype Action =
    | Look(id: Id, channel: Channel)   // the read that finds the message in that channel
    | Commit(r: Request)
    | Abort(r: Request)

  function MessageOf(r: Request): Option<(Id, Channel)> {
    match r
    case Send(_, _, _, _) => None
    case Reply(_, channel, _, _, parent) => Some((parent, channel))
    case Edit(m, channel, _) => Some((m, channel))
    case Delete(m, channel) => Some((m, channel))
    case AddReaction(m, channel, _, _) => Some((m, channel))
    case RemoveReaction(m, channel, _) => Some((m, channel))
  }

  predicate Enabled(s: Sys, a: Action) {
    match a
    case Look(id, channel) => id in s.db.messages && s.db.messages[id].channel == channel
    case Commit(r) => Committed(s.db, r).Some? && (MessageOf(r).Some? ==> MessageOf(r).value in s.seen)
    case Abort(_) => true
  }

  function Apply(s: Sys, a: Action): Sys
    requires Enabled(s, a)
  {
    match a
    case Look(id, channel) => s.(seen := s.seen + {(id, channel)})
    case Commit(r) => s.(db := Committed(s.db, r).value)
    case Abort(_) => s
  }

  predicate Valid(s: Sys, acts: seq<Action>)
    decreases |acts|
  {
    acts == [] || (Enabled(s, acts[0]) && Valid(Apply(s, acts[0]), acts[1..]))
  }

  function Run(s: Sys, acts: seq<Action>): Sys
    requires Valid(s, acts)
    decreases |acts|
  {
    if acts == [] then s else Run(Apply(s, acts[0]), acts[1..])
  }

  const START := Sys(EMPTY, {})

  /// The outbox as a log

  /** What the log can know: each message's content and deleted flag, and the reaction table. */
  datatype View = View(messages: map<Id, (string, bool)>, reactions: map<(Id, User), string>)

  function ViewOf(db: Db): View {
    View(map id | id in db.messages :: (db.messages[id].content, db.messages[id].deleted), db.reactions)
  }

  function ReplayEvent(v: View, e: Event): View {
    match e
    case MessageSent(id, _, _, content) => v.(messages := v.messages[id := (content, false)])
    case MessageEdited(id, content) =>
      if id in v.messages then v.(messages := v.messages[id := (content, v.messages[id].1)]) else v
    case MessageDeleted(id) =>
      if id in v.messages then v.(messages := v.messages[id := (v.messages[id].0, true)]) else v
    case ReactionAdded(m, user, emoji) => v.(reactions := v.reactions[(m, user) := emoji])
    case ReactionRemoved(m, user) => v.(reactions := v.reactions - {(m, user)})
  }

  function Replay(log: seq<Event>): View {
    if log == [] then View(map[], map[]) else ReplayEvent(Replay(log[..|log| - 1]), log[|log| - 1])
  }

  lemma ReplaySnoc(log: seq<Event>, e: Event)
    ensures Replay(log + [e]) == ReplayEvent(Replay(log), e)
  {
    assert (log + [e])[..|log|] == log;
  }

  function EventOf(r: Request): Event {
    match r
    case Send(id, channel, user, content) => MessageSent(id, channel, user, content)
    case Reply(id, channel, user, content, _) => MessageSent(id, channel, user, content)
    case Edit(m, _, content) => MessageEdited(m, content)
    case Delete(m, _) => MessageDeleted(m)
    case AddReaction(m, _, user, emoji) => ReactionAdded(m, user, emoji)
    case RemoveReaction(m, _, user) => ReactionRemoved(m, user)
  }

  /** A commit changes the visible tables exactly as its event says. */
  lemma CommitMatchesEvent(db: Db, r: Request)
    requires Committed(db, r).Some?
    ensures Committed(db, r).value.outbox == db.outbox + [EventOf(r)]
    ensures ViewOf(Committed(db, r).value) == ReplayEvent(ViewOf(db), EventOf(r))
  {
    var v, v' := ReplayEvent(ViewOf(db), EventOf(r)), ViewOf(Committed(db, r).value);
    if r.AddReaction? || r.RemoveReaction? {
      assert Committed(db, r).value.messages == db.messages;
    } else {
      MessagesMatch(db, r);
      assert v.messages == v'.messages;
    }
  }

  lemma MessagesMatch(db: Db, r: Request)
    requires Committed(db, r).Some? && !r.AddReaction? && !r.RemoveReaction?
    ensures var v, v' := ReplayEvent(ViewOf(db), EventOf(r)).messages, ViewOf(Committed(db, r).value).messages;
            v.Keys == v'.Keys && forall id :: id in v ==> v[id] == v'[id]
    ensures Committed(db, r).value.reactions == db.reactions
  {
  }

  lemma {:induction false} RunReplays(s: Sys, acts: seq<Action>)
    requires Valid(s, acts) && Replay(s.db.outbox) == ViewOf(s.db)
    ensures Replay(Run(s, acts).db.outbox) == ViewOf(Run(s, acts).db)
    decreases |acts|
  {
    if acts == [] {
    } else {
      if acts[0].Commit? {
        CommitMatchesEvent(s.db, acts[0].r);
        ReplaySnoc(s.db.outbox, EventOf(acts[0].r));
      }
      RunReplays(Apply(s, acts[0]), acts[1..]);
    }
  }

  /** After any run, with any transactions aborting anywhere, replaying the outbox in commit order
      rebuilds every message's content and deleted flag and the reaction table. */
  lemma OutboxIsFaithful(acts: seq<Action>)
    requires Valid(START, acts)
    ensures Replay(Run(START, acts).db.outbox) == ViewOf(Run(START, acts).db)
  {
    assert ViewOf(EMPTY).messages == map[];
    RunReplays(START, acts);
  }

  /// When requests commit, and what rows say

  /** A send commits with a fresh id, a reply with a fresh id and an existing parent, an edit and a reaction
      with an existing message; deletions and reaction removals always do. */
  lemma CommitsIff(db: Db, r: Request)
    ensures Committed(db, r).Some? <==>
            match r
            case Send(id, _, _, _) => id !in db.messages
            case Reply(id, _, _, _, parent) => id !in db.messages && parent in db.messages
            case Edit(m, _, _) => m in db.messages
            case AddReaction(m, _, _, _) => m in db.messages
            case Delete(_, _) => true
            case RemoveReaction(_, _, _) => true
  {
  }

  /** Once a request has found its message in its channel, its transaction can commit whenever its
      statements can, however much has been committed in between. */
  lemma FoundMeansEnabled(s: Sys, id: Id, channel: Channel, r: Request)
    requires Enabled(s, Look(id, channel)) && MessageOf(r) == Some((id, channel))
    ensures s.db == Apply(s, Look(id, channel)).db
    ensures Enabled(Apply(s, Look(id, channel)), Commit(r)) <==> Committed(s.db, r).Some?
    ensures Apply(s, Abort(r)) == s
  {
  }

  /** The request inserts the row `id` with this author, channel and parent. */
  predicate Inserts(a: Action, id: Id, user: User, channel: Channel, parent: Parent) {
    && a.Commit?
    && match a.r
       case Send(i, c, u, _) => i == id && c == channel && u == user && parent == Root
       case Reply(i, c, u, _, p) => i == id && c == channel && u == user && parent == Under(p)
       case _ => false
  }

  ghost predicate InsertedIn(s: Sys, acts: seq<Action>, id: Id, user: User, channel: Channel, parent: Parent)
    requires Valid(s, acts)
    decreases |acts|
  {
    acts != [] &&
    ((id !in s.db.messages && Inserts(acts[0], id, user, channel, parent))
     || InsertedIn(Apply(s, acts[0]), acts[1..], id, user, channel, parent))
  }

  /** A step keeps every row's author, channel and parent; a new row has those of its request. */
  lemma RowOrigin(s: Sys, a: Action, id: Id)
    requires Enabled(s, a) && id in Apply(s, a).db.messages
    ensures var m' := Apply(s, a).db.messages[id];
            if id in s.db.messages then
              var m := s.db.messages[id];
              m'.user == m.user && m'.channel == m.channel && m'.parent == m.parent
            else Inserts(a, id, m'.user, m'.channel, m'.parent) && m'.content == a.r.content && !m'.deleted
  {
  }

  lemma {:induction false} RunOrigins(s: Sys, acts: seq<Action>, id: Id)
    requires Valid(s, acts) && id in Run(s, acts).db.messages
    ensures var m' := Run(s, acts).db.messages[id];
            || InsertedIn(s, acts, id, m'.user, m'.channel, m'.parent)
            || (id in s.db.messages
                && s.db.messages[id].user == m'.user && s.db.messages[id].channel == m'.channel
                && s.db.messages[id].parent == m'.parent)
    decreases |acts|
  {
    if acts == [] {
    } else {
      var s1 := Apply(s, acts[0]);
      RunOrigins(s1, acts[1..], id);
      if id in s1.db.messages {
        RowOrigin(s, acts[0], id);
      }
    }
  }

  /** In every reachable state each row has the author, channel and parent of the one request that inserted
      it. */
  lemma RowsKeepTheirOrigin(acts: seq<Action>, id: Id)
    requires Valid(START, acts) && id in Run(START, acts).db.messages
    ensures var m := Run(START, acts).db.messages[id];
            InsertedIn(START, acts, id, m.user, m.channel, m.parent)
  {
    RunOrigins(START, acts, id);
  }

  /// The thread forest

  ghost function Children(db: Db, id: Id): set<Id> {
    set c | c in db.messages && db.messages[c].parent == Under(id)
  }

  /** Parents exist, share the channel and are older. */
  ghost predicate LinksSound(s: Sys) {
    && (forall c :: c in s.db.messages ==>
          && s.db.messages[c].born < s.db.inserted
          && (s.db.messages[c].parent.Under? ==>
                var p := s.db.messages[c].parent.id;
                && p in s.db.messages
                && s.db.messages[p].channel == s.db.messages[c].channel
                && s.db.messages[p].born < s.db.messages[c].born))
    && (forall p :: p in s.seen ==> p.0 in s.db.messages && s.db.messages[p.0].channel == p.1)
  }

  ghost predicate CountsSound(db: Db) {
    forall id :: id in db.messages ==> db.messages[id].replyCount == |Children(db, id)|
  }

  /** No step moves a row, re-parents it or changes its age; a new row is the newest. */
  lemma RowAfter(s: Sys, a: Action, id: Id)
    requires Enabled(s, a) && id in Apply(s, a).db.messages
    ensures s.db.inserted <= Apply(s, a).db.inserted
    ensures var m' := Apply(s, a).db.messages[id];
            if id in s.db.messages then
              var m := s.db.messages[id];
              && m'.channel == m.channel && m'.parent == m.parent && m'.born == m.born
              && m'.replyCount == m.replyCount + if a.Commit? && a.r.Reply? && a.r.parent == id then 1 else 0
            else
              && a.Commit? && (a.r.Send? || a.r.Reply?) && a.r.id == id
              && m'.channel == a.r.channel && m'.replyCount == 0
              && m'.born == s.db.inserted < Apply(s, a).db.inserted
              && m'.parent == if a.r.Reply? then Under(a.r.parent) else Root
  {
  }

  lemma RowsRemain(s: Sys, a: Action)
    requires Enabled(s, a)
    ensures s.db.messages.Keys <= Apply(s, a).db.messages.Keys
  {
  }

  lemma StepLinks(s: Sys, a: Action)
    requires LinksSound(s) && Enabled(s, a)
    ensures LinksSound(Apply(s, a))
  {
    var s' := Apply(s, a);
    RowsRemain(s, a);
    forall c | c in s'.db.messages
      ensures s'.db.messages[c].born < s'.db.inserted
      ensures s'.db.messages[c].parent.Under? ==>
                var p := s'.db.messages[c].parent.id;
                && p in s'.db.messages
                && s'.db.messages[p].channel == s'.db.messages[c].channel
                && s'.db.messages[p].born < s'.db.messages[c].born
    {
      RowAfter(s, a, c);
      if s'.db.messages[c].parent.Under? {
        var p := s'.db.messages[c].parent.id;
        assert p in s.db.messages;
        RowAfter(s, a, p);
      }
    }
    forall p | p in s'.seen ensures p.0 in s'.db.messages && s'.db.messages[p.0].channel == p.1 {
      RowAfter(s, a, p.0);
    }
  }

  lemma StepChildren(s: Sys, a: Action, id: Id)
    requires LinksSound(s) && Enabled(s, a)
    ensures Children(Apply(s, a).db, id) ==
            Children(s.db, id) + if a.Commit? && a.r.Reply? && a.r.parent == id then {a.r.id} else {}
    ensures id !in s.db.messages ==> Children(s.db, id) == {}
  {
    var s' := Apply(s, a);
    RowsRemain(s, a);
    forall c | c in s'.db.messages
      ensures c in Children(s'.db, id) <==>
              c in Children(s.db, id) || (a.Commit? && a.r.Reply? && a.r.parent == id && c == a.r.id)
    {
      RowAfter(s, a, c);
    }
  }

  lemma StepCounts(s: Sys, a: Action)
    requires LinksSound(s) && CountsSound(s.db) && Enabled(s, a)
    ensures CountsSound(Apply(s, a).db)
  {
    var s' := Apply(s, a);
    forall id | id in s'.db.messages ensures s'.db.messages[id].replyCount == |Children(s'.db, id)| {
      StepChildren(s, a, id);
      RowAfter(s, a, id);
      if a.Commit? && a.r.Reply? && a.r.parent == id {
        assert a.r.id !in Children(s.db, id);
      }
    }
  }

  lemma {:induction false} RunForest(s: Sys, acts: seq<Action>)
    requires Valid(s, acts) && LinksSound(s) && CountsSound(s.db)
    ensures LinksSound(Run(s, acts)) && CountsSound(Run(s, acts).db)
    decreases |acts|
  {
    if acts == [] {
    } else {
      StepLinks(s, acts[0]);
      StepCounts(s, acts[0]);
      RunForest(Apply(s, acts[0]), acts[1..]);
    }
  }

  /** `path` climbs from a message to its ancestors. */
  ghost predicate Climbs(db: Db, path: seq<Id>) {
    && (forall i :: 0 <= i < |path| ==> path[i] in db.messages)
    && (forall i :: 0 <= i < |path| - 1 ==> db.messages[path[i]].parent == Under(path[i + 1]))
  }

  lemma {:induction false} AncestorsAreOlder(s: Sys, path: seq<Id>)
    requires LinksSound(s) && Climbs(s.db, path) && |path| >= 2
    ensures s.db.messages[path[|path| - 1]].born < s.db.messages[path[0]].born
    ensures s.db.messages[path[|path| - 1]].channel == s.db.messages[path[0]].channel
    decreases |path|
  {
    var n := |path| - 1;
    assert s.db.messages[path[n - 1]].parent == Under(path[n]);
    if n == 1 {
    } else {
      AncestorsAreOlder(s, path[..n]);
    }
  }

  /** In every reachable state the parent links form a forest inside each channel, and a reply count is
      the number of rows that point at the message, soft-deleted rows included. */
  lemma ThreadForest(acts: seq<Action>, path: seq<Id>)
    requires Valid(START, acts)
    ensures CountsSound(Run(START, acts).db)
    ensures Climbs(Run(START, acts).db, path) && |path| >= 2 ==>
              && path[0] != path[|path| - 1]
              && Run(START, acts).db.messages[path[0]].channel == Run(START, acts).db.messages[path[|path| - 1]].channel
  {
    RunForest(START, acts);
    if Climbs(Run(START, acts).db, path) && |path| >= 2 {
      AncestorsAreOlder(Run(START, acts), path);
    }
  }
}
