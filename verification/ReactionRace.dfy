/** Reaction transactions opened concurrently at PostgreSQL's default READ COMMITTED level, which InTx of
    apps/api/services/database/tx.go uses: a statement sees committed rows only, an upsert locks its key
    against other writers, and a DELETE that finds no committed row locks nothing and does not wait. */
module ReactionRace {
  import opened MessageStore

  type Key = (Id, User)
  type TxId = nat

  datatype OpenTx = Adding(key: Key, emoji: string) | Removing(key: Key, sawRow: bool)

  datatype State = State(table: map<Key, string>, log: seq<Event>, open: map<TxId, OpenTx>)

  const INITIAL := State(map[], [], map[])

  datatype Step =
    | BeginAdd(t: TxId, key: Key, emoji: string)
    | BeginRemove(t: TxId, key: Key)
    | CommitTx(t: TxId)
    | AbortTx(t: TxId)

  predicate Locks(tx: OpenTx) { tx.Adding? || tx.sawRow }

  ghost predicate Locked(s: State, key: Key) {
    exists t :: t in s.open && s.open[t].key == key && Locks(s.open[t])
  }

  ghost predicate Possible(s: State, a: Step) {
    match a
    case BeginAdd(t, key, _) => t !in s.open && !Locked(s, key)
    case BeginRemove(t, key) => t !in s.open && (key in s.table ==> !Locked(s, key))
    case CommitTx(t) => t in s.open
    case AbortTx(t) => t in s.open
  }

  function EventOfTx(tx: OpenTx): Event {
    match tx
    case Adding(key, emoji) => ReactionAdded(key.0, key.1, emoji)
    case Removing(key, _) => ReactionRemoved(key.0, key.1)
  }

  ghost function Perform(s: State, a: Step): State
    requires Possible(s, a)
  {
    match a
    case BeginAdd(t, key, emoji) => s.(open := s.open[t := Adding(key, emoji)])
    case BeginRemove(t, key) => s.(open := s.open[t := Removing(key, key in s.table)])
    case CommitTx(t) =>
      var tx := s.open[t];
      State(match tx
            case Adding(key, emoji) => s.table[key := emoji]
            case Removing(key, sawRow) => if sawRow then s.table - {key} else s.table,
            s.log + [EventOfTx(tx)], s.open - {t})
    case AbortTx(t) => s.(open := s.open - {t})
  }

  predicate Agrees(s: State) { Replay(s.log).reactions == s.table }

  /** The commit of a removal whose DELETE found nothing although the row is there by now. */
  predicate MissedRemoval(s: State, a: Step) {
    a.CommitTx? && a.t in s.open && s.open[a.t].Removing? && !s.open[a.t].sawRow && s.open[a.t].key in s.table
  }

  /** One step breaks the agreement of log and table exactly when it is a missed removal. */
  lemma StepAgreesIff(s: State, a: Step)
    requires Possible(s, a) && Agrees(s)
    requires forall t :: t in s.open && s.open[t].Removing? && s.open[t].sawRow ==> s.open[t].key in s.table
    ensures Agrees(Perform(s, a)) <==> !MissedRemoval(s, a)
  {
    if a.CommitTx? {
      ReplaySnoc(s.log, EventOfTx(s.open[a.t]));
      var key := s.open[a.t].key;
      assert (key.0, key.1) == key;
      if MissedRemoval(s, a) {
        assert key !in Replay(Perform(s, a).log).reactions;
      }
    }
  }

  /** A removal that saw its row keeps it locked until it ends, and no key is locked twice. */
  ghost predicate LocksSound(s: State) {
    && (forall t :: t in s.open && s.open[t].Removing? && s.open[t].sawRow ==> s.open[t].key in s.table)
    && (forall t, u :: t in s.open && u in s.open && t != u && s.open[t].key == s.open[u].key && Locks(s.open[t]) ==>
          !Locks(s.open[u]))
  }

  lemma StepLocks(s: State, a: Step)
    requires Possible(s, a) && LocksSound(s)
    ensures LocksSound(Perform(s, a))
  {
  }

  ghost predicate PossibleRun(s: State, acts: seq<Step>)
    decreases |acts|
  {
    acts == [] || (Possible(s, acts[0]) && PossibleRun(Perform(s, acts[0]), acts[1..]))
  }

  ghost predicate AgreesThroughout(s: State, acts: seq<Step>)
    requires PossibleRun(s, acts)
    decreases |acts|
  {
    Agrees(s) && (acts != [] ==> AgreesThroughout(Perform(s, acts[0]), acts[1..]))
  }

  ghost predicate NoMissedRemoval(s: State, acts: seq<Step>)
    requires PossibleRun(s, acts)
    decreases |acts|
  {
    acts != [] ==> !MissedRemoval(s, acts[0]) && NoMissedRemoval(Perform(s, acts[0]), acts[1..])
  }

  lemma {:induction false} RunAgreesIff(s: State, acts: seq<Step>)
    requires PossibleRun(s, acts) && LocksSound(s) && Agrees(s)
    ensures AgreesThroughout(s, acts) <==> NoMissedRemoval(s, acts)
    decreases |acts|
  {
    if acts == [] {
    } else {
      var s' := Perform(s, acts[0]);
      StepAgreesIff(s, acts[0]);
      StepLocks(s, acts[0]);
      if Agrees(s') {
        RunAgreesIff(s', acts[1..]);
      }
    }
  }

  /** The reaction events rebuild the reaction table throughout a concurrent run exactly when no removal
      misses a row that an overlapping add commits first. */
  lemma ReactionLogFaithfulIff(acts: seq<Step>)
    requires PossibleRun(INITIAL, acts)
    ensures AgreesThroughout(INITIAL, acts) <==> NoMissedRemoval(INITIAL, acts)
  {
    RunAgreesIff(INITIAL, acts);
  }

  /** Such a run exists: a removal that starts while the add of the same reaction is uncommitted leaves
      the reaction in the table although the log ends with its removal. */
  lemma OverlappingRemovalDiverges(key: Key, emoji: string)
    ensures var acts := [BeginAdd(0, key, emoji), BeginRemove(1, key), CommitTx(0), CommitTx(1)];
            PossibleRun(INITIAL, acts) && !AgreesThroughout(INITIAL, acts)
  {
    var acts := [BeginAdd(0, key, emoji), BeginRemove(1, key), CommitTx(0), CommitTx(1)];
    var s1 := Perform(INITIAL, acts[0]);
    var s2 := Perform(s1, acts[1]);
    var s3 := Perform(s2, acts[2]);
    assert s2.open == map[0 := Adding(key, emoji), 1 := Removing(key, false)];
    assert s3.open == map[1 := Removing(key, false)] && key in s3.table;
    assert MissedRemoval(s3, acts[3]);
    assert acts[3..][1..] == [] && acts[2..][1..] == acts[3..] && acts[1..][1..] == acts[2..];
    assert PossibleRun(s3, acts[3..]) && !NoMissedRemoval(s3, acts[3..]);
    assert PossibleRun(s2, acts[2..]) && !NoMissedRemoval(s2, acts[2..]);
    assert PossibleRun(s1, acts[1..]) && !NoMissedRemoval(s1, acts[1..]);
    ReactionLogFaithfulIff(acts);
  }
}
