// One writer, enforced by row locks: producers read the owner row FOR SHARE inside the
// transaction that writes their events (src/epigone/position_publish.py), transfers take
// it FOR UPDATE (src/epigone/lane_authority.py). The theorem is about commit order.
module LaneLocks {
  import opened Wrappers
  import opened LaneAuthority

  type TxnId = nat

  /** What a transaction writes: an event row, or the owner row. */
  datatype Entry = EventRow(source: Owner, authoritative: bool) | OwnerRow(to: Owner)

  datatype Lock = Unlocked | Share | Exclusive

  /** An open transaction: its lock on the owner row, the owner it has written but not
      committed, what its last `owns` read answered, and its writes in order. */
  datatype Txn = Txn(source: Owner, lock: Lock, pending: Option<Owner>, owns: Option<bool>, journal: seq<Entry>)

  /** The committed state: whether the owner row exists, what it says, every open
      transaction and everything committed, in commit order. */
  datatype System = System(present: bool, owner: Owner, open: map<TxnId, Txn>, log: seq<Entry>)

  datatype Step =
    | Begin(id: TxnId, source: Owner)
    | OwnsRead(id: TxnId)
    | Record(id: TxnId)
    | LockForUpdate(id: TxnId)
    | TakeOwnership(id: TxnId, to: Owner)
    | Commit(id: TxnId)
    | Abort(id: TxnId)

  /** What transaction `t` reads in the row: its own write, else the committed owner. */
  function Visible(owner: Owner, t: Txn): Owner { t.pending.GetOr(owner) }

  predicate NoOtherHolds(s: System, id: TxnId, locks: set<Lock>) {
    forall other :: other in s.open && other != id ==> s.open[other].lock !in locks
  }

  /** A step the database lets through now; any other waits. Row locks protect only a row
      that exists. `publish` writes events right after its own ownership read. */
  predicate Enabled(s: System, step: Step) {
    match step
    case Begin(id, _) => id !in s.open
    case OwnsRead(id) => id in s.open && (s.present ==> NoOtherHolds(s, id, {Exclusive}))
    case Record(id) => id in s.open && s.open[id].owns.Some?
    case LockForUpdate(id) => id in s.open && (s.present ==> NoOtherHolds(s, id, {Share, Exclusive}))
    case TakeOwnership(id, _) => id in s.open && s.open[id].lock == Exclusive
    case Commit(id) => id in s.open
    case Abort(id) => id in s.open
  }

  function Apply(s: System, step: Step): System
    requires Enabled(s, step)
  {
    match step
    case Begin(id, source) => s.(open := s.open[id := Txn(source, Unlocked, None, None, [])])
    case OwnsRead(id) =>
      var t := s.open[id];
      var lock := if t.lock == Exclusive then Exclusive else Share;
      s.(open := s.open[id := t.(lock := lock, owns := Some(Visible(s.owner, t) == t.source))])
    case Record(id) =>
      var t := s.open[id];
      s.(open := s.open[id := t.(journal := t.journal + [EventRow(t.source, t.owns.value)])])
    case LockForUpdate(id) => s.(open := s.open[id := s.open[id].(lock := Exclusive)])
    case TakeOwnership(id, to) =>
      var t := s.open[id];
      s.(open := s.open[id := t.(pending := Some(to), owns := None, journal := t.journal + [OwnerRow(to)])])
    case Commit(id) =>
      var t := s.open[id];
      System(s.present || t.pending.Some?, Visible(s.owner, t), s.open - {id}, s.log + t.journal)
    case Abort(id) => s.(open := s.open - {id})
  }

  /** Any interleaving: steps that would wait have no effect until retried. */
  function Exec(s: System, steps: seq<Step>): System {
    if steps == [] then s
    else
      var before, last := Exec(s, steps[..|steps| - 1]), steps[|steps| - 1];
      if Enabled(before, last) then Apply(before, last) else before
  }

  /** The owner after replaying committed writes from `owner`. */
  function OwnerAfter(owner: Owner, log: seq<Entry>): Owner {
    if log == [] then owner
    else
      var last := log[|log| - 1];
      if last.OwnerRow? then last.to else OwnerAfter(owner, log[..|log| - 1])
  }

  /** No lane mixes into another's epoch: every authoritative event was written by the
      lane that owned production at its place in commit order. */
  predicate Exclusively(owner: Owner, log: seq<Entry>) {
    forall i :: 0 <= i < |log| && Authoritative(log[i]) ==>
      log[i].source == OwnerAfter(owner, log[..i])
  }

  lemma {:induction false} OwnerAfterConcat(owner: Owner, a: seq<Entry>, b: seq<Entry>)
    ensures OwnerAfter(owner, a + b) == OwnerAfter(OwnerAfter(owner, a), b)
  {
    if b == [] {
      assert a + b == a;
    } else {
      assert (a + b)[..|a + b| - 1] == a + b[..|b| - 1];
      OwnerAfterConcat(owner, a, b[..|b| - 1]);
    }
  }

  lemma ExclusivelyConcat(owner: Owner, a: seq<Entry>, b: seq<Entry>)
    requires Exclusively(owner, a) && Exclusively(OwnerAfter(owner, a), b)
    ensures Exclusively(owner, a + b)
  {
    forall i | 0 <= i < |a + b| && (a + b)[i].EventRow? && (a + b)[i].authoritative
      ensures (a + b)[i].source == OwnerAfter(owner, (a + b)[..i])
    {
      if i < |a| {
        assert (a + b)[..i] == a[..i];
      } else {
        assert (a + b)[..i] == a + b[..i - |a|];
        OwnerAfterConcat(owner, a, b[..i - |a|]);
      }
    }
  }

  // ---------------------------------------------------------------------------
  // What every step keeps
  // ---------------------------------------------------------------------------

  /** One open transaction is consistent with the committed owner: without a lock it has
      written nothing; an ownership answer it still holds is still true; and its journal,
      committed now, would not mix lanes. */
  predicate Consistent(owner: Owner, t: Txn) {
    && (t.lock == Unlocked ==> t.journal == [] && t.owns == None)
    && (t.pending.Some? ==> t.lock == Exclusive)
    && (t.owns == Some(true) ==> Visible(owner, t) == t.source)
    && Exclusively(owner, t.journal)
    && OwnerAfter(owner, t.journal) == Visible(owner, t)
  }

  predicate Compatible(s: System, id: TxnId, lock: Lock) {
    && (lock == Share ==> NoOtherHolds(s, id, {Exclusive}))
    && (lock == Exclusive ==> NoOtherHolds(s, id, {Share, Exclusive}))
  }

  predicate Invariant(initial: Owner, s: System) {
    && s.present
    && (forall id :: id in s.open ==> Consistent(s.owner, s.open[id]) && Compatible(s, id, s.open[id].lock))
    && Exclusively(initial, s.log)
    && OwnerAfter(initial, s.log) == s.owner
  }

  lemma JournalGrows(owner: Owner, t: Txn, entry: Entry)
    requires Consistent(owner, t)
    requires entry.EventRow? && entry.authoritative ==> entry.source == Visible(owner, t)
    ensures Exclusively(owner, t.journal + [entry])
    ensures OwnerAfter(owner, t.journal + [entry]) == if entry.OwnerRow? then entry.to else Visible(owner, t)
  {
    assert (t.journal + [entry])[..|t.journal|] == t.journal;
    forall i | 0 <= i < |t.journal|
      ensures (t.journal + [entry])[..i] == t.journal[..i]
    {
    }
  }

  /** A step inside one open transaction disturbs no other. */
  lemma LocalStepKeepsInvariant(initial: Owner, s: System, id: TxnId, t: Txn)
    requires Invariant(initial, s)
    requires Consistent(s.owner, t) && Compatible(s, id, t.lock)
    requires id !in s.open ==> t.lock == Unlocked
    ensures Invariant(initial, s.(open := s.open[id := t]))
  {
    var s' := s.(open := s.open[id := t]);
    forall other | other in s'.open
      ensures Consistent(s'.owner, s'.open[other]) && Compatible(s', other, s'.open[other].lock)
    {
      if other != id { assert Compatible(s, other, s.open[other].lock); }
    }
  }

  /** A commit moves the owner only under an exclusive lock, when nobody else holds any. */
  lemma CommitKeepsInvariant(initial: Owner, s: System, id: TxnId)
    requires Invariant(initial, s) && id in s.open
    ensures Invariant(initial, Apply(s, Commit(id)))
  {
    var t, s' := s.open[id], Apply(s, Commit(id));
    ExclusivelyConcat(initial, s.log, t.journal);
    OwnerAfterConcat(initial, s.log, t.journal);
    forall other | other in s'.open
      ensures Consistent(s'.owner, s'.open[other]) && Compatible(s', other, s'.open[other].lock)
    {
      assert Compatible(s, other, s.open[other].lock) && Compatible(s, id, t.lock);
      if t.pending.Some? { assert s.open[other].lock == Unlocked; }
    }
  }

  lemma StepKeepsInvariant(initial: Owner, s: System, step: Step)
    requires Invariant(initial, s) && Enabled(s, step)
    ensures Invariant(initial, Apply(s, step))
  {
    var id := step.id;
    match step {
      case Begin(_, source) =>
        LocalStepKeepsInvariant(initial, s, id, Txn(source, Unlocked, None, None, []));
      case OwnsRead(_) =>
        LocalStepKeepsInvariant(initial, s, id, Apply(s, step).open[id]);
      case Record(_) =>
        var t := s.open[id];
        JournalGrows(s.owner, t, EventRow(t.source, t.owns.value));
        LocalStepKeepsInvariant(initial, s, id, Apply(s, step).open[id]);
      case LockForUpdate(_) =>
        LocalStepKeepsInvariant(initial, s, id, Apply(s, step).open[id]);
      case TakeOwnership(_, to) =>
        JournalGrows(s.owner, s.open[id], OwnerRow(to));
        LocalStepKeepsInvariant(initial, s, id, Apply(s, step).open[id]);
      case Commit(_) => CommitKeepsInvariant(initial, s, id);
      case Abort(_) => AbortKeepsInvariant(initial, s, id);
    }
  }

  lemma AbortKeepsInvariant(initial: Owner, s: System, id: TxnId)
    requires Invariant(initial, s) && id in s.open
    ensures Invariant(initial, Apply(s, Abort(id)))
  {
    var s' := Apply(s, Abort(id));
    forall other | other in s'.open
      ensures Consistent(s'.owner, s'.open[other]) && Compatible(s', other, s'.open[other].lock)
    {
      assert Compatible(s, other, s.open[other].lock);
    }
  }

  lemma {:induction false} ExecKeepsInvariant(initial: Owner, steps: seq<Step>)
    ensures Invariant(initial, Exec(System(true, initial, map[], []), steps))
  {
    if steps != [] {
      var before := Exec(System(true, initial, map[], []), steps[..|steps| - 1]);
      ExecKeepsInvariant(initial, steps[..|steps| - 1]);
      if Enabled(before, steps[|steps| - 1]) { StepKeepsInvariant(initial, before, steps[|steps| - 1]); }
    }
  }

  /** The guarantee. From a row that exists, in every interleaving of producers' and
      transferrers' transactions with aborts anywhere, commit order splits authoritative
      events into ownership epochs that never mix lanes. */
  lemma EpochsNeverMix(initial: Owner, steps: seq<Step>)
    ensures Exclusively(initial, Exec(System(true, initial, map[], []), steps).log)
  {
    ExecKeepsInvariant(initial, steps);
  }

  predicate Authoritative(entry: Entry) { entry.EventRow? && entry.authoritative }

  /** Read as epochs: two authoritative events with no transfer committed between them come
      from the same lane. */
  lemma {:induction false} OneLanePerEpoch(owner: Owner, log: seq<Entry>, i: nat, j: nat)
    requires Exclusively(owner, log)
    requires i <= j < |log| && Authoritative(log[i]) && Authoritative(log[j])
    requires forall k :: i <= k < j ==> log[k].EventRow?
    ensures log[i].source == log[j].source
  {
    var k := j;
    while k > i
      invariant i <= k <= j
      invariant OwnerAfter(owner, log[..k]) == OwnerAfter(owner, log[..j])
    {
      k := k - 1;
      assert log[..k + 1][..k] == log[..k];
    }
  }

  /** Moreover the answer cannot go stale between the read and the commit: while any
      transaction holds a positive ownership answer it has not itself overwritten, the
      committed owner is its source. */
  lemma OwnershipReadStaysTrue(initial: Owner, steps: seq<Step>, id: TxnId)
    requires var s := Exec(System(true, initial, map[], []), steps);
             id in s.open && s.open[id].owns == Some(true) && s.open[id].pending == None
    ensures var s := Exec(System(true, initial, map[], []), steps); s.owner == s.open[id].source
  {
    ExecKeepsInvariant(initial, steps);
  }

  lemma ExecGoesOn(s: System, steps: seq<Step>, reached: System, step: Step)
    requires Exec(s, steps) == reached && Enabled(reached, step)
    ensures Exec(s, steps + [step]) == Apply(reached, step)
  {
    assert (steps + [step])[..|steps|] == steps;
  }

  /** And the locks stop nobody for long. However many producers are reading, another one
      reads beside them and commits an event that is authoritative exactly when its own lane
      owns production. */
  lemma ProducersDoNotWaitForEachOther(s: System, id: TxnId, source: Owner) returns (steps: seq<Step>)
    requires id !in s.open && forall other :: other in s.open ==> s.open[other].lock != Exclusive
    ensures Exec(s, steps).log == s.log + [EventRow(source, s.owner == source)] && Exec(s, steps).owner == s.owner
  {
    ExecGoesOn(s, [], s, Begin(id, source));
    var begun := Apply(s, Begin(id, source));
    ExecGoesOn(s, [] + [Begin(id, source)], begun, OwnsRead(id));
    var read := Apply(begun, OwnsRead(id));
    ExecGoesOn(s, [] + [Begin(id, source)] + [OwnsRead(id)], read, Record(id));
    var written := Apply(read, Record(id));
    ExecGoesOn(s, [] + [Begin(id, source)] + [OwnsRead(id)] + [Record(id)], written, Commit(id));
    steps := [] + [Begin(id, source)] + [OwnsRead(id)] + [Record(id)] + [Commit(id)];
  }

  /** Once no other transaction holds a lock a transfer goes through, to whichever lane. */
  lemma TransferWaitsOnlyForLocks(s: System, id: TxnId, source: Owner, to: Owner) returns (steps: seq<Step>)
    requires id !in s.open && forall other :: other in s.open ==> s.open[other].lock == Unlocked
    ensures Exec(s, steps).log == s.log + [OwnerRow(to)] && Exec(s, steps).owner == to && Exec(s, steps).present
  {
    ExecGoesOn(s, [], s, Begin(id, source));
    var begun := Apply(s, Begin(id, source));
    ExecGoesOn(s, [] + [Begin(id, source)], begun, LockForUpdate(id));
    var locked := Apply(begun, LockForUpdate(id));
    ExecGoesOn(s, [] + [Begin(id, source)] + [LockForUpdate(id)], locked, TakeOwnership(id, to));
    var written := Apply(locked, TakeOwnership(id, to));
    ExecGoesOn(s, [] + [Begin(id, source)] + [LockForUpdate(id)] + [TakeOwnership(id, to)], written, Commit(id));
    steps := [] + [Begin(id, source)] + [LockForUpdate(id)] + [TakeOwnership(id, to)] + [Commit(id)];
  }

  /** Row locks protect nothing when the row is absent, which is why it is seeded: a
      producer's answer survives a first transfer that inserts the row, and its events
      land as authoritative in the other lane's epoch. */
  lemma AbsentRowProtectsNothing()
    ensures exists steps: seq<Step> :: !Exclusively(Poll, Exec(System(false, Poll, map[], []), steps).log)
  {
    var empty := System(false, Poll, map[], []);
    var transferred := AbsentRowLetsATransferThrough(empty);
    var producer := Txn(Poll, Share, None, Some(true), []);
    var moved := System(true, Ws, map[1 := producer], [OwnerRow(Ws)]);
    ExecGoesOn(empty, transferred, moved, Record(1));
    ExecGoesOn(empty, transferred + [Record(1)], Apply(moved, Record(1)), Commit(1));
    var log := Exec(empty, transferred + [Record(1)] + [Commit(1)]).log;
    assert log == [OwnerRow(Ws), EventRow(Poll, true)];
    assert OwnerAfter(Poll, log[..1]) == Ws;
  }

  /** The first half of that run: the transfer commits while the producer holds its answer. */
  lemma AbsentRowLetsATransferThrough(empty: System) returns (steps: seq<Step>)
    requires empty == System(false, Poll, map[], [])
    ensures Exec(empty, steps) == System(true, Ws, map[1 := Txn(Poll, Share, None, Some(true), [])], [OwnerRow(Ws)])
  {
    var read := AbsentRowAnswersPoll(empty);
    var producer := Txn(Poll, Share, None, Some(true), []);
    var answered := empty.(open := map[1 := producer]);
    ExecGoesOn(empty, read, answered, Begin(2, Ws));
    var begun := Apply(answered, Begin(2, Ws));
    ExecGoesOn(empty, read + [Begin(2, Ws)], begun, LockForUpdate(2));
    var locked := Apply(begun, LockForUpdate(2));
    var asked := read + [Begin(2, Ws)] + [LockForUpdate(2)];
    ExecGoesOn(empty, asked, locked, TakeOwnership(2, Ws));
    var written := Apply(locked, TakeOwnership(2, Ws));
    ExecGoesOn(empty, asked + [TakeOwnership(2, Ws)], written, Commit(2));
    assert written.open - {2} == map[1 := producer];
    steps := asked + [TakeOwnership(2, Ws)] + [Commit(2)];
  }

  lemma AbsentRowAnswersPoll(empty: System) returns (steps: seq<Step>)
    requires empty == System(false, Poll, map[], [])
    ensures Exec(empty, steps) == empty.(open := map[1 := Txn(Poll, Share, None, Some(true), [])])
  {
    ExecGoesOn(empty, [], empty, Begin(1, Poll));
    ExecGoesOn(empty, [] + [Begin(1, Poll)], Apply(empty, Begin(1, Poll)), OwnsRead(1));
    steps := [] + [Begin(1, Poll)] + [OwnsRead(1)];
  }
}
