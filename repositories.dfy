/** `GenericRepository<T>` over an Entity Framework table of `BaseEntity`
    rows. Queries read the persisted table; `Add`, `Update`, `Remove` and
    the soft-delete pair only record a change in the change tracker, which
    `SaveChanges` applies in order. A transaction remembers the table as it
    was when it began, so a rollback brings those rows back. */
module Repositories {
  import opened Wrappers
  import opened Seqs
  import opened Transactions

  /** `BaseEntity` and the entity-specific fields `data`. */
  datatype Entity<T> = Entity(id: int, isActive: bool, isDelete: bool, data: T)

  /** A change the change tracker holds until `SaveChanges`. */
  datatype Change<T> = Added(entity: Entity<T>) | Updated(entity: Entity<T>) | Removed(entity: Entity<T>)

  /** The table, the next value of its identity column, the tracked changes,
      the transaction handle and the rows as they were when it began. */
  datatype RepoState<T> = RepoState(
    rows: seq<Entity<T>>, nextId: int, pending: seq<Change<T>>, tx: TxState, snapshot: seq<Entity<T>>)

  predicate Live<T>(e: Entity<T>) {
    !e.isDelete
  }

  predicate IdsUnique<T>(rows: seq<Entity<T>>) {
    forall j, k :: 0 <= j < k < |rows| ==> rows[j].id != rows[k].id
  }

  // ---------------------------------------------------------------- queries

  /** `GetAllAsync`: the rows not soft-deleted, in table order. */
  function GetAll<T>(rows: seq<Entity<T>>): (r: seq<Entity<T>>)
    ensures forall i :: 0 <= i < |r| ==> r[i] in rows && !r[i].isDelete
    ensures forall i :: 0 <= i < |rows| && !rows[i].isDelete ==> rows[i] in r
  {
    Filter(rows, (x: Entity<T>) => Live(x))
  }

  /** `GetByIdAsync`: the row with that key, unless it is soft-deleted. */
  function GetById<T>(rows: seq<Entity<T>>, id: int): (r: Option<Entity<T>>)
    ensures r.Some? ==> r.value in rows && r.value.id == id && !r.value.isDelete
    ensures IdsUnique(rows) ==>
      (r.None? <==> forall k :: 0 <= k < |rows| && rows[k].id == id ==> rows[k].isDelete)
  {
    match FirstIndexOf(rows, (x: Entity<T>) => x.id == id)
    case None => None
    case Some(i) => if rows[i].isDelete then None else Some(rows[i])
  }

  /** `GetAsync`: the live rows satisfying `p`, in table order. */
  function Get<T>(rows: seq<Entity<T>>, p: Entity<T> -> bool): (r: seq<Entity<T>>)
    ensures forall i :: 0 <= i < |r| ==> r[i] in rows && p(r[i]) && !r[i].isDelete
    ensures forall i :: 0 <= i < |rows| && p(rows[i]) && !rows[i].isDelete ==> rows[i] in r
  {
    Filter(Filter(rows, p), (x: Entity<T>) => Live(x))
  }

  /** `FirstOrDefaultAsync`: the first live row satisfying `p`. */
  function FirstOrDefault<T>(rows: seq<Entity<T>>, p: Entity<T> -> bool): (r: Option<Entity<T>>)
    ensures r.Some? ==> r.value in rows && p(r.value) && !r.value.isDelete
    ensures r.None? <==> forall k :: 0 <= k < |rows| ==> !(p(rows[k]) && !rows[k].isDelete)
    ensures r.Some? ==> exists k :: (0 <= k < |rows| && rows[k] == r.value
      && forall j :: 0 <= j < k ==> !(p(rows[j]) && !rows[j].isDelete))
  {
    match FirstIndexOf(rows, (x: Entity<T>) => p(x) && Live(x))
    case None => None
    case Some(i) => Some(rows[i])
  }

  /** `ExistsAsync`: unlike the other queries it does not skip soft-deleted rows. */
  function Exists<T>(rows: seq<Entity<T>>, p: Entity<T> -> bool): (r: bool)
    ensures r <==> exists k :: 0 <= k < |rows| && p(rows[k])
  {
    FirstIndexOf(rows, p).Some?
  }

  /** `CountAsync`: live rows, then the optional predicate. */
  function Count<T>(rows: seq<Entity<T>>, p: Option<Entity<T> -> bool>): (r: nat)
    ensures r <= |GetAll(rows)|
    ensures r == |set k: nat | k < |rows| && Live(rows[k]) && (p.None? || p.value(rows[k]))|
  {
    LiveMatchesCounted(rows, p);
    match p
    case None => |GetAll(rows)|
    case Some(q) => |Filter(GetAll(rows), q)|
  }

  /** The positions `CountAsync` counts are as many as the rows it returns. */
  lemma LiveMatchesCounted<T>(rows: seq<Entity<T>>, p: Option<Entity<T> -> bool>)
    ensures (if p.None? then |GetAll(rows)| else |Filter(GetAll(rows), p.value)|)
      == |set k: nat | k < |rows| && Live(rows[k]) && (p.None? || p.value(rows[k]))|
  {
    var live := (x: Entity<T>) => Live(x);
    var counted := set k: nat | k < |rows| && Live(rows[k]) && (p.None? || p.value(rows[k]));
    match p
    case None =>
      FilterLength(rows, live);
      assert IndicesWhere(rows, live) == counted;
    case Some(q) =>
      var both := (x: Entity<T>) => live(x) && q(x);
      assert GetAll(rows) == Filter(rows, live);
      FilterFilter(rows, live, q, both);
      FilterLength(rows, both);
      assert IndicesWhere(rows, both) == counted;
  }

  /** Counting with a predicate agrees with the length of `GetAsync`, although
      the two apply the soft-delete filter and the predicate in opposite order. */
  lemma CountAgreesWithGet<T>(rows: seq<Entity<T>>, p: Entity<T> -> bool)
    ensures Count(rows, Some(p)) == |Get(rows, p)|
  {
    FilterCommutesInCount(rows, (x: Entity<T>) => Live(x), p);
  }

  /** `GetAllAsync` returns every live row as often as the table holds it
      and no soft-deleted row ... */
  lemma GetAllExactlyLive<T>(rows: seq<Entity<T>>)
    ensures forall x :: multiset(GetAll(rows))[x] == if Live(x) then multiset(rows)[x] else 0
  {
    FilterMultiset(rows, (x: Entity<T>) => Live(x));
  }

  /** ... in table order: the live rows of a front part come before those of
      the rest. */
  lemma GetAllInTableOrder<T>(a: seq<Entity<T>>, b: seq<Entity<T>>)
    ensures GetAll(a + b) == GetAll(a) + GetAll(b)
  {
    FilterAppend(a, b, (x: Entity<T>) => Live(x));
  }

  /** `GetAsync` returns every live row satisfying the predicate as often as
      the table holds it, and nothing else, in table order. */
  lemma GetExactlyMatching<T>(rows: seq<Entity<T>>, p: Entity<T> -> bool, a: seq<Entity<T>>, b: seq<Entity<T>>)
    ensures forall x :: multiset(Get(rows, p))[x] == if p(x) && Live(x) then multiset(rows)[x] else 0
    ensures Get(a + b, p) == Get(a, p) + Get(b, p)
  {
    var live := (x: Entity<T>) => Live(x);
    FilterMultiset(rows, p);
    FilterMultiset(Filter(rows, p), live);
    FilterAppend(a, b, p);
    FilterAppend(Filter(a, p), Filter(b, p), live);
  }

  /** A soft-deleted row is invisible to `FirstOrDefaultAsync` but still
      answers `ExistsAsync`. */
  lemma ExistsSeesSoftDeleted<T>(rows: seq<Entity<T>>, p: Entity<T> -> bool, i: nat)
    requires i < |rows| && p(rows[i]) && rows[i].isDelete
    requires forall k :: 0 <= k < |rows| && p(rows[k]) ==> rows[k].isDelete
    ensures Exists(rows, p) && FirstOrDefault(rows, p).None?
  {
  }

  // ---------------------------------------------------------------- changes

  /** The row with `e`'s key replaced by `e`. */
  function ReplaceById<T>(rows: seq<Entity<T>>, e: Entity<T>): (r: seq<Entity<T>>)
    ensures |r| == |rows|
    ensures forall k :: 0 <= k < |rows| ==> r[k] == if rows[k].id == e.id then e else rows[k]
  {
    if rows == [] then []
    else
      assert forall k :: 1 <= k < |rows| ==> rows[k] == rows[1..][k - 1];
      [if rows[0].id == e.id then e else rows[0]] + ReplaceById(rows[1..], e)
  }

  /** The rows without `e`'s key. */
  function RemoveById<T>(rows: seq<Entity<T>>, e: Entity<T>): (r: seq<Entity<T>>)
    ensures forall i :: 0 <= i < |r| ==> r[i] in rows && r[i].id != e.id
    ensures forall i :: 0 <= i < |rows| && rows[i].id != e.id ==> rows[i] in r
  {
    Filter(rows, (x: Entity<T>) => x.id != e.id)
  }

  /** One tracked change written to the table. An added row takes the next
      identity value. */
  function ApplyChange<T>(s: RepoState<T>, c: Change<T>): RepoState<T> {
    match c
    case Added(e) => s.(rows := s.rows + [e.(id := s.nextId)], nextId := s.nextId + 1)
    case Updated(e) => s.(rows := ReplaceById(s.rows, e))
    case Removed(e) => s.(rows := RemoveById(s.rows, e))
  }

  /** The tracked changes written in the order they were recorded. */
  function ApplyAll<T>(s: RepoState<T>, cs: seq<Change<T>>): (r: RepoState<T>)
    ensures r.pending == s.pending && r.tx == s.tx && r.snapshot == s.snapshot
    ensures r.nextId == s.nextId + CountAdded(cs)
    decreases |cs|
  {
    if cs == [] then s else ApplyAll(ApplyChange(s, cs[0]), cs[1..])
  }

  function CountAdded<T>(cs: seq<Change<T>>): nat
    decreases |cs|
  {
    if cs == [] then 0 else (if cs[0].Added? then 1 else 0) + CountAdded(cs[1..])
  }

  /** Saving a single added entity appends it, keyed by the next identity value. */
  lemma SaveOneAdded<T>(s: RepoState<T>, e: Entity<T>)
    requires s.pending == []
    ensures SaveTx(s.(pending := [Added(e)])).rows == s.rows + [e.(id := s.nextId)]
  {
    var t := s.(pending := [Added(e)]);
    var u := ApplyChange(t, Added(e));
    assert t.pending[1..] == [];
    assert ApplyAll(t, t.pending) == ApplyAll(u, []) == u;
  }

  /** Saving in two batches writes the same table as saving once. */
  lemma {:induction false} ApplyAllAppend<T>(s: RepoState<T>, cs: seq<Change<T>>, ds: seq<Change<T>>)
    ensures ApplyAll(s, cs + ds) == ApplyAll(ApplyAll(s, cs), ds)
    decreases |cs|
  {
    if cs == [] {
      assert cs + ds == ds;
    } else {
      assert (cs + ds)[0] == cs[0];
      assert (cs + ds)[1..] == cs[1..] + ds;
      ApplyAllAppend(ApplyChange(s, cs[0]), cs[1..], ds);
    }
  }

  /** Soft-deleting a live row and restoring it gives back the table, and in
      between the row is hidden from `GetAllAsync` and `GetByIdAsync`. */
  lemma SoftDeleteRestoreRoundTrip<T>(rows: seq<Entity<T>>, i: nat)
    requires IdsUnique(rows) && i < |rows| && !rows[i].isDelete
    ensures var deleted := ReplaceById(rows, rows[i].(isDelete := true));
      && ReplaceById(deleted, rows[i]) == rows
      && GetById(deleted, rows[i].id).None?
      && rows[i] !in GetAll(deleted)
      && |GetAll(deleted)| < |GetAll(rows)|
  {
    var e := rows[i];
    var deleted := ReplaceById(rows, e.(isDelete := true));
    assert forall k :: 0 <= k < |rows| && k != i ==> deleted[k] == rows[k];
    assert ReplaceById(deleted, e) == rows;
    assert rows[i] !in deleted;
    FilterShorter(rows, deleted, i);
  }

  /** Replacing a live row by a deleted one leaves fewer live rows. */
  lemma {:induction false} FilterShorter<T>(rows: seq<Entity<T>>, deleted: seq<Entity<T>>, i: nat)
    requires |deleted| == |rows| && i < |rows| && !rows[i].isDelete && deleted[i].isDelete
    requires forall k :: 0 <= k < |rows| && k != i ==> deleted[k] == rows[k]
    ensures |GetAll(deleted)| < |GetAll(rows)|
    decreases |rows|
  {
    FilterCons(rows, (x: Entity<T>) => Live(x));
    FilterCons(deleted, (x: Entity<T>) => Live(x));
    if i == 0 {
      assert rows[1..] == deleted[1..];
    } else {
      FilterShorter(rows[1..], deleted[1..], i - 1);
    }
  }

  // ----------------------------------------------------------- transactions

  function BeginTx<T>(s: RepoState<T>): (r: RepoState<T>)
    ensures r.tx == Begin(s.tx) && r.rows == s.rows && r.pending == s.pending
    ensures !s.tx.open ==> r.snapshot == s.rows
  {
    if s.tx.open then s else s.(tx := Begin(s.tx), snapshot := s.rows)
  }

  function SaveTx<T>(s: RepoState<T>): (r: RepoState<T>)
    ensures r.pending == [] && r.tx == Save(s.tx) && r.snapshot == s.snapshot
  {
    ApplyAll(s, s.pending).(pending := [], tx := Save(s.tx))
  }

  function CommitTx<T>(s: RepoState<T>): (r: RepoState<T>)
    ensures r.tx == Commit(s.tx) && r.rows == s.rows
  {
    s.(tx := Commit(s.tx))
  }

  /** A rollback restores the rows; identity values already handed out are
      not reused, as in SQL Server. */
  function RollbackTx<T>(s: RepoState<T>): (r: RepoState<T>)
    ensures r.tx == Rollback(s.tx) && r.nextId == s.nextId
    ensures s.tx.open ==> r.rows == s.snapshot
    ensures !s.tx.open ==> r == s
  {
    if !s.tx.open then s else s.(tx := Rollback(s.tx), rows := s.snapshot)
  }

  /** Inside a transaction, saves are undone by a rollback and kept by a commit. */
  lemma {:induction false} TransactionOutcome<T>(s: RepoState<T>, later: seq<Change<T>>)
    requires !s.tx.open
    ensures var saved := SaveTx(SaveTx(BeginTx(s)).(pending := later));
      && RollbackTx(saved).rows == s.rows
      && CommitTx(saved).rows == ApplyAll(s, s.pending + later).rows
      && !RollbackTx(saved).tx.open && !CommitTx(saved).tx.open
  {
    ApplyAllAppend(s, s.pending, later);
    var b := BeginTx(s);
    ApplyAllIgnores(b, s, s.pending);
    var first := SaveTx(b);
    ApplyAllIgnores(first.(pending := later), ApplyAll(s, s.pending), later);
  }

  /** `ApplyAll` depends on the table and its identity counter only. */
  lemma {:induction false} ApplyAllIgnores<T>(a: RepoState<T>, b: RepoState<T>, cs: seq<Change<T>>)
    requires a.rows == b.rows && a.nextId == b.nextId
    ensures ApplyAll(a, cs).rows == ApplyAll(b, cs).rows
    decreases |cs|
  {
    if cs != [] {
      ApplyAllIgnores(ApplyChange(a, cs[0]), ApplyChange(b, cs[0]), cs[1..]);
    }
  }

  // ------------------------------------------------------------------ class

  class GenericRepository<T> {
    var rows: seq<Entity<T>>
    var nextId: int
    var pending: seq<Change<T>>
    /** `_currentTransaction != null`, and the requests sent so far. */
    var current: bool
    var log: seq<TxEvent>
    var snapshot: seq<Entity<T>>

    function State(): RepoState<T>
      reads this
    {
      RepoState(rows, nextId, pending, TxState(current, log), snapshot)
    }

    constructor (rows: seq<Entity<T>>, nextId: int)
      ensures State() == RepoState(rows, nextId, [], Idle, [])
    {
      this.rows := rows;
      this.nextId := nextId;
      pending := [];
      current := false;
      log := [];
      snapshot := [];
    }

    method Add(entity: Entity<T>) returns (r: Entity<T>)
      modifies this
      ensures r == entity && State() == old(State()).(pending := old(pending) + [Added(entity)])
    {
      pending := pending + [Added(entity)];
      r := entity;
    }

    method AddRange(entities: seq<Entity<T>>)
      modifies this
      ensures State() == old(State()).(pending := old(pending) + seq(|entities|, i requires 0 <= i < |entities| => Added(entities[i])))
    {
      pending := pending + seq(|entities|, i requires 0 <= i < |entities| => Added(entities[i]));
    }

    method Update(entity: Entity<T>)
      modifies this
      ensures State() == old(State()).(pending := old(pending) + [Updated(entity)])
    {
      pending := pending + [Updated(entity)];
    }

    method Remove(entity: Entity<T>)
      modifies this
      ensures State() == old(State()).(pending := old(pending) + [Removed(entity)])
    {
      pending := pending + [Removed(entity)];
    }

    /** Returns the caller's entity with the flag set, as the source mutates it. */
    method SoftDelete(entity: Entity<T>) returns (r: Entity<T>)
      modifies this
      ensures r == entity.(isDelete := true)
      ensures State() == old(State()).(pending := old(pending) + [Updated(r)])
    {
      r := entity.(isDelete := true);
      Update(r);
    }

    method Restore(entity: Entity<T>) returns (r: Entity<T>)
      modifies this
      ensures r == entity.(isDelete := false)
      ensures State() == old(State()).(pending := old(pending) + [Updated(r)])
    {
      r := entity.(isDelete := false);
      Update(r);
    }

    /** Writes the tracked changes in order; returns how many there were. */
    method SaveChanges() returns (n: nat)
      modifies this
      ensures State() == SaveTx(old(State())) && n == |old(pending)|
    {
      var s := ApplyAll(State(), pending);
      n := |pending|;
      rows, nextId := s.rows, s.nextId;
      pending := [];
      log := log + [Saved];
    }

    method BeginTransaction()
      modifies this
      ensures State() == BeginTx(old(State()))
    {
      if current {
        return;
      }
      current := true;
      log := log + [Began];
      snapshot := rows;
    }

    method CommitTransaction()
      modifies this
      ensures State() == CommitTx(old(State()))
    {
      if !current {
        return;
      }
      log := log + [Committed];
      current := false;
    }

    method RollbackTransaction()
      modifies this
      ensures State() == RollbackTx(old(State()))
    {
      if !current {
        return;
      }
      log := log + [RolledBack];
      current := false;
      rows := snapshot;
    }
  }
}
