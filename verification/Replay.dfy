/**
 Replaying a table archive (app/backup/adapters.py:212-342): empty the tables
 children first, fill them parents first, then move the identity sequences on.

 The database checks every foreign key after every statement; a violation makes
 the statement fail and the whole transaction is rolled back.
*/
module Replay {

  type Table = string

  /** `refs` holds the foreign-key columns that are not null. */
  datatype Row = Row(id: int, refs: map<string, int>, data: string)
  datatype ForeignKey = ForeignKey(child: Table, column: string, parent: Table)
  type Db = map<Table, seq<Row>>

  // ---------------------------------------------------------------- integrity

  predicate HasId(rows: seq<Row>, id: int) {
    exists i :: 0 <= i < |rows| && rows[i].id == id
  }

  predicate RefHolds(db: Db, fk: ForeignKey, row: Row) {
    fk.column in row.refs ==> fk.parent in db && HasId(db[fk.parent], row.refs[fk.column])
  }

  predicate KeyHolds(db: Db, fk: ForeignKey) {
    fk.child in db ==> forall i :: 0 <= i < |db[fk.child]| ==> RefHolds(db, fk, db[fk.child][i])
  }

  predicate Integrity(db: Db, fks: set<ForeignKey>) {
    forall fk | fk in fks :: KeyHolds(db, fk)
  }

  /** Where the table stands in the order, or the length of the order. */
  ghost function Position(order: seq<Table>, t: Table): (p: nat)
    ensures if t in order then p < |order| && order[p] == t else p == |order|
  {
    if t in order then var p: nat :| p < |order| && order[p] == t; p else |order|
  }

  /** Each table once, and every parent before its children; a table may refer to itself. */
  ghost predicate ParentsFirst(order: seq<Table>, fks: set<ForeignKey>) {
    && (forall i, j :: 0 <= i < j < |order| ==> order[i] != order[j])
    && (forall fk | fk in fks :: fk.child in order && fk.child != fk.parent ==> Position(order, fk.parent) < Position(order, fk.child))
  }

  /** Reflecting a table brings in the tables it refers to, so no parent is left outside. */
  predicate ParentsInside(order: seq<Table>, fks: set<ForeignKey>) {
    forall fk | fk in fks && fk.child in order :: fk.parent in order
  }

  // ---------------------------------------------------------------- the states a replay goes through

  /** After the tables from position `j` on were emptied. */
  ghost function Emptied(db: Db, order: seq<Table>, j: nat): Db {
    map t | t in db :: if j <= Position(order, t) < |order| then [] else db[t]
  }

  /** After the tables before position `j` were filled and the first `r` rows of table `j` inserted. */
  ghost function Filled(db: Db, archive: Db, order: seq<Table>, j: nat, r: nat): Db
    requires forall t :: t in order ==> t in archive
    requires j < |order| ==> r <= |archive[order[j]]|
  {
    map t | t in db :: var p := Position(order, t);
      if p == |order| then db[t] else if p < j then archive[t] else if p == j then archive[t][..r] else []
  }

  function Replayed(db: Db, archive: Db, order: seq<Table>): Db {
    map t | t in db :: if t in order && t in archive then archive[t] else db[t]
  }

  /** A row that refers to its own table refers to an earlier row, or to itself. */
  predicate EarlierFirst(rows: seq<Row>, column: string) {
    forall r :: 0 <= r < |rows| && column in rows[r].refs ==> HasId(rows[..r + 1], rows[r].refs[column])
  }

  predicate SelfRefsInOrder(archive: Db, order: seq<Table>, fks: set<ForeignKey>) {
    forall fk | fk in fks && fk.child == fk.parent && fk.child in order && fk.child in archive :: EarlierFirst(archive[fk.child], fk.column)
  }

  /** What a replay is given: the reflected tables in order, a consistent database, and rows for each table, none for one that was not archived. */
  ghost predicate Ready(db: Db, archive: Db, order: seq<Table>, fks: set<ForeignKey>) {
    && ParentsFirst(order, fks) && ParentsInside(order, fks)
    && (forall t :: t in order ==> t in archive && t in db)
    && Integrity(db, fks)
  }

  /** No row of a table that stays refers to a table that is replayed. */
  predicate NoOutsideRefs(db: Db, order: seq<Table>, fks: set<ForeignKey>) {
    forall fk | fk in fks && fk.child !in order && fk.parent in order && fk.child in db ::
      forall i :: 0 <= i < |db[fk.child]| ==> fk.column !in db[fk.child][i].refs
  }

  /** Every archived row refers to archived rows. */
  predicate Consistent(archive: Db, order: seq<Table>, fks: set<ForeignKey>) {
    forall fk | fk in fks && fk.child in order :: KeyHolds(archive, fk)
  }

  /** The archive fits the database: on this, and on nothing else, the replay depends. */
  predicate Fits(db: Db, archive: Db, order: seq<Table>, fks: set<ForeignKey>) {
    NoOutsideRefs(db, order, fks) && Consistent(archive, order, fks) && SelfRefsInOrder(archive, order, fks)
  }

  lemma PositionOf(order: seq<Table>, p: nat)
    requires p < |order| && forall i, j :: 0 <= i < j < |order| ==> order[i] != order[j]
    ensures Position(order, order[p]) == p
  {}

  /** Emptying children before parents leaves no row without its parent, unless a table that stays refers to one that goes. */
  lemma EmptiedHolds(db: Db, archive: Db, order: seq<Table>, fks: set<ForeignKey>, j: nat)
    requires Ready(db, archive, order, fks) && NoOutsideRefs(db, order, fks)
    ensures Integrity(Emptied(db, order, j), fks)
  {
    var e: Db := Emptied(db, order, j);
    forall fk: ForeignKey, i: nat | fk in fks && fk.child in e && i < |e[fk.child]| ensures RefHolds(e, fk, e[fk.child][i]) {
      assert KeyHolds(db, fk) && RefHolds(db, fk, db[fk.child][i]);
    }
  }

  lemma OutsideRefBreaks(db: Db, archive: Db, order: seq<Table>, fks: set<ForeignKey>)
    requires Ready(db, archive, order, fks) && !NoOutsideRefs(db, order, fks)
    ensures !Integrity(Emptied(db, order, 0), fks)
  {
    var fk: ForeignKey :| fk in fks && fk.child !in order && fk.parent in order && fk.child in db
      && exists i :: 0 <= i < |db[fk.child]| && fk.column in db[fk.child][i].refs;
    var i :| 0 <= i < |db[fk.child]| && fk.column in db[fk.child][i].refs;
    var e := Emptied(db, order, 0);
    assert e[fk.parent] == [] && !RefHolds(e, fk, e[fk.child][i]);
    assert !KeyHolds(e, fk);
  }

  lemma PrefixHasId(rows: seq<Row>, n: nat, m: nat, id: int)
    requires n <= m <= |rows| && HasId(rows[..n], id)
    ensures HasId(rows[..m], id)
  {
    var i :| 0 <= i < n && rows[..n][i].id == id;
    assert rows[..m][i].id == id;
  }

  /** A row that is there while tables are filled refers to rows that are there too. */
  lemma FilledRowHolds(db: Db, archive: Db, order: seq<Table>, fks: set<ForeignKey>, j: nat, r: nat, fk: ForeignKey, i: nat)
    requires Ready(db, archive, order, fks) && Fits(db, archive, order, fks)
    requires j <= |order| && (j < |order| ==> r <= |archive[order[j]]|)
    requires fk in fks && fk.child in db && i < |Filled(db, archive, order, j, r)[fk.child]|
    ensures RefHolds(Filled(db, archive, order, j, r), fk, Filled(db, archive, order, j, r)[fk.child][i])
  {
    var f := Filled(db, archive, order, j, r);
    var row := f[fk.child][i];
    var p := Position(order, fk.child);
    if p == |order| {
      assert KeyHolds(db, fk) && RefHolds(db, fk, db[fk.child][i]);
    } else {
      assert p <= j && row == archive[fk.child][i];
      assert KeyHolds(archive, fk) && RefHolds(archive, fk, archive[fk.child][i]);
      if fk.child == fk.parent && p == j && fk.column in row.refs {
        assert EarlierFirst(archive[fk.child], fk.column);
        PrefixHasId(archive[fk.child], i + 1, r, row.refs[fk.column]);
      }
    }
  }

  lemma FilledHolds(db: Db, archive: Db, order: seq<Table>, fks: set<ForeignKey>, j: nat, r: nat)
    requires Ready(db, archive, order, fks) && Fits(db, archive, order, fks)
    requires j <= |order| && (j < |order| ==> r <= |archive[order[j]]|)
    ensures Integrity(Filled(db, archive, order, j, r), fks)
  {
    var f: Db := Filled(db, archive, order, j, r);
    forall fk: ForeignKey, i: nat | fk in fks && fk.child in f && i < |f[fk.child]| ensures RefHolds(f, fk, f[fk.child][i]) {
      FilledRowHolds(db, archive, order, fks, j, r, fk, i);
    }
  }

  /** The insert of row `r` breaks integrity when what it refers to is not in its parent's rows so far. */
  lemma TooEarlyBreaks(db: Db, archive: Db, order: seq<Table>, fks: set<ForeignKey>, j: nat, r: nat, fk: ForeignKey)
    requires Ready(db, archive, order, fks) && j < |order| && r < |archive[order[j]]|
    requires fk in fks && fk.child == order[j] && fk.column in archive[order[j]][r].refs
    requires !HasId(if fk.parent == fk.child then archive[fk.child][..r + 1] else archive[fk.parent], archive[fk.child][r].refs[fk.column])
    ensures !Integrity(Filled(db, archive, order, j, r + 1), fks)
  {
    PositionOf(order, j);
    var f := Filled(db, archive, order, j, r + 1);
    assert f[order[j]] == archive[order[j]][..r + 1];
    assert f[fk.parent] == if fk.parent == fk.child then archive[fk.child][..r + 1] else archive[fk.parent];
    assert !RefHolds(f, fk, f[order[j]][r]);
    assert !KeyHolds(f, fk);
  }

  /** An archived row without its parent is refused when it is inserted. */
  lemma MissingParentBreaks(db: Db, archive: Db, order: seq<Table>, fks: set<ForeignKey>)
    requires Ready(db, archive, order, fks) && !Consistent(archive, order, fks)
    ensures !AllFit(db, archive, order, fks, |order|)
  {
    var fk: ForeignKey :| fk in fks && fk.child in order && !KeyHolds(archive, fk);
    var rows := archive[fk.child];
    var r :| 0 <= r < |rows| && !RefHolds(archive, fk, rows[r]);
    TooEarlyBreaks(db, archive, order, fks, Position(order, fk.child), r, fk);
    assert !TableFits(db, archive, order, fks, Position(order, fk.child), |rows|);
  }

  lemma LateParentBreaks(db: Db, archive: Db, order: seq<Table>, fks: set<ForeignKey>)
    requires Ready(db, archive, order, fks) && !SelfRefsInOrder(archive, order, fks)
    ensures !AllFit(db, archive, order, fks, |order|)
  {
    var fk: ForeignKey :| fk in fks && fk.child == fk.parent && fk.child in order && fk.child in archive && !EarlierFirst(archive[fk.child], fk.column);
    var rows := archive[fk.child];
    var r :| 0 <= r < |rows| && fk.column in rows[r].refs && !HasId(rows[..r + 1], rows[r].refs[fk.column]);
    TooEarlyBreaks(db, archive, order, fks, Position(order, fk.child), r, fk);
    assert !TableFits(db, archive, order, fks, Position(order, fk.child), |rows|);
  }

  /** The inserts of the first `n` rows of table `j` all keep integrity. */
  ghost predicate TableFits(db: Db, archive: Db, order: seq<Table>, fks: set<ForeignKey>, j: nat, n: nat)
    requires (forall t :: t in order ==> t in archive) && j < |order| && n <= |archive[order[j]]|
  {
    forall r: nat | r <= n :: Integrity(Filled(db, archive, order, j, r), fks)
  }

  ghost predicate AllFit(db: Db, archive: Db, order: seq<Table>, fks: set<ForeignKey>, n: nat)
    requires (forall t :: t in order ==> t in archive) && n <= |order|
  {
    forall j :: 0 <= j < n ==> TableFits(db, archive, order, fks, j, |archive[order[j]]|)
  }

  /**
   Foreign keys hold after every single delete and insert if and only if the archive
   fits: no table that stays refers to a replayed one, the archive is consistent, and
   rows that refer to their own table come in order.
  */
  lemma EveryStepHoldsIffFits(db: Db, archive: Db, order: seq<Table>, fks: set<ForeignKey>)
    requires Ready(db, archive, order, fks)
    ensures Fits(db, archive, order, fks) <==>
      Integrity(Emptied(db, order, 0), fks) && AllFit(db, archive, order, fks, |order|)
    ensures Integrity(Emptied(db, order, 0), fks) ==> forall j :: 0 <= j <= |order| ==> Integrity(Emptied(db, order, j), fks)
  {
    if NoOutsideRefs(db, order, fks) {
      forall j | 0 <= j <= |order| ensures Integrity(Emptied(db, order, j), fks) {
        EmptiedHolds(db, archive, order, fks, j);
      }
    } else {
      OutsideRefBreaks(db, archive, order, fks);
    }
    if !Consistent(archive, order, fks) { MissingParentBreaks(db, archive, order, fks); }
    if !SelfRefsInOrder(archive, order, fks) { LateParentBreaks(db, archive, order, fks); }
    if Fits(db, archive, order, fks) {
      forall j: nat, r: nat | j < |order| && r <= |archive[order[j]]| ensures Integrity(Filled(db, archive, order, j, r), fks) {
        FilledHolds(db, archive, order, fks, j, r);
      }
    }
  }

  // ---------------------------------------------------------------- sequences

  /** `last` is the last value handed out, or the next one if none was yet. */
  datatype Sequence = Sequence(last: int, called: bool)

  function NextValue(s: Sequence): int {
    if s.called then s.last + 1 else s.last
  }

  /** `next` is the least value that passes every restored id, and the value the sequence was going to give, and is positive if there are no rows. */
  predicate Resynced(next: int, rows: seq<Row>, before: Sequence) {
    && next >= NextValue(before)
    && (forall i :: 0 <= i < |rows| ==> next > rows[i].id)
    && (rows == [] ==> next >= 1)
    && (next == NextValue(before) || (rows == [] && next == 1) || exists i :: 0 <= i < |rows| && rows[i].id == next - 1)
  }

  // ---------------------------------------------------------------- the replay itself

  /** The states since `was` all have integrity. */
  ghost predicate Follows(was: seq<Db>, now: seq<Db>, fks: set<ForeignKey>) {
    |was| <= |now| && now[..|was|] == was && forall i :: |was| <= i < |now| ==> Integrity(now[i], fks)
  }

  lemma FollowsTrans(a: seq<Db>, b: seq<Db>, c: seq<Db>, fks: set<ForeignKey>)
    requires Follows(a, b, fks) && Follows(b, c, fks)
    ensures Follows(a, c, fks)
  {
    forall i | |a| <= i < |c| ensures Integrity(c[i], fks) {
      if i < |b| { assert c[i] == c[..|b|][i]; }
    }
    assert c[..|a|] == c[..|b|][..|a|];
  }

  lemma EmptiedNext(db: Db, archive: Db, order: seq<Table>, fks: set<ForeignKey>, j: nat)
    requires Ready(db, archive, order, fks) && j < |order|
    ensures order[j] in db && Emptied(db, order, j + 1)[order[j] := []] == Emptied(db, order, j)
  {
    PositionOf(order, j);
    assert order[j] in order;
  }

  lemma FilledNext(db: Db, archive: Db, order: seq<Table>, fks: set<ForeignKey>, j: nat, r: nat)
    requires Ready(db, archive, order, fks) && j < |order| && r < |archive[order[j]]|
    ensures order[j] in db && Filled(db, archive, order, j, r)[order[j]] == archive[order[j]][..r]
    ensures Filled(db, archive, order, j, r)[order[j] := archive[order[j]][..r] + [archive[order[j]][r]]] == Filled(db, archive, order, j, r + 1)
  {
    PositionOf(order, j);
    assert order[j] in order;
    assert archive[order[j]][..r] + [archive[order[j]][r]] == archive[order[j]][..r + 1];
  }

  lemma FilledDone(db: Db, archive: Db, order: seq<Table>, fks: set<ForeignKey>, j: nat)
    requires Ready(db, archive, order, fks) && j < |order|
    ensures Filled(db, archive, order, j, |archive[order[j]]|) == Filled(db, archive, order, j + 1, 0)
  {
    PositionOf(order, j);
    assert archive[order[j]][..|archive[order[j]]|] == archive[order[j]];
    var a, b := Filled(db, archive, order, j, |archive[order[j]]|), Filled(db, archive, order, j + 1, 0);
    forall t | t in db ensures a[t] == b[t] {
      assert Position(order, t) == j ==> t == order[j];
    }
  }

  lemma FilledEnds(db: Db, archive: Db, order: seq<Table>, fks: set<ForeignKey>)
    requires Ready(db, archive, order, fks)
    ensures Emptied(db, order, 0) == Filled(db, archive, order, 0, 0)
    ensures Emptied(db, order, |order|) == db
    ensures Filled(db, archive, order, |order|, 0) == Replayed(db, archive, order)
  {}

  class Database {
    const fks: set<ForeignKey>
    var tables: Db
    var sequences: map<Table, Sequence>
    /** Every state this database has been in since the replay began. */
    ghost var trace: seq<Db>

    constructor (fks: set<ForeignKey>, tables: Db, sequences: map<Table, Sequence>)
      ensures this.fks == fks && this.tables == tables && this.sequences == sequences && trace == []
    {
      this.fks, this.tables, this.sequences, trace := fks, tables, sequences, [];
    }

    /** A statement: kept if every foreign key still holds afterwards, refused otherwise. */
    method Execute(after: Db) returns (ok: bool)
      modifies this`tables, this`trace
      ensures ok <==> Integrity(after, fks)
      ensures tables == if ok then after else old(tables)
      ensures Follows(old(trace), trace, fks)
    {
      ok := Integrity(after, fks);
      if ok {
        tables := after;
        trace := trace + [after];
      }
    }

    /** Children first; stops at the first refused delete. */
    method EmptyTables(order: seq<Table>, ghost archive: Db) returns (ok: bool)
      requires Ready(tables, archive, order, fks)
      modifies this`tables, this`trace
      ensures ok <==> Integrity(Emptied(old(tables), order, 0), fks)
      ensures ok ==> tables == Emptied(old(tables), order, 0)
      ensures Follows(old(trace), trace, fks)
    {
      FilledEnds(tables, archive, order, fks);
      EveryStepHoldsIffFits(tables, archive, order, fks);
      for j := |order| downto 0
        invariant tables == Emptied(old(tables), order, j) && Integrity(tables, fks)
        invariant Follows(old(trace), trace, fks)
      {
        ghost var was := trace;
        var emptied := EmptyTable(old(tables), archive, order, j);
        FollowsTrans(old(trace), was, trace, fks);
        if !emptied {
          return false;
        }
      }
      return true;
    }

    method EmptyTable(ghost before: Db, ghost archive: Db, order: seq<Table>, j: nat) returns (ok: bool)
      requires Ready(before, archive, order, fks) && j < |order| && tables == Emptied(before, order, j + 1)
      modifies this`tables, this`trace
      ensures ok <==> Integrity(Emptied(before, order, j), fks)
      ensures ok ==> tables == Emptied(before, order, j)
      ensures Follows(old(trace), trace, fks)
    {
      EmptiedNext(before, archive, order, fks, j);
      ok := Execute(tables[order[j] := []]);
    }

    /** Parents first, row by row; stops at the first refused insert. */
    method FillTables(ghost before: Db, order: seq<Table>, archive: Db) returns (ok: bool)
      requires Ready(before, archive, order, fks) && tables == Emptied(before, order, 0) && Integrity(tables, fks)
      modifies this`tables, this`trace
      ensures ok <==> Fits(before, archive, order, fks)
      ensures ok ==> tables == Replayed(before, archive, order)
      ensures Follows(old(trace), trace, fks)
    {
      EveryStepHoldsIffFits(before, archive, order, fks);
      FilledEnds(before, archive, order, fks);
      for j := 0 to |order|
        invariant tables == Filled(before, archive, order, j, 0) && Integrity(tables, fks)
        invariant Follows(old(trace), trace, fks)
        invariant AllFit(before, archive, order, fks, j)
      {
        ghost var was := trace;
        var filled := FillTable(before, order, archive, j);
        FollowsTrans(old(trace), was, trace, fks);
        if !filled {
          return false;
        }
      }
      return true;
    }

    method FillTable(ghost before: Db, order: seq<Table>, archive: Db, j: nat) returns (ok: bool)
      requires Ready(before, archive, order, fks) && j < |order|
      requires tables == Filled(before, archive, order, j, 0) && Integrity(tables, fks)
      modifies this`tables, this`trace
      ensures ok <==> TableFits(before, archive, order, fks, j, |archive[order[j]]|)
      ensures ok ==> tables == Filled(before, archive, order, j + 1, 0) && Integrity(tables, fks)
      ensures Follows(old(trace), trace, fks)
    {
      FilledDone(before, archive, order, fks, j);
      for r := 0 to |archive[order[j]]|
        invariant tables == Filled(before, archive, order, j, r) && Integrity(tables, fks)
        invariant Follows(old(trace), trace, fks)
        invariant TableFits(before, archive, order, fks, j, r)
      {
        ghost var was := trace;
        var inserted := InsertRow(before, order, archive, j, r);
        FollowsTrans(old(trace), was, trace, fks);
        if !inserted {
          return false;
        }
      }
      return true;
    }

    method InsertRow(ghost before: Db, order: seq<Table>, archive: Db, j: nat, r: nat) returns (ok: bool)
      requires Ready(before, archive, order, fks) && j < |order| && r < |archive[order[j]]|
      requires tables == Filled(before, archive, order, j, r)
      modifies this`tables, this`trace
      ensures ok <==> Integrity(Filled(before, archive, order, j, r + 1), fks)
      ensures ok ==> tables == Filled(before, archive, order, j, r + 1) && Integrity(tables, fks)
      ensures Follows(old(trace), trace, fks)
    {
      FilledNext(before, archive, order, fks, j, r);
      ok := Execute(tables[order[j] := tables[order[j]] + [archive[order[j]][r]]]);
    }

    /** `_resync_identity_sequences`, over the tables that have a sequence. */
    method ResyncSequences(order: seq<Table>)
      requires forall t :: t in order ==> t in tables
      requires forall i, j :: 0 <= i < j < |order| ==> order[i] != order[j]
      modifies this`sequences
      ensures sequences.Keys == old(sequences).Keys
      ensures forall t | t in sequences :: if t in order then Resynced(NextValue(sequences[t]), tables[t], old(sequences)[t])
                                           else sequences[t] == old(sequences)[t]
    {
      var j := 0;
      while j < |order|
        invariant 0 <= j <= |order| && sequences.Keys == old(sequences).Keys
        invariant forall t | t in sequences :: if t in order[..j] then Resynced(NextValue(sequences[t]), tables[t], old(sequences)[t])
                                               else sequences[t] == old(sequences)[t]
      {
        if order[j] in sequences {
          var next := NextAfter(tables[order[j]], sequences[order[j]]);
          sequences := sequences[order[j] := Sequence(next, false)];
        }
        j := j + 1;
      }
      assert order[..j] == order;
    }

    /** The replay; all of it is undone when a statement is refused. */
    method Restore(order: seq<Table>, archive: Db) returns (ok: bool)
      requires Ready(tables, archive, order, fks)
      modifies this
      ensures ok <==> Fits(old(tables), archive, order, fks)
      ensures tables == if ok then Replayed(old(tables), archive, order) else old(tables)
      ensures Follows(old(trace), trace, fks)
      ensures sequences.Keys == old(sequences).Keys
      ensures forall t | t in sequences :: if ok && t in order then Resynced(NextValue(sequences[t]), archive[t], old(sequences)[t])
                                           else sequences[t] == old(sequences)[t]
    {
      var saved := tables;
      EveryStepHoldsIffFits(tables, archive, order, fks);
      ok := EmptyTables(order, archive);
      if ok {
        ghost var was := trace;
        ok := FillTables(saved, order, archive);
        FollowsTrans(old(trace), was, trace, fks);
      }
      if ok {
        ResyncSequences(order);
      } else {
        tables := saved;
      }
    }
  }

  /** The greatest identifier of the table plus one, or one, or where the sequence already is. */
  method NextAfter(rows: seq<Row>, before: Sequence) returns (next: int)
    ensures Resynced(next, rows, before)
  {
    var greatest := 0;
    for i := 0 to |rows|
      invariant i == 0 ==> greatest == 0
      invariant forall k :: 0 <= k < i ==> rows[k].id <= greatest
      invariant i > 0 ==> exists k :: 0 <= k < i && rows[k].id == greatest
    {
      greatest := if i == 0 || rows[i].id > greatest then rows[i].id else greatest;
    }
    next := if greatest + 1 > NextValue(before) then greatest + 1 else NextValue(before);
  }
}
