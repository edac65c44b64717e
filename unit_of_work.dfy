/** An abstract stand-in for the database session the storage engine drives.
    The engine only calls `add`, `flush`, `refresh`, `rollback`, `commit`,
    `delete`, `remove` and `query(cls).all()` on it; this module gives each of
    those a small meaning of its own (per-class tables of records, a list of
    staged inserts, a list of staged deletions) and records every call in a
    trace, so that what the engine does around the calls can be stated exactly.
    Which calls raise is not decided here: each session is handed a fixed map
    from operation to the exception the backing store raises for it. */
module UnitOfWork {
  import opened Wrappers

  /** A persisted object as the session sees it: the name of its class, its
      primary key and its remaining columns. */
  datatype Record = Record(className: string, id: string, fields: map<string, string>)

  /** An exception raised by the backing store. */
  datatype Exception = Exception(message: string)

  /** The session operations that may raise. */
  datatype Op = AddOp | FlushOp | RefreshOp | CommitOp | DeleteOp

  /** One call made on a session, in the order made. */
  datatype Call = Add(obj: Record) | Flush | Refresh(obj: Record) | Rollback | Commit | Delete(obj: Record) | Remove

  /** One sequence of records per class name. */
  type Tables = map<string, seq<Record>>

  /** `query(cls).all()`: the records of the table of `cls`, none when it has no table. */
  function Rows(t: Tables, cls: string): seq<Record>
  {
    if cls in t then t[cls] else []
  }

  /** Every record sits in the table of its own class. */
  ghost predicate WellFiled(t: Tables)
  {
    forall cls, r :: cls in t && r in t[cls] ==> r.className == cls
  }

  /** Two records stand for the same row: same class, same primary key. */
  predicate SameRow(a: Record, b: Record)
  {
    a.className == b.className && a.id == b.id
  }

  /** The records of `s` that belong to class `cls`, in order. */
  function OfClass(s: seq<Record>, cls: string): seq<Record>
  {
    if s == [] then []
    else
      var n := |s| - 1;
      OfClass(s[..n], cls) + (if s[n].className == cls then [s[n]] else [])
  }

  /** The rows of `rows` that no record of `doomed` stands for, in order. */
  function Without(rows: seq<Record>, doomed: seq<Record>): seq<Record>
  {
    if rows == [] then []
    else
      var n := |rows| - 1;
      var keep := forall d :: d in doomed ==> !SameRow(rows[n], d);
      Without(rows[..n], doomed) + (if keep then [rows[n]] else [])
  }

  /** Every table with the rows standing for a doomed record taken out. */
  function RemoveAll(t: Tables, doomed: seq<Record>): (r: Tables)
    ensures r.Keys == t.Keys
    ensures forall cls :: cls in t ==> r[cls] == Without(t[cls], doomed)
  {
    map cls | cls in t :: Without(t[cls], doomed)
  }

  /** Each staged record appended, in order, to the table of its class. */
  function Insert(t: Tables, staged: seq<Record>): Tables
  {
    if staged == [] then t
    else
      var n := |staged| - 1;
      var before := Insert(t, staged[..n]);
      var cls := staged[n].className;
      before[cls := Rows(before, cls) + [staged[n]]]
  }

  /** Exactly the records of class `cls` are kept. */
  lemma {:induction false} OfClassMembers(s: seq<Record>, cls: string)
    ensures forall x :: x in OfClass(s, cls) <==> x in s && x.className == cls
  {
    if s != [] {
      OfClassMembers(s[..|s| - 1], cls);
      assert s == s[..|s| - 1] + [s[|s| - 1]];
    }
  }

  /** Exactly the rows that no doomed record stands for are kept. */
  lemma {:induction false} WithoutMembers(rows: seq<Record>, doomed: seq<Record>)
    ensures forall x :: x in Without(rows, doomed) <==> x in rows && forall d :: d in doomed ==> !SameRow(x, d)
  {
    if rows != [] {
      WithoutMembers(rows[..|rows| - 1], doomed);
      assert rows == rows[..|rows| - 1] + [rows[|rows| - 1]];
    }
  }

  /** Inserting appends to each table, in order, the staged records of its class
      and leaves the other tables as they were. */
  lemma {:induction false} InsertRows(t: Tables, staged: seq<Record>, cls: string)
    ensures Rows(Insert(t, staged), cls) == Rows(t, cls) + OfClass(staged, cls)
  {
    if staged != [] {
      InsertRows(t, staged[..|staged| - 1], cls);
    }
  }

  /** With nothing doomed, every row is kept. */
  lemma {:induction false} WithoutNothing(rows: seq<Record>)
    ensures Without(rows, []) == rows
  {
    if rows != [] {
      WithoutNothing(rows[..|rows| - 1]);
      assert rows == rows[..|rows| - 1] + [rows[|rows| - 1]];
    }
  }

  /** What the tables hold once pending deletions and staged inserts are written. */
  function Flushed(t: Tables, staged: seq<Record>, doomed: seq<Record>): Tables
  {
    Insert(RemoveAll(t, doomed), staged)
  }

  /** Writing out when nothing is pending changes no table. */
  lemma FlushedNothing(t: Tables)
    ensures Flushed(t, [], []) == t
  {
    forall cls | cls in t ensures RemoveAll(t, [])[cls] == t[cls] {
      WithoutNothing(t[cls]);
    }
  }

  /** Writing out pending work keeps every record in its own class's table. */
  lemma FlushedWellFiled(t: Tables, staged: seq<Record>, doomed: seq<Record>)
    requires WellFiled(t)
    ensures WellFiled(Flushed(t, staged, doomed))
  {
    var f := Flushed(t, staged, doomed);
    forall cls: string, r: Record | cls in f && r in f[cls] ensures r.className == cls {
      var kept := RemoveAll(t, doomed);
      InsertRows(kept, staged, cls);
      assert f[cls] == Rows(kept, cls) + OfClass(staged, cls);
      OfClassMembers(staged, cls);
      if cls in kept {
        WithoutMembers(t[cls], doomed);
      }
      assert r in Rows(kept, cls) || r in OfClass(staged, cls);
    }
  }

  /** The backing store's committed tables, shared by every session the engine opens. */
  class Database {
    var rows: Tables

    constructor (rows: Tables)
      ensures this.rows == rows
    {
      this.rows := rows;
    }
  }

  class Session {
    /** The store this session reads from and commits to. */
    const db: Database
    /** The exception each failing operation raises. */
    const faults: map<Op, Exception>
    /** What queries through this session see: committed rows plus flushed work. */
    var tables: Tables
    /** Objects added but not yet flushed. */
    var staged: seq<Record>
    /** Objects marked for deletion but not yet flushed. */
    var doomed: seq<Record>
    /** Every call made on this session so far. */
    var trace: seq<Call>

    ghost predicate Valid()
      reads this, db
    {
      WellFiled(tables) && WellFiled(db.rows)
    }

    /** No pending work: the session sees exactly the committed rows. */
    ghost predicate Clean()
      reads this, db
    {
      tables == db.rows && staged == [] && doomed == []
    }

    constructor (db: Database, faults: map<Op, Exception>)
      requires WellFiled(db.rows)
      ensures Valid() && Clean()
      ensures this.db == db && this.faults == faults && trace == []
    {
      this.db := db;
      this.faults := faults;
      tables := db.rows;
      staged := [];
      doomed := [];
      trace := [];
    }

    /** `query(cls).all()`. */
    function Query(cls: string): (r: seq<Record>)
      reads this, db
      requires Valid()
      ensures forall x :: x in r ==> x.className == cls
    {
      Rows(tables, cls)
    }

    method Add(obj: Record) returns (raised: Option<Exception>)
      requires Valid()
      modifies this
      ensures Valid()
      ensures raised == Lookup(faults, AddOp)
      ensures trace == old(trace) + [Call.Add(obj)]
      ensures staged == if raised.None? then old(staged) + [obj] else old(staged)
      ensures tables == old(tables) && doomed == old(doomed)
    {
      raised := Lookup(faults, AddOp);
      if raised.None? {
        staged := staged + [obj];
      }
      trace := trace + [Call.Add(obj)];
    }

    method Flush() returns (raised: Option<Exception>)
      requires Valid()
      modifies this
      ensures Valid()
      ensures raised == Lookup(faults, FlushOp)
      ensures trace == old(trace) + [Call.Flush]
      ensures raised.None? ==> tables == Flushed(old(tables), old(staged), old(doomed)) && staged == [] && doomed == []
      ensures raised.Some? ==> tables == old(tables) && staged == old(staged) && doomed == old(doomed)
    {
      raised := Lookup(faults, FlushOp);
      if raised.None? {
        FlushedWellFiled(tables, staged, doomed);
        tables, staged, doomed := Flushed(tables, staged, doomed), [], [];
      }
      trace := trace + [Call.Flush];
    }

    method Refresh(obj: Record) returns (raised: Option<Exception>)
      requires Valid()
      modifies this
      ensures Valid()
      ensures raised == Lookup(faults, RefreshOp)
      ensures trace == old(trace) + [Call.Refresh(obj)]
      ensures tables == old(tables) && staged == old(staged) && doomed == old(doomed)
    {
      raised := Lookup(faults, RefreshOp);
      trace := trace + [Call.Refresh(obj)];
    }

    method Rollback()
      requires Valid()
      modifies this
      ensures Valid() && Clean()
      ensures trace == old(trace) + [Call.Rollback]
    {
      tables, staged, doomed := db.rows, [], [];
      trace := trace + [Call.Rollback];
    }

    method Commit() returns (raised: Option<Exception>)
      requires Valid()
      modifies this, db
      ensures Valid()
      ensures raised == Lookup(faults, CommitOp)
      ensures trace == old(trace) + [Call.Commit]
      ensures raised.None? ==> db.rows == Flushed(old(tables), old(staged), old(doomed)) && Clean()
      ensures raised.Some? ==> db.rows == old(db.rows) && tables == old(tables) && staged == old(staged) && doomed == old(doomed)
    {
      raised := Lookup(faults, CommitOp);
      if raised.None? {
        FlushedWellFiled(tables, staged, doomed);
        db.rows := Flushed(tables, staged, doomed);
        tables, staged, doomed := db.rows, [], [];
      }
      trace := trace + [Call.Commit];
    }

    method Delete(obj: Record) returns (raised: Option<Exception>)
      requires Valid()
      modifies this
      ensures Valid()
      ensures raised == Lookup(faults, DeleteOp)
      ensures trace == old(trace) + [Call.Delete(obj)]
      ensures doomed == if raised.None? then old(doomed) + [obj] else old(doomed)
      ensures tables == old(tables) && staged == old(staged)
    {
      raised := Lookup(faults, DeleteOp);
      if raised.None? {
        doomed := doomed + [obj];
      }
      trace := trace + [Call.Delete(obj)];
    }

    /** Ends the unit of work: uncommitted work is discarded. */
    method Remove()
      requires Valid()
      modifies this
      ensures Valid() && Clean()
      ensures trace == old(trace) + [Call.Remove]
    {
      tables, staged, doomed := db.rows, [], [];
      trace := trace + [Call.Remove];
    }
  }
}
