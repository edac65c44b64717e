/** The MySQL storage engine (models/engine/db_storage.py): the connection URL,
    the `"<ClassName>.<id>"` dictionary that `all` builds, and the class that
    drives one database session. */
module DbStorage {
  import opened Wrappers
  import opened UnitOfWork

  // ---------------------------------------------------------------------------
  // Connection URL

  const Scheme: string := "mysql+mysqldb://"
  const DefaultHost: string := "localhost"

  /** How an f-string shows the result of `os.getenv`: an unset variable is `None`. */
  function EnvText(v: Option<string>): (r: string)
    ensures v.None? ==> r == "None"
    ensures v.Some? ==> r == v.value
  {
    match v
    case None => "None"
    case Some(s) => s
  }

  /** `os.getenv('HBNB_MYSQL_HOST', default='localhost')`. */
  function HostText(host: Option<string>): (r: string)
    ensures host.None? ==> r == DefaultHost
    ensures host.Some? ==> r == host.value
  {
    match host
    case None => DefaultHost
    case Some(h) => h
  }

  /** The four parts a connection URL carries. */
  datatype UrlParts = UrlParts(user: string, password: string, host: string, database: string)

  /** `s` cut at the first `sep`: the text before it and the text after it. */
  function SplitAt(s: string, sep: char): (r: Option<(string, string)>)
    ensures r.None? <==> sep !in s
    ensures r.Some? ==> s == r.value.0 + [sep] + r.value.1 && sep !in r.value.0
  {
    if s == [] then None
    else if s[0] == sep then Some(([], s[1..]))
    else
      match SplitAt(s[1..], sep)
      case None => None
      case Some(parts) => Some(([s[0]] + parts.0, parts.1))
  }

  /** Cutting at a separator that the head does not contain gives the head back. */
  lemma {:induction false} SplitAtJoin(a: string, sep: char, b: string)
    requires sep !in a
    ensures SplitAt(a + [sep] + b, sep) == Some((a, b))
  {
    if a != [] {
      var s := a + [sep] + b;
      assert s[0] == a[0] != sep;
      assert s[1..] == a[1..] + [sep] + b;
      SplitAtJoin(a[1..], sep, b);
      assert [a[0]] + a[1..] == a;
    }
  }

  /** Reads a connection URL back into its parts: the user ends at the first `:`,
      the password at the next `@`, the host at the next `/`. */
  function ParseUrl(url: string): Option<UrlParts>
  {
    if |url| < |Scheme| || url[..|Scheme|] != Scheme then None
    else
      match SplitAt(url[|Scheme|..], ':')
      case None => None
      case Some(afterUser) =>
        match SplitAt(afterUser.1, '@')
        case None => None
        case Some(afterPassword) =>
          match SplitAt(afterPassword.1, '/')
          case None => None
          case Some(afterHost) =>
            Some(UrlParts(afterUser.0, afterPassword.0, afterHost.0, afterHost.1))
  }

  /** `get_engine_url`, with the four environment values passed in. Every part
      can be read back from the URL as long as the user holds no `:`, the
      password no `@` and the host no `/`. */
  function GetEngineUrl(user: Option<string>, password: Option<string>,
                        host: Option<string>, database: Option<string>): (url: string)
    ensures url == Scheme + EnvText(user) + ":" + EnvText(password) + "@" + HostText(host) + "/" + EnvText(database)
    ensures |url| >= |Scheme| && url[..|Scheme|] == Scheme
    ensures ':' !in EnvText(user) && '@' !in EnvText(password) && '/' !in HostText(host) ==>
              ParseUrl(url) == Some(UrlParts(EnvText(user), EnvText(password), HostText(host), EnvText(database)))
  {
    var u, p, h, d := EnvText(user), EnvText(password), HostText(host), EnvText(database);
    var url := Scheme + u + ":" + p + "@" + h + "/" + d;
    if ':' !in u && '@' !in p && '/' !in h then
      ParseUrlJoin(u, p, h, d);
      url
    else
      url
  }

  /** The parts joined in `get_engine_url`'s format are read back by `ParseUrl`. */
  lemma ParseUrlJoin(u: string, p: string, h: string, d: string)
    requires ':' !in u && '@' !in p && '/' !in h
    ensures ParseUrl(Scheme + u + ":" + p + "@" + h + "/" + d) == Some(UrlParts(u, p, h, d))
  {
    var url := Scheme + u + ":" + p + "@" + h + "/" + d;
    var rest := h + ['/'] + d;
    var afterUser := p + ['@'] + rest;
    assert url[..|Scheme|] == Scheme;
    assert url[|Scheme|..] == u + [':'] + afterUser;
    SplitAtJoin(u, ':', afterUser);
    SplitAtJoin(p, '@', rest);
    SplitAtJoin(h, '/', d);
  }

  /** An unset host is the same as `localhost`. */
  lemma GetEngineUrlDefaultHost(user: Option<string>, password: Option<string>, database: Option<string>)
    ensures GetEngineUrl(user, password, None, database) == GetEngineUrl(user, password, Some("localhost"), database)
  {
  }

  // ---------------------------------------------------------------------------
  // The dictionary built by `all`

  /** The classes `all()` visits when no class is given, in the dict's order. */
  const Classes: seq<string> := ["State", "City", "User"]

  /** The instance built by `cls(**kwargs)`. */
  datatype Instance = Instance(className: string, attributes: map<string, string>)

  /** The parts of BaseModel the engine relies on, whose source is not part of
      this model and which are therefore left uninterpreted: `to_dict()`, the
      kwargs constructor, `__str__` and the truth value of an object. */
  datatype BaseModelApi = BaseModelApi(
    toDict: Record -> map<string, string>,
    construct: (string, map<string, string>) -> Instance,
    show: Instance -> string,
    truthy: Record -> bool)

  /** `f"{obj.__class__.__name__}.{obj.id}"`. */
  function Key(obj: Record): string
  {
    obj.className + "." + obj.id
  }

  /** The class name a key starts with, if the key has a `.` at all. */
  function ClassOfKey(key: string): Option<string>
  {
    match SplitAt(key, '.')
    case None => None
    case Some(parts) => Some(parts.0)
  }

  /** A key can be cut back into the class name and the id when the class name
      has no `.` in it (ids may hold any character). */
  lemma KeySplits(obj: Record)
    requires '.' !in obj.className
    ensures SplitAt(Key(obj), '.') == Some((obj.className, obj.id))
    ensures ClassOfKey(Key(obj)) == Some(obj.className)
  {
    SplitAtJoin(obj.className, '.', obj.id);
  }

  /** Two objects of one class share a key only when they share an id. */
  lemma KeyInjective(a: Record, b: Record)
    requires a.className == b.className
    requires Key(a) == Key(b)
    ensures a.id == b.id
  {
    var n := |a.className| + 1;
    assert Key(a)[n..] == a.id;
    assert Key(b)[n..] == b.id;
  }

  /** `str(cls(**obj.to_dict()))`: the string of a fresh instance rebuilt from the
      object's dictionary, never the live object. */
  function Render(cls: string, obj: Record, api: BaseModelApi): string
  {
    api.show(api.construct(cls, api.toDict(obj)))
  }

  /** The keys of a sequence of objects. */
  function KeysOf(objs: seq<Record>): set<string>
  {
    set obj | obj in objs :: Key(obj)
  }

  /** The inner loop of `all`: `result[key] = str(cls(**obj.to_dict()))` for each
      object in order, so a later object overwrites an earlier one with its key. */
  function Gather(acc: map<string, string>, cls: string, objs: seq<Record>, api: BaseModelApi): map<string, string>
  {
    if objs == [] then acc
    else
      var n := |objs| - 1;
      Gather(acc, cls, objs[..n], api)[Key(objs[n]) := Render(cls, objs[n], api)]
  }

  /** The keys of every registered table among `names`. */
  function KeysOfTables(names: seq<string>, tables: Tables): set<string>
  {
    if names == [] then {}
    else
      var n := |names| - 1;
      KeysOfTables(names[..n], tables) + KeysOf(Rows(tables, names[n]))
  }

  /** The outer loop of `all()`: the inner loop run for each name in turn. */
  function GatherAll(acc: map<string, string>, names: seq<string>, tables: Tables, api: BaseModelApi): map<string, string>
  {
    if names == [] then acc
    else
      var n := |names| - 1;
      Gather(GatherAll(acc, names[..n], tables, api), names[n], Rows(tables, names[n]), api)
  }

  /** The loop adds exactly one key per object visited and removes none. */
  lemma {:induction false} GatherKeys(acc: map<string, string>, cls: string, objs: seq<Record>, api: BaseModelApi)
    ensures Gather(acc, cls, objs, api).Keys == acc.Keys + KeysOf(objs)
  {
    if objs != [] {
      var n := |objs| - 1;
      GatherKeys(acc, cls, objs[..n], api);
      assert objs == objs[..n] + [objs[n]];
    }
  }

  /** Over several classes, the keys are those of the objects of each class visited. */
  lemma {:induction false} GatherAllKeys(acc: map<string, string>, names: seq<string>, tables: Tables, api: BaseModelApi)
    ensures GatherAll(acc, names, tables, api).Keys == acc.Keys + KeysOfTables(names, tables)
  {
    if names != [] {
      var n := |names| - 1;
      GatherAllKeys(acc, names[..n], tables, api);
      GatherKeys(GatherAll(acc, names[..n], tables, api), names[n], Rows(tables, names[n]), api);
    }
  }

  /** No two objects of the sequence share a key. */
  ghost predicate DistinctKeys(objs: seq<Record>)
  {
    forall i, j :: 0 <= i < j < |objs| ==> Key(objs[i]) != Key(objs[j])
  }

  /** Each key is bound to the rendering of the LAST object carrying it. */
  lemma {:induction false} GatherLastWins(acc: map<string, string>, cls: string, objs: seq<Record>, api: BaseModelApi, i: nat)
    requires i < |objs|
    requires forall j :: i < j < |objs| ==> Key(objs[j]) != Key(objs[i])
    ensures Key(objs[i]) in Gather(acc, cls, objs, api)
    ensures Gather(acc, cls, objs, api)[Key(objs[i])] == Render(cls, objs[i], api)
  {
    var n := |objs| - 1;
    if i < n {
      GatherLastWins(acc, cls, objs[..n], api, i);
    }
  }

  /** With distinct keys, every object's key maps to that object's own rendering. */
  lemma {:induction false} GatherValues(acc: map<string, string>, cls: string, objs: seq<Record>, api: BaseModelApi)
    requires DistinctKeys(objs)
    ensures forall i :: 0 <= i < |objs| ==>
              Key(objs[i]) in Gather(acc, cls, objs, api) && Gather(acc, cls, objs, api)[Key(objs[i])] == Render(cls, objs[i], api)
  {
    forall i | 0 <= i < |objs|
      ensures Key(objs[i]) in Gather(acc, cls, objs, api) && Gather(acc, cls, objs, api)[Key(objs[i])] == Render(cls, objs[i], api)
    {
      GatherLastWins(acc, cls, objs, api, i);
    }
  }

  /** With distinct keys that are new to `acc`, there is exactly one new entry per object. */
  lemma {:induction false} GatherCount(acc: map<string, string>, cls: string, objs: seq<Record>, api: BaseModelApi)
    requires DistinctKeys(objs)
    requires acc.Keys !! KeysOf(objs)
    ensures |Gather(acc, cls, objs, api)| == |acc| + |objs|
  {
    if objs != [] {
      var n := |objs| - 1;
      assert KeysOf(objs[..n]) <= KeysOf(objs);
      GatherCount(acc, cls, objs[..n], api);
      GatherKeys(acc, cls, objs[..n], api);
      assert Key(objs[n]) !in KeysOf(objs[..n]);
    }
  }

  /** Objects of one class with distinct ids have distinct keys. */
  lemma DistinctIdsDistinctKeys(cls: string, objs: seq<Record>)
    requires forall obj :: obj in objs ==> obj.className == cls
    requires forall i, j :: 0 <= i < j < |objs| ==> objs[i].id != objs[j].id
    ensures DistinctKeys(objs)
  {
    forall i, j | 0 <= i < j < |objs| ensures Key(objs[i]) != Key(objs[j]) {
      if Key(objs[i]) == Key(objs[j]) {
        KeyInjective(objs[i], objs[j]);
      }
    }
  }

  /** `all(cls)` over a table whose ids are distinct (its primary key): one entry
      per object, and nothing else. */
  lemma {:induction false} AllOfClassExactlyOnePerObject(cls: string, objs: seq<Record>, api: BaseModelApi)
    requires forall obj :: obj in objs ==> obj.className == cls
    requires forall i, j :: 0 <= i < j < |objs| ==> objs[i].id != objs[j].id
    ensures |Gather(map[], cls, objs, api)| == |objs|
    ensures Gather(map[], cls, objs, api).Keys == KeysOf(objs)
    ensures forall i :: 0 <= i < |objs| ==> Key(objs[i]) == cls + "." + objs[i].id
    ensures forall i :: 0 <= i < |objs| ==> Gather(map[], cls, objs, api)[Key(objs[i])] == Render(cls, objs[i], api)
  {
    DistinctIdsDistinctKeys(cls, objs);
    GatherKeys(map[], cls, objs, api);
    GatherCount(map[], cls, objs, api);
    GatherValues(map[], cls, objs, api);
  }

  /** The entries of `all` depend on each object only through its key and its
      `to_dict()`: the live objects themselves are never handed out. */
  lemma {:induction false} GatherDetached(acc: map<string, string>, cls: string, objs: seq<Record>, others: seq<Record>, api: BaseModelApi)
    requires |objs| == |others|
    requires forall i :: 0 <= i < |objs| ==> Key(objs[i]) == Key(others[i]) && api.toDict(objs[i]) == api.toDict(others[i])
    ensures Gather(acc, cls, objs, api) == Gather(acc, cls, others, api)
  {
    if objs != [] {
      var n := |objs| - 1;
      GatherDetached(acc, cls, objs[..n], others[..n], api);
    }
  }

  /** `all()` lists exactly the objects of State, City and User. */
  lemma AllRegisteredKeys(tables: Tables, api: BaseModelApi)
    ensures GatherAll(map[], Classes, tables, api).Keys
         == KeysOf(Rows(tables, "State")) + KeysOf(Rows(tables, "City")) + KeysOf(Rows(tables, "User"))
  {
    GatherAllKeys(map[], Classes, tables, api);
    assert Classes[..2][..1][..0] == [];
    assert Classes[..2][..1] == ["State"];
    assert Classes[..2] == ["State", "City"];
    assert KeysOfTables(["State"], tables) == KeysOf(Rows(tables, "State"));
    assert KeysOfTables(["State", "City"], tables) == KeysOf(Rows(tables, "State")) + KeysOf(Rows(tables, "City"));
  }

  /** Tables of classes outside the registry (Place, Review, Amenity, ...) have no
      influence on `all()`. */
  lemma {:induction false} GatherAllIgnoresOthers(acc: map<string, string>, names: seq<string>, t1: Tables, t2: Tables, api: BaseModelApi)
    requires forall c :: c in names ==> Rows(t1, c) == Rows(t2, c)
    ensures GatherAll(acc, names, t1, api) == GatherAll(acc, names, t2, api)
  {
    if names != [] {
      var n := |names| - 1;
      assert names[n] in names;
      GatherAllIgnoresOthers(acc, names[..n], t1, t2, api);
    }
  }

  /** A key of the tables of `names` is the key of an object filed under one of them. */
  lemma {:induction false} KeyOfTablesOrigin(names: seq<string>, tables: Tables, k: string)
    requires k in KeysOfTables(names, tables)
    ensures exists c, obj :: c in names && obj in Rows(tables, c) && k == Key(obj)
  {
    var n := |names| - 1;
    if k in KeysOf(Rows(tables, names[n])) {
      var obj :| obj in Rows(tables, names[n]) && k == Key(obj);
      assert names[n] in names;
    } else {
      KeyOfTablesOrigin(names[..n], tables, k);
      var c, obj :| c in names[..n] && obj in Rows(tables, c) && k == Key(obj);
      assert c in names;
    }
  }

  /** Every key of `all()` starts with the name of a registered class, never
      with Place, Review or Amenity. */
  lemma AllRegisteredOnly(tables: Tables, api: BaseModelApi, k: string)
    requires WellFiled(tables)
    requires k in GatherAll(map[], Classes, tables, api)
    ensures ClassOfKey(k).Some? && ClassOfKey(k).value in Classes
    ensures ClassOfKey(k) != Some("Place") && ClassOfKey(k) != Some("Review") && ClassOfKey(k) != Some("Amenity")
  {
    AllKeyOrigin(tables, api, k);
    var c, obj :| c in Classes && obj in Rows(tables, c) && k == Key(obj);
    RegisteredKeyClass(tables, c, obj);
  }

  /** A key of `all()` belongs to an object of a registered table. */
  lemma AllKeyOrigin(tables: Tables, api: BaseModelApi, k: string)
    requires k in GatherAll(map[], Classes, tables, api)
    ensures exists c, obj :: c in Classes && obj in Rows(tables, c) && k == Key(obj)
  {
    GatherAllKeys(map[], Classes, tables, api);
    KeyOfTablesOrigin(Classes, tables, k);
  }

  /** The key of an object filed under a registered class names that class. */
  lemma RegisteredKeyClass(tables: Tables, c: string, obj: Record)
    requires WellFiled(tables)
    requires c in Classes && obj in Rows(tables, c)
    ensures ClassOfKey(Key(obj)) == Some(c)
  {
    assert obj.className == c by {
      assert c in tables;
    }
    assert '.' !in c;
    KeySplits(obj);
  }

  // ---------------------------------------------------------------------------
  // The engine

  class DBStorage {
    /** The engine handle, created once from the connection URL. */
    const engine: Database
    const url: string
    /** `None` until `reload` first runs. */
    var session: Session?

    ghost predicate Valid()
      reads this, engine, session
    {
      WellFiled(engine.rows) && (session != null ==> session.db == engine && session.Valid())
    }

    /** `__init__`: the engine is made from the connection URL; no session yet.
        `stored` stands for what the database already holds. */
    constructor (user: Option<string>, password: Option<string>, host: Option<string>,
                 database: Option<string>, stored: Tables)
      requires WellFiled(stored)
      ensures Valid() && fresh(engine)
      ensures url == GetEngineUrl(user, password, host, database)
      ensures engine.rows == stored && session == null
    {
      url := GetEngineUrl(user, password, host, database);
      engine := new Database(stored);
      session := null;
    }

    /** Removes the session, if one was ever opened. */
    method Close()
      requires Valid()
      modifies session
      ensures Valid() && session == old(session)
      ensures session != null ==> session.Clean() && session.trace == old(session.trace) + [Call.Remove]
    {
      if session != null {
        session.Remove();
      }
    }

    /** `all(cls)`: a dictionary from `"<ClassName>.<id>"` to the string of a
        rebuilt copy of each object of `cls`, or of each registered class when
        `cls` is `None`. The session is only read. */
    method All(api: BaseModelApi, cls: Option<string> := None) returns (result: map<string, string>)
      requires Valid() && session != null
      ensures cls.None? ==> result == GatherAll(map[], Classes, session.tables, api)
      ensures cls.Some? ==> result == Gather(map[], cls.value, Rows(session.tables, cls.value), api)
    {
      result := map[];
      if cls.None? {
        var i := 0;
        while i < |Classes|
          invariant 0 <= i <= |Classes|
          invariant result == GatherAll(map[], Classes[..i], session.tables, api)
        {
          var className := Classes[i];
          var objs := session.Query(className);
          ghost var before := result;
          var j := 0;
          while j < |objs|
            invariant 0 <= j <= |objs|
            invariant result == Gather(before, className, objs[..j], api)
          {
            var obj := objs[j];
            var key := Key(obj);
            var newObj := api.toDict(obj);
            var newInstance := api.construct(className, newObj);
            result := result[key := api.show(newInstance)];
            assert objs[..j + 1][..j] == objs[..j];
            j := j + 1;
          }
          assert objs[..j] == objs;
          assert Classes[..i + 1][..i] == Classes[..i];
          i := i + 1;
        }
        assert Classes[..i] == Classes;
      } else {
        var objs := session.Query(cls.value);
        var j := 0;
        while j < |objs|
          invariant 0 <= j <= |objs|
          invariant result == Gather(map[], cls.value, objs[..j], api)
        {
          var obj := objs[j];
          var key := Key(obj);
          var newObj := api.toDict(obj);
          var newInstance := api.construct(cls.value, newObj);
          result := result[key := api.show(newInstance)];
          assert objs[..j + 1][..j] == objs[..j];
          j := j + 1;
        }
        assert objs[..j] == objs;
      }
    }

    /** `new(obj)`: stage, flush and refresh the object; if any of the three
        raises, roll the session back and raise the same exception. */
    method New(obj: Option<Record>) returns (raised: Option<Exception>)
      requires Valid() && (obj.Some? ==> session != null)
      modifies session
      ensures Valid()
      ensures obj.None? ==> raised.None? && (session != null ==> unchanged(session))
      ensures obj.Some? ==> raised == FirstFault(session.faults)
      ensures obj.Some? ==> session.trace == old(session.trace) + NewCalls(obj.value, session.faults)
      ensures obj.Some? && raised.Some? ==> session.Clean()
      ensures obj.Some? && raised.None? ==>
                session.tables == Flushed(old(session.tables), old(session.staged) + [obj.value], old(session.doomed))
                && session.staged == [] && session.doomed == []
                && obj.value in Rows(session.tables, obj.value.className)
    {
      raised := None;
      if obj.Some? {
        var r := obj.value;
        ghost var trace, tables, staged, doomed := session.trace, session.tables, session.staged, session.doomed;
        raised := session.Add(r);
        if raised.None? {
          raised := session.Flush();
          if raised.None? {
            raised := session.Refresh(r);
            if raised.None? {
              assert session.trace == trace + [Call.Add(r), Call.Flush, Call.Refresh(r)];
              FlushedHolds(tables, staged + [r], doomed, r);
              return;
            }
          }
        }
        // except Exception as e: rollback, then raise e
        ghost var failed := session.trace;
        session.Rollback();
        assert session.trace == failed + [Call.Rollback];
      }
    }

    /** `save()`: commit the current session. */
    method Save() returns (raised: Option<Exception>)
      requires Valid() && session != null
      modifies session, engine
      ensures Valid()
      ensures raised == Lookup(session.faults, CommitOp)
      ensures session.trace == old(session.trace) + [Call.Commit]
      ensures raised.None? ==>
                engine.rows == Flushed(old(session.tables), old(session.staged), old(session.doomed)) && session.Clean()
      ensures raised.Some? ==>
                engine.rows == old(engine.rows) && session.tables == old(session.tables)
                && session.staged == old(session.staged) && session.doomed == old(session.doomed)
    {
      raised := session.Commit();
    }

    /** `delete(obj)`: mark the object for deletion when it is given and truthy. */
    method Delete(api: BaseModelApi, obj: Option<Record> := None) returns (raised: Option<Exception>)
      requires Valid() && (obj.Some? && api.truthy(obj.value) ==> session != null)
      modifies session
      ensures Valid()
      ensures !(obj.Some? && api.truthy(obj.value)) ==> raised.None? && (session != null ==> unchanged(session))
      ensures obj.Some? && api.truthy(obj.value) ==>
                raised == Lookup(session.faults, DeleteOp)
                && session.trace == old(session.trace) + [Call.Delete(obj.value)]
                && session.doomed == (if raised.None? then old(session.doomed) + [obj.value] else old(session.doomed))
                && session.tables == old(session.tables) && session.staged == old(session.staged)
    {
      raised := None;
      if obj.Some? && api.truthy(obj.value) {
        raised := session.Delete(obj.value);
      }
    }

    /** `reload()`: open a brand-new session on the engine and keep it, in place
        of whatever session was there; the old one is left as it was. `faults`
        stands for how the backing store will answer the new session. */
    method Reload(faults: map<Op, Exception>)
      requires Valid()
      modifies this`session
      ensures Valid() && fresh(session)
      ensures session.db == engine && session.faults == faults
      ensures session.Clean() && session.trace == []
      ensures engine.rows == old(engine.rows)
    {
      session := new Session(engine, faults);
    }
  }

  /** A staged object is in its class's table once the pending work is written. */
  lemma FlushedHolds(t: Tables, staged: seq<Record>, doomed: seq<Record>, obj: Record)
    requires obj in staged
    ensures obj in Rows(Flushed(t, staged, doomed), obj.className)
  {
    InsertRows(RemoveAll(t, doomed), staged, obj.className);
    OfClassMembers(staged, obj.className);
  }

  /** The exception `new` raises: the first of add, flush and refresh that fails. */
  function FirstFault(faults: map<Op, Exception>): (r: Option<Exception>)
    ensures r.None? <==> AddOp !in faults && FlushOp !in faults && RefreshOp !in faults
  {
    if AddOp in faults then Some(faults[AddOp])
    else if FlushOp in faults then Some(faults[FlushOp])
    else if RefreshOp in faults then Some(faults[RefreshOp])
    else None
  }

  /** The calls `new(obj)` makes on the session: add, flush, refresh up to the
      first that fails, followed by a rollback when one did. */
  function NewCalls(obj: Record, faults: map<Op, Exception>): (r: seq<Call>)
    ensures 2 <= |r| <= 4 && r[0] == Call.Add(obj)
    ensures Call.Rollback in r <==> FirstFault(faults).Some?
    ensures Call.Rollback in r ==> r[|r| - 1] == Call.Rollback
  {
    if AddOp in faults then [Call.Add(obj), Call.Rollback]
    else if FlushOp in faults then [Call.Add(obj), Call.Flush, Call.Rollback]
    else if RefreshOp in faults then [Call.Add(obj), Call.Flush, Call.Refresh(obj), Call.Rollback]
    else [Call.Add(obj), Call.Flush, Call.Refresh(obj)]
  }
}
