# AirBnB clone v2: MySQL storage engine and text routes, modelled in Dafny

This project models two small parts of the AirBnB clone (version 2):

- **The MySQL storage engine** `DBStorage` (`models/engine/db_storage.py`). It builds
  the connection URL from four environment values. It keeps one database session and
  drives it: `new` adds, flushes and refreshes an object, and rolls back and re-raises
  on failure; `save` commits; `delete` marks an object for deletion; `close` removes the
  session; `reload` opens a fresh one. `all` builds a dictionary from
  `"<ClassName>.<id>"` to the string form of a copy of each object. The copy is rebuilt
  from the object's `to_dict()`.
- **The text routes** of the Flask application (`web_flask/3-python_route.py`): two
  constant answers, and `/c/<text>` and `/python/<text>`, which print a prefix and the
  text with every `_` turned into a space. `/python/` uses the default text `is cool`.

Files:

- `wrappers.dfy`: `Option`, which stands for Python's `None` beside a present value.
- `python_route.dfy` (module `PythonRoute`): the four handlers as pure functions and
  the lemmas about the underscore replacement.
- `unit_of_work.dfy` (module `UnitOfWork`): an abstract stand-in for the database
  session. It holds per-class tables of records, a list of staged inserts and a list of
  staged deletions. It records every call the engine makes on it in a `trace`. Which of
  its operations raise is given to each session as a fixed map from operation to
  exception, so failures are an input of the model and not something it decides.
- `db_storage.dfy` (module `DbStorage`): the connection URL and its parser, the
  specification functions of the dictionary `all` builds (`Gather`, `GatherAll`) with
  their lemmas, and the class `DBStorage`. The class has a nullable `session` field that
  `reload` replaces and the other methods drive.
- `storage_scenarios.dfy`: two caller methods built only from the engine's contracts.
  In the first, an object that was added and saved is listed by `all`. In the second,
  a failed flush leaves `all` as it was.

The parts of `BaseModel` the engine calls are `to_dict()`, the keyword constructor,
`__str__` and the truth value used by `if obj:`. Their source is not part of this
model, so they are arbitrary functions bundled in `BaseModelApi`, and nothing is
assumed about them.

## Model

| member | source | states |
|---|---|---|
| `PythonRoute.DefaultPythonText` | web_flask/3-python_route.py:36-37 | the text `/python/` uses when the URL gives none is `is cool` |
| `PythonRoute.HelloHbnb` | web_flask/3-python_route.py:11-15 | route `/` always answers `Hello HBNB!` |
| `PythonRoute.Hbnb` | web_flask/3-python_route.py:19-23 | route `/hbnb` always answers `HBNB` |
| `PythonRoute.ReplaceUnderscores` | web_flask/3-python_route.py:32 | `text.replace('_', ' ')` keeps the length, turns each `_` into a space at the same position and keeps every other character |
| `PythonRoute.ReplaceUnderscoresUnique` | web_flask/3-python_route.py:32 | any text that agrees with that position-by-position description is the replacement, so the description fixes the result |
| `PythonRoute.Display` | web_flask/3-python_route.py:32 | the shared `'<prefix> {}'.format(...)` shape: length is prefix length plus text length, the prefix comes first, each non-underscore character of the text sits at its position shifted by the prefix length, each underscore becomes a space, and no `_` remains when the prefix has none |
| `PythonRoute.DisplayC` | web_flask/3-python_route.py:27-32 | `/c/<text>` starts with `C `, has length 2 + the text's length, contains no `_`, keeps every non-underscore character two places further on and puts a space two places after each `_` |
| `PythonRoute.DisplayPython` | web_flask/3-python_route.py:37-42 | `/python/<text>` starts with `Python `, has length 7 + the text's length, contains no `_`, keeps every non-underscore character seven places further on and puts a space seven places after each `_` |
| `PythonRoute.DisplayPythonDefault` | web_flask/3-python_route.py:35-42 | `/python/` with no text uses the default `is cool` and answers `Python is cool` |
| `PythonRoute.ReplaceUnderscoresIdempotent` | web_flask/3-python_route.py:32 | replacing underscores in an already converted text changes nothing |
| `PythonRoute.ReplaceUnderscoresConcat` | web_flask/3-python_route.py:32 | the replacement of a concatenation is the concatenation of the replacements |
| `PythonRoute.DisplayWithoutUnderscores` | web_flask/3-python_route.py:32 | a text with no `_` is shown unchanged after the prefix |
| `DbStorage.EnvText` | models/engine/db_storage.py:40-44 | an unset environment variable is formatted into the URL as `None`, a set one as its value |
| `DbStorage.HostText` | models/engine/db_storage.py:42 | the host is `localhost` when `HBNB_MYSQL_HOST` is unset, its value otherwise |
| `DbStorage.GetEngineUrl` | models/engine/db_storage.py:36-44 | the URL is exactly `mysql+mysqldb://` + user + `:` + password + `@` + host + `/` + database, with no escaping of any part, and when the user has no `:`, the password no `@` and the host no `/`, parsing it gives back exactly user, password, host and database in that order |
| `DbStorage.ParseUrlJoin` | models/engine/db_storage.py:44 | `mysql+mysqldb://` + user + `:` + password + `@` + host + `/` + database is read back into the same four parts |
| `DbStorage.GetEngineUrlDefaultHost` | models/engine/db_storage.py:42-44 | leaving the host unset gives the same URL as setting it to `localhost` |
| `DbStorage.SplitAtJoin` | models/engine/db_storage.py:44 | cutting `a + [sep] + b` at the first `sep` gives back `a` and `b` when `a` has no `sep`; the URL parser and the key parser rest on this |
| `DbStorage.Classes` | models/engine/db_storage.py:24-28 | the classes `all()` visits when no class is given: State, City and User, in that order |
| `DbStorage.Key` | models/engine/db_storage.py:60 | the dictionary key of an object is its class name, a `.`, and its id |
| `DbStorage.Render` | models/engine/db_storage.py:61-63 | the value stored for an object is the string of a fresh instance of `cls` rebuilt from the object's `to_dict()` |
| `DbStorage.Gather` | models/engine/db_storage.py:66-70 | the inner loop of `all`: one assignment `result[key] = ...` per object, in order; its properties are the `Gather...` lemmas below |
| `DbStorage.GatherAll` | models/engine/db_storage.py:56-63 | the outer loop of `all()`: the inner loop over each class in turn; its properties are `GatherAllKeys` and the `All...` lemmas below |
| `DbStorage.KeySplits` | models/engine/db_storage.py:67 | a key `f"{obj.__class__.__name__}.{obj.id}"` cuts back into the class name and the id when the class name has no `.` |
| `DbStorage.KeyInjective` | models/engine/db_storage.py:67 | two objects of the same class have the same key only when they have the same id |
| `DbStorage.GatherKeys` | models/engine/db_storage.py:65-70 | the keys of the dictionary the loop fills are those it started with plus exactly one key per object visited |
| `DbStorage.GatherAllKeys` | models/engine/db_storage.py:56-63 | the keys of the dictionary filled over several classes are those it started with plus the keys of the objects of each class visited |
| `DbStorage.GatherLastWins` | models/engine/db_storage.py:66-70 | an object's key is bound to that object's rendering `str(cls(**obj.to_dict()))` when no later object has the same key (a later one overwrites) |
| `DbStorage.GatherValues` | models/engine/db_storage.py:66-70 | with distinct keys, every object's key is bound to the rendering of that object |
| `DbStorage.GatherCount` | models/engine/db_storage.py:66-70 | with distinct keys that were not already present, the dictionary grows by exactly one entry per object |
| `DbStorage.DistinctIdsDistinctKeys` | models/engine/db_storage.py:67 | objects of one class with distinct ids get distinct keys |
| `DbStorage.AllOfClassExactlyOnePerObject` | models/engine/db_storage.py:65-70 | `all(cls)` over objects with distinct ids has exactly one entry per object, keyed `cls + "." + id`, holding that object's rendering, and no other key |
| `DbStorage.GatherDetached` | models/engine/db_storage.py:66-70 | the entries depend on each object only through its key and its `to_dict()`, not on the live object |
| `DbStorage.AllRegisteredKeys` | models/engine/db_storage.py:56-63 | the keys of `all()` are exactly the union of the keys of the State, City and User tables |
| `DbStorage.GatherAllIgnoresOthers` | models/engine/db_storage.py:56-58 | tables of classes outside the visited names (Place, Review, Amenity and any other) have no effect on `all()` |
| `DbStorage.AllKeyOrigin` | models/engine/db_storage.py:57-60 | every key of `all()` is the key of an object of one of the registered classes |
| `DbStorage.AllRegisteredOnly` | models/engine/db_storage.py:24-28 | every key of `all()` starts with State, City or User, and never with Place, Review or Amenity |
| `DbStorage.FlushedHolds` | models/engine/db_storage.py:79-80 | an added object is in its class's table once the pending work is flushed |
| `DbStorage.FirstFault` | models/engine/db_storage.py:78-84 | `new` raises exactly when one of add, flush or refresh raises |
| `DbStorage.NewCalls` | models/engine/db_storage.py:78-84 | the calls of `new` start with `add`, and end with `rollback` exactly when one of the three steps raised |
| `DbStorage.DBStorage.constructor` | models/engine/db_storage.py:30-32 | the engine is built once from `get_engine_url()` and there is no session yet |
| `DbStorage.DBStorage.Close` | models/engine/db_storage.py:46-49 | with no session nothing happens; otherwise the same session gets exactly one `remove` call and is left with no pending work |
| `DbStorage.DBStorage.All` | models/engine/db_storage.py:51-71 | the result of the two loops equals `GatherAll` over State, City, User when no class is given and `Gather` over the given class otherwise; the session is only read |
| `DbStorage.DBStorage.New` | models/engine/db_storage.py:73-84 | `new(None)` changes nothing and needs no session; otherwise the calls are add, flush, refresh up to the first that raises, followed by `rollback` when one raised; the exception returned is the one raised; on failure the session holds no pending work; on success the object is flushed into its class's table |
| `DbStorage.DBStorage.Save` | models/engine/db_storage.py:86-90 | the only call is one `commit`; on success the store holds the flushed tables and the session is clean; on failure nothing but the call record changes |
| `DbStorage.DBStorage.Delete` | models/engine/db_storage.py:92-97 | `None` or a falsy object changes nothing and needs no session; otherwise one `delete` call, and the object is marked for deletion unless that call raised |
| `DbStorage.DBStorage.Reload` | models/engine/db_storage.py:99-105 | a brand-new session replaces the field's old value, sees exactly the stored rows, has no pending work and no calls yet; the store is unchanged and the old session is not touched |
| `UnitOfWork.Session.Query` | models/engine/db_storage.py:58 | `query(cls).all()` of the stand-in gives only objects of class `cls` |
| `UnitOfWork.Session.Add` | models/engine/db_storage.py:79 | stand-in `add`: stages the object unless it raises |
| `UnitOfWork.Session.Flush` | models/engine/db_storage.py:80 | stand-in `flush`: writes staged inserts and deletions into the session's tables unless it raises |
| `UnitOfWork.Session.Refresh` | models/engine/db_storage.py:81 | stand-in `refresh`: changes no table |
| `UnitOfWork.Session.Rollback` | models/engine/db_storage.py:83 | stand-in `rollback`: discards all uncommitted work |
| `UnitOfWork.Session.Commit` | models/engine/db_storage.py:90 | stand-in `commit`: makes the flushed tables the stored ones unless it raises |
| `UnitOfWork.Session.Delete` | models/engine/db_storage.py:97 | stand-in `delete`: marks the object for deletion unless it raises |
| `UnitOfWork.Session.Remove` | models/engine/db_storage.py:49 | stand-in `remove`: discards all uncommitted work |
| `UnitOfWork.FlushedWellFiled` | models/engine/db_storage.py:80 | writing out pending work keeps every record in its own class's table |
| `UnitOfWork.InsertRows` | models/engine/db_storage.py:79-80 | flushing appends to each table, in order, exactly the staged objects of its class |

## Left out

- SQLAlchemy itself: `create_engine` and its pool options, `create_all`, `drop_all`,
  `sessionmaker`, `scoped_session` and the real meaning of `add`, `flush`, `refresh`,
  `commit`, `delete` and `remove`. The engine handle is a `Database` object holding the
  stored tables. The session is the stand-in described above. Its operations are
  simplified (for example, `refresh` changes nothing) and claim nothing about the
  library.
- `UnitOfWork.Session.Query` sees only flushed work: objects added or marked for
  deletion since the last flush do not show up in, or vanish from, `all()` until a flush.
  SQLAlchemy's autoflush before a query is not modelled.
- `UnitOfWork.Session.Rollback`, `UnitOfWork.Session.Remove` and `UnitOfWork.Session.Query`
  never raise: the fault map only covers `add`, `flush`, `refresh`, `commit` and `delete`.
- `close`: `reload` stores the object returned by calling the `scoped_session`
  registry, and the source calls `remove()` on that object. The model gives its
  stand-in a `Remove` and does not decide whether the real object offers that call.
- Reading the environment with `os.getenv`: the four values are parameters.
- Schema handling: the drop of all tables when `HBNB_ENV` is `test`
  (`db_storage.py:33-34`) is a destructive side effect. `create_all` in `reload` is
  schema creation. Neither is modelled.
- Use before `reload`: `all`, `save`, and `new` or `delete` of a real (truthy) object
  dereference a `None` session and fail with an `AttributeError`. Those cases require a
  session instead. `new(None)`, `delete(None)` and `delete` of a falsy object never touch
  the session and are modelled with or without one. The source has no "not ready" state
  or error type.
- The order of the dictionary `all` returns: a Dafny `map` has no order. The values
  and the last-write-wins rule for equal keys are modelled.
- `to_dict`, the keyword constructor, `__str__` and the truth value of a model
  object (`BaseModel` is not part of this model): they are uninterpreted.
- Generated ids and timestamps, uniqueness of ids, and cascade deletes: these come from
  `BaseModel` and from SQLAlchemy's relationship settings. Lemmas that need distinct
  ids take them as a hypothesis.
- The registry: the source's `all()` visits only State, City and User, although
  Place, Review and Amenity are imported. The model follows the code and proves that
  the other three never appear.
- `models/user.py` is not part of this model. It is not valid Python as written, and
  it holds only column and relationship declarations.
- Flask route registration, `strict_slashes` and `app.run`: only the strings the
  handlers return are modelled.
- Concurrency: the engine is used by one caller at a time. The model is sequential.
