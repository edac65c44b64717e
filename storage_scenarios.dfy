/** Two uses of the storage engine, written as a caller would make them, to show
    what its contracts let a caller conclude: a committed object is listed by
    `all`, and an object whose flush fails leaves nothing behind. */
module StorageScenarios {
  import opened Wrappers
  import opened UnitOfWork
  import opened DbStorage

  /** `reload()`, `new(user)`, `save()`, `all(User)` against a store that never
      fails: the user is listed under `"User.<id>"`. */
  method NewSaveAll(storage: DBStorage, user: Record, api: BaseModelApi) returns (listed: map<string, string>)
    requires storage.Valid()
    requires user.className == "User"
    modifies storage, storage.engine
    ensures Key(user) in listed
  {
    storage.Reload(map[]);
    var raised := storage.New(Some(user));
    assert user in Rows(storage.session.tables, "User");
    ghost var written := storage.session.tables;
    raised := storage.Save();
    FlushedNothing(written);
    listed := storage.All(api, Some("User"));
    assert Key(user) in KeysOf(Rows(storage.session.tables, "User"));
  }

  /** `reload()` and `new(user)` against a store whose flush fails: the same
      exception comes back and `all(User)` is what it was before. */
  method FailedNewLeavesNothing(storage: DBStorage, user: Record, api: BaseModelApi, e: Exception)
    returns (raised: Option<Exception>, before: map<string, string>, after: map<string, string>)
    requires storage.Valid()
    modifies storage, storage.engine
    ensures raised == Some(e)
    ensures after == before
  {
    storage.Reload(map[FlushOp := e]);
    before := storage.All(api, Some("User"));
    raised := storage.New(Some(user));
    after := storage.All(api, Some("User"));
  }
}
