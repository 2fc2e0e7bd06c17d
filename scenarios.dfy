/** Client code that drives the stores through the flows the application
    is built for, using only the stores' contracts. */
module Scenarios {
  import opened Domain
  import opened TaskStore
  import opened Session
  import AuthGuard

  /** An unknown email: the lookup finds nobody, the account is created,
      the session is authenticated, the guard opens and the first load of
      the new user's tasks leaves an empty cache. */
  method SignUpThenLoad(codec: Codec, u: User) {
    var session := new UserService(true, codec, None);
    var found := session.FindByEmail(u.email, Ok(Response(Undefined)));
    assert found == Ok(None) && !session.authState.loading;
    var created := session.CreateUser(u.email, Ok(Response(Present(u))));
    assert session.authState == SignedIn(u);
    assert AuthGuard.CanActivate(session.authState).allow;
    var store := new TaskService();
    var loaded := store.GetTasksByUser(u.id, Ok(Response(Present([]))));
    assert store.tasks == [] && !store.loading;
  }

  /** Two creations in a row: the later task comes first. A failed update of
      the first task afterwards leaves the cache as it was. */
  method NewestFirst(first: Task, second: Task, data: CreateTaskRequest) {
    var store := new TaskService();
    var r1 := store.CreateTask(data, Ok(Response(Present(first))));
    var r2 := store.CreateTask(data, Ok(Response(Present(second))));
    assert store.tasks == [r2.value, r1.value];
    assert store.tasks[0].id == second.id && store.tasks[1].id == first.id;
    var before := store.tasks;
    var r3 := store.UpdateTask(first.id, TaskPatch(None, None, Some(true)), Err(Remote("offline")));
    assert r3.Err? && store.tasks == before;
  }

  /** A failed load leaves the loading flag raised. */
  method FailedLoadStaysLoading(userId: string) {
    var store := new TaskService();
    var loaded := store.GetTasksByUser(userId, Err(Remote("offline")));
    assert store.loading && store.tasks == [];
  }

  /** A session written to the slot is picked up again by a store built on
      the same slot, and a logout leaves nothing to pick up. */
  method SessionSurvivesRestart(codec: Codec, u: User)
    requires codec.parse(codec.stringify(u)) == UserValue(u)
    requires codec.stringify(u) != ""
  {
    var first := new UserService(true, codec, None);
    first.SetCurrentUser(u);
    var second := new UserService(true, codec, first.slot);
    assert second.authState == SignedIn(u);
    first.Logout();
    var third := new UserService(true, codec, first.slot);
    assert third.authState == Anonymous();
  }

  /** A created account whose envelope carries `data: null` leaves the text
      `null` in the slot; after a restart the session is authenticated with
      no user. */
  method NullUserSurvivesRestart(codec: Codec, email: string)
    requires codec.parse(NullText) == Null
  {
    var first := new UserService(true, codec, None);
    var created := first.CreateUser(email, Ok(Response(JsonNull)));
    assert created == Ok(None) && first.slot == Some(NullText);
    var second := new UserService(true, codec, first.slot);
    assert second.authState == AuthState(None, true, false);
    assert !Consistent(second.authState);
  }

  /** The same envelope with `data` left out leaves the text `undefined`,
      which `JSON.parse` rejects: a restart removes it and stays anonymous. */
  method UndefinedUserIsDropped(codec: Codec, email: string)
    requires codec.parse(UndefinedText) == Malformed
  {
    var first := new UserService(true, codec, None);
    var created := first.CreateUser(email, Ok(Response(Undefined)));
    assert first.authState == AuthState(None, true, false);
    var second := new UserService(true, codec, first.slot);
    assert second.authState == Anonymous() && second.slot == None;
  }
}
