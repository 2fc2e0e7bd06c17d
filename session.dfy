/** The session store (`UserService`): one `AuthState` value, published to
    observers, moved between anonymous, loading and authenticated, and
    mirrored in the browser's persisted `currentUser` slot. */
module Session {
  import opened Domain

  /** What `JSON.parse` makes of the stored text: it throws, it yields
      `null`, or it yields an object the store takes for a user. */
  datatype Parsed = Malformed | Null | UserValue(user: User)

  /** `JSON.stringify` and `JSON.parse` as the store uses them on the slot. */
  datatype Codec = Codec(stringify: User -> string, parse: string -> Parsed)

  /** What the slot holds after `setItem` is handed `JSON.stringify(undefined)`. */
  const UndefinedText: string := "undefined"

  /** What `JSON.stringify(null)` produces. */
  const NullText: string := "null"

  /** The state before anything happens, and after `logout`. */
  function Anonymous(): AuthState {
    AuthState(None, false, false)
  }

  /** The state after a user is set. */
  function SignedIn(u: User): AuthState {
    AuthState(Some(u), true, false)
  }

  /** The intended invariant: authenticated exactly when a user is present. */
  predicate Consistent(s: AuthState) {
    s.isAuthenticated <==> s.user.Some?
  }

  /** `if (userData)` in a browser: the slot holds a non-empty string. */
  predicate HasStoredSession(isBrowser: bool, slot: Option<string>) {
    isBrowser && slot.Some? && slot.value != ""
  }

  /** One call the store makes to the remote gateway. */
  datatype UserRequest = GetUser(email: string) | PostUser(email: string)

  class UserService {
    /** The current value of `authStateSubject`. */
    var authState: AuthState
    /** `localStorage['currentUser']`. */
    var slot: Option<string>
    /** `isPlatformBrowser(platformId)`: storage is touched only in a browser. */
    const isBrowser: bool
    const codec: Codec
    /** Every value `authStateSubject` has held, oldest first. */
    ghost var emitted: seq<AuthState>
    /** Every gateway call made so far, oldest first. */
    ghost var requests: seq<UserRequest>

    /** The subject's current value is the last value it emitted. */
    ghost predicate Valid()
      reads this
    {
      emitted != [] && emitted[|emitted| - 1] == authState
    }

    /** The store starts anonymous and then seeds itself from the slot. */
    constructor (isBrowser: bool, codec: Codec, stored: Option<string>)
      ensures Valid() && this.isBrowser == isBrowser && this.codec == codec && requests == []
      ensures emitted[0] == Anonymous()
      ensures !HasStoredSession(isBrowser, stored) ==>
        slot == stored && emitted == [Anonymous()]
      ensures HasStoredSession(isBrowser, stored) && codec.parse(stored.value).Malformed? ==>
        slot == None && emitted == [Anonymous()]
      ensures HasStoredSession(isBrowser, stored) && codec.parse(stored.value).Null? ==>
        slot == stored && emitted == [Anonymous(), AuthState(None, true, false)]
      ensures HasStoredSession(isBrowser, stored) && codec.parse(stored.value).UserValue? ==>
        slot == stored && emitted == [Anonymous(), SignedIn(codec.parse(stored.value).user)]
    {
      this.isBrowser := isBrowser;
      this.codec := codec;
      authState := Anonymous();
      slot := stored;
      emitted := [Anonymous()];
      requests := [];
      new;
      LoadUserFromStorage();
    }

    /** `loadUserFromStorage`: readable content authenticates; content that
        does not parse is removed and the state is left alone; an empty slot,
        or a platform without storage, changes nothing. */
    method LoadUserFromStorage()
      requires Valid()
      modifies this`authState, this`slot, this`emitted
      ensures Valid()
      ensures !HasStoredSession(isBrowser, old(slot)) ==>
        slot == old(slot) && emitted == old(emitted)
      ensures HasStoredSession(isBrowser, old(slot)) && codec.parse(old(slot).value).Malformed? ==>
        slot == None && emitted == old(emitted)
      ensures HasStoredSession(isBrowser, old(slot)) && codec.parse(old(slot).value).Null? ==>
        slot == old(slot) && authState == AuthState(None, true, false) && emitted == old(emitted) + [authState]
      ensures HasStoredSession(isBrowser, old(slot)) && codec.parse(old(slot).value).UserValue? ==>
        slot == old(slot) && authState == SignedIn(codec.parse(old(slot).value).user)
        && emitted == old(emitted) + [authState]
      ensures Consistent(old(authState))
        && !(HasStoredSession(isBrowser, old(slot)) && codec.parse(old(slot).value).Null?)
        ==> Consistent(authState)
    {
      if HasStoredSession(isBrowser, slot) {
        match codec.parse(slot.value)
        case Malformed =>
          slot := None;
        case Null =>
          authState := AuthState(None, true, false);
          emitted := emitted + [authState];
        case UserValue(u) =>
          authState := SignedIn(u);
          emitted := emitted + [authState];
      }
    }

    /** `setLoading`: only the loading flag changes. */
    method SetLoading(loading: bool)
      requires Valid()
      modifies this`authState, this`emitted
      ensures Valid()
      ensures authState.loading == loading
      ensures authState.user == old(authState.user)
      ensures authState.isAuthenticated == old(authState.isAuthenticated)
      ensures emitted == old(emitted) + [authState]
      ensures Consistent(old(authState)) ==> Consistent(authState)
    {
      authState := authState.(loading := loading);
      emitted := emitted + [authState];
    }

    /** `setCurrentUser`: authenticated as `user`, not loading, and in a
        browser the user is written to the slot. */
    method SetCurrentUser(user: User)
      requires Valid()
      modifies this`authState, this`slot, this`emitted
      ensures Valid()
      ensures authState == SignedIn(user) && Consistent(authState)
      ensures slot == if isBrowser then Some(codec.stringify(user)) else old(slot)
      ensures emitted == old(emitted) + [authState]
    {
      if isBrowser {
        slot := Some(codec.stringify(user));
      }
      authState := SignedIn(user);
      emitted := emitted + [authState];
    }

    /** `getCurrentUser`: the user of the current state. */
    method GetCurrentUser() returns (user: Option<User>)
      ensures user == authState.user
      ensures Consistent(authState) ==> (user.Some? <==> authState.isAuthenticated)
    {
      user := authState.user;
    }

    /** `logout`: anonymous, not loading, and in a browser the slot is cleared. */
    method Logout()
      requires Valid()
      modifies this`authState, this`slot, this`emitted
      ensures Valid()
      ensures authState == Anonymous() && Consistent(authState)
      ensures slot == if isBrowser then None else old(slot)
      ensures emitted == old(emitted) + [authState]
    {
      if isBrowser {
        slot := None;
      }
      authState := Anonymous();
      emitted := emitted + [authState];
    }

    /** `findByEmail`: loading goes up at call time; on success the user (or
        nothing, when the envelope has no data) is returned and loading comes
        down; on failure loading stays up. The session itself never changes. */
    method FindByEmail(email: string, reply: Result<Response<User>>) returns (r: Result<Option<User>>)
      requires Valid()
      modifies this`authState, this`emitted, this`requests
      ensures Valid() && slot == old(slot)
      ensures requests == old(requests) + [GetUser(email)]
      ensures authState.user == old(authState.user)
      ensures authState.isAuthenticated == old(authState.isAuthenticated)
      ensures reply.Ok? ==>
        && r == Ok(reply.value.data.AsOption()) && !authState.loading
        && emitted == old(emitted) + [old(authState).(loading := true), authState]
      ensures reply.Err? ==>
        && r == Err(reply.error) && authState.loading
        && emitted == old(emitted) + [authState]
      ensures Consistent(old(authState)) ==> Consistent(authState)
    {
      requests := requests + [GetUser(email)];
      SetLoading(true);
      match reply
      case Err(e) =>
        r := Err(e);
      case Ok(response) =>
        SetLoading(false);
        r := Ok(response.data.AsOption());
    }

    /** `createUser`: loading goes up at call time; on success the returned
        user becomes the current user and loading ends false. A success
        envelope whose data is `undefined` or `null` still runs
        `setCurrentUser` with that value: the state becomes authenticated
        without a user, and a browser stores `JSON.stringify` of it, which is
        no text at all for `undefined` (the storage then keeps the text
        `undefined`) and the text `null` for `null`. */
    method CreateUser(email: string, reply: Result<Response<User>>) returns (r: Result<Option<User>>)
      requires Valid()
      modifies this`authState, this`slot, this`emitted, this`requests
      ensures Valid()
      ensures requests == old(requests) + [PostUser(email)]
      ensures reply.Ok? && reply.value.data.Present? ==>
        var u := reply.value.data.value;
        && r == Ok(Some(u)) && authState == SignedIn(u)
        && slot == (if isBrowser then Some(codec.stringify(u)) else old(slot))
        && emitted == old(emitted) + [old(authState).(loading := true), authState, authState]
      ensures reply.Ok? && !reply.value.data.Present? ==>
        && r == Ok(None) && authState == AuthState(None, true, false)
        && emitted == old(emitted) + [old(authState).(loading := true), authState, authState]
      ensures reply.Ok? && reply.value.data.Undefined? ==>
        slot == (if isBrowser then Some(UndefinedText) else old(slot))
      ensures reply.Ok? && reply.value.data.JsonNull? ==>
        slot == (if isBrowser then Some(NullText) else old(slot))
      ensures reply.Err? ==>
        && r == Err(reply.error) && slot == old(slot)
        && authState == old(authState).(loading := true)
        && emitted == old(emitted) + [authState]
      ensures Consistent(old(authState)) && !(reply.Ok? && !reply.value.data.Present?) ==> Consistent(authState)
    {
      requests := requests + [PostUser(email)];
      SetLoading(true);
      match reply
      case Err(e) =>
        r := Err(e);
      case Ok(Response(Present(u))) =>
        SetCurrentUser(u);
        SetLoading(false);
        r := Ok(Some(u));
      case Ok(Response(absent)) =>
        if isBrowser {
          slot := Some(if absent.JsonNull? then NullText else UndefinedText);
        }
        authState := AuthState(None, true, false);
        emitted := emitted + [authState];
        SetLoading(false);
        r := Ok(None);
    }
  }
}
