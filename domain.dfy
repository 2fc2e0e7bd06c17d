/** Values shared by the session store, the task store and the views:
    the user and task records, the authentication state, and the shapes
    in which the remote gateway answers. */
module Domain {

  datatype Option<+T> = None | Some(value: T) {
    /** `x || fallback` for a value that is either present or absent. */
    function GetOr(fallback: T): T {
      match this
      case Some(v) => v
      case None => fallback
    }
  }

  /** Why a gateway-backed operation failed. */
  datatype Error =
    | Remote(message: string)  // the message the HTTP layer passes through unchanged
    | MissingData              // a success envelope whose `data`, dereferenced by the caller, is `undefined` or `null`

  datatype Result<+T> = Ok(value: T) | Err(error: Error)

  /** The `data` member of an envelope: left out, JSON `null`, or a value. */
  datatype Payload<+T> = Undefined | JsonNull | Present(value: T) {
    /** `data || fallback`: both `undefined` and `null` are falsy. */
    function AsOption(): (o: Option<T>)
      ensures o.Some? <==> Present?
      ensures Present? ==> o.value == value
    {
      if Present? then Some(value) else None
    }
  }

  /** The envelope every gateway call answers with; the core reads only `data`. */
  datatype Response<+T> = Response(data: Payload<T>)

  /** An opaque timestamp: the text as it arrives from the gateway, or a
      `Date` built from that text. */
  datatype Stamp = Wire(text: string) | Date(text: string)

  datatype User = User(id: string, email: string, createdAt: Stamp)

  datatype Task = Task(
    id: string,
    title: string,
    description: string,
    completed: bool,
    userId: string,
    createdAt: Stamp,
    updatedAt: Stamp)

  /** The body of a create request: the dialog's fields plus the owner. */
  datatype CreateTaskRequest = CreateTaskRequest(title: string, description: string, userId: string)

  /** The body of an update request: every field is optional. */
  datatype TaskPatch = TaskPatch(title: Option<string>, description: Option<string>, completed: Option<bool>)

  /** The session as the session store publishes it. */
  datatype AuthState = AuthState(user: Option<User>, isAuthenticated: bool, loading: bool)

  predicate IsCompleted(t: Task) { t.completed }

  predicate IsPending(t: Task) { !t.completed }
}
