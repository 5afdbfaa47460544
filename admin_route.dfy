/**
 * The admin route (src/app/api/admin/route.ts) as decision functions: from
 * the password configured in the environment and the request to the HTTP
 * response, together with what the handler did to the people store.  The
 * store is abstract: its current contents and the outcome of a save are
 * inputs, and the one guard of src/lib/store.ts that decides a save's
 * outcome before any I/O is modelled by `SavePeople`.
 */
module AdminRoute {
  import opened Wrappers
  import opened Types

  const DefaultPassword: string := "slava123"

  /** `process.env.ADMIN_PASSWORD || "slava123"`: an unset or empty variable falls back to the default. */
  function AdminPassword(env: Option<string>): (r: string)
    ensures r != []
    ensures r == DefaultPassword <==> env.None? || env.value == [] || env.value == DefaultPassword
    ensures env.Some? && env.value != [] ==> r == env.value
  {
    if env.Some? && env.value != [] then env.value else DefaultPassword
  }

  /** A value thrown inside the handler: an `Error` with its message, or anything else. */
  datatype Thrown = ErrorThrown(message: string) | OtherThrown

  function ThrownMessage(t: Thrown): string {
    match t
    case ErrorThrown(m) => m
    case OtherThrown => "Unknown error"
  }

  const MissingToken: string :=
    "BLOB_READ_WRITE_TOKEN is not set. Vercel Blob storage is required to save data."

  /** How a call to `savePeople` ended. */
  datatype SaveResult = Stored | SaveFailed(thrown: Thrown)

  /**
   * `savePeople`: without a blob token it throws before touching the store;
   * otherwise it ends as the blob upload did (`put` is `None` when it succeeded).
   */
  function SavePeople(token: Option<string>, put: Option<Thrown>): (r: SaveResult)
    ensures (token.None? || token.value == []) ==> r == SaveFailed(ErrorThrown(MissingToken))
    ensures token.Some? && token.value != [] ==> (r.Stored? <==> put.None?)
  {
    if token.None? || token.value == [] then SaveFailed(ErrorThrown(MissingToken))
    else if put.None? then Stored
    else SaveFailed(put.value)
  }

  datatype Payload = ErrorPayload(error: string) | PeoplePayload(people: seq<Person>) | OkPayload

  datatype Response = Response(status: int, payload: Payload)

  /** What the handler did to the store. */
  datatype StoreEffect = Untouched | ReadAll | WriteAll(people: seq<Person>)

  datatype Outcome = Outcome(response: Response, effect: StoreEffect)

  /** `GET /api/admin?pw=…`: `pw` is `None` when the query has no `pw`. */
  function Get(env: Option<string>, pw: Option<string>, stored: seq<Person>): Outcome {
    if pw != Some(AdminPassword(env)) then Outcome(Response(401, ErrorPayload("Unauthorized")), Untouched)
    else Outcome(Response(200, PeoplePayload(stored)), ReadAll)
  }

  /** A GET reads the store and returns its contents exactly when the password matches; otherwise 401. */
  lemma GetSpec(env: Option<string>, pw: Option<string>, stored: seq<Person>)
    ensures Get(env, pw, stored).effect.ReadAll? <==> pw == Some(AdminPassword(env))
    ensures Get(env, pw, stored).effect.ReadAll? ==> Get(env, pw, stored).response == Response(200, PeoplePayload(stored))
    ensures Get(env, pw, stored).effect.Untouched? <==> Get(env, pw, stored).response.status == 401
  {
  }

  /** The `people` field of a parsed body: an array of records, or anything else. */
  datatype PeopleField = NotAnArray | AnArray(items: seq<Person>)

  /**
   * The posted JSON: unreadable (the parse, or the property access on a
   * `null` body, threw), or its `password` (`None` unless a string) and `people`.
   */
  datatype Body = Unreadable(thrown: Thrown) | Parsed(password: Option<string>, people: PeopleField)

  /** `POST /api/admin`; `save` is how the `savePeople` call ends, when it is made. */
  function Post(env: Option<string>, body: Body, save: SaveResult): Outcome {
    match body
    case Unreadable(t) => Outcome(Response(500, ErrorPayload(ThrownMessage(t))), Untouched)
    case Parsed(password, people) =>
      if password != Some(AdminPassword(env)) then Outcome(Response(401, ErrorPayload("Unauthorized")), Untouched)
      else if people.NotAnArray? then Outcome(Response(400, ErrorPayload("Invalid data")), Untouched)
      else match save
        case Stored => Outcome(Response(200, OkPayload), WriteAll(people.items))
        case SaveFailed(t) => Outcome(Response(500, ErrorPayload(ThrownMessage(t))), WriteAll(people.items))
  }

  /**
   * The password is checked before the shape: a wrong password is 401 whatever
   * `people` holds, a right one with a non-array is 400, and neither touches the store.
   */
  lemma PostRejects(env: Option<string>, password: Option<string>, people: PeopleField, save: SaveResult)
    ensures password != Some(AdminPassword(env)) ==>
      Post(env, Parsed(password, people), save) == Outcome(Response(401, ErrorPayload("Unauthorized")), Untouched)
    ensures password == Some(AdminPassword(env)) && people.NotAnArray? ==>
      Post(env, Parsed(password, people), save) == Outcome(Response(400, ErrorPayload("Invalid data")), Untouched)
  {
  }

  /**
   * A POST saves exactly when it is an authorized array, and then saves exactly
   * the posted array; it answers `{ok: true}` exactly when that save succeeded,
   * and a failed save is a 500 with the thrown message.
   */
  lemma PostWritesIffValid(env: Option<string>, body: Body, save: SaveResult)
    ensures Post(env, body, save).effect.WriteAll? <==>
      body.Parsed? && body.password == Some(AdminPassword(env)) && body.people.AnArray?
    ensures Post(env, body, save).effect.WriteAll? ==> Post(env, body, save).effect.people == body.people.items
    ensures Post(env, body, save).response.status == 200 <==> Post(env, body, save).effect.WriteAll? && save.Stored?
    ensures Post(env, body, save).response.status == 200 ==> Post(env, body, save).response.payload.OkPayload?
    ensures Post(env, body, save).effect.WriteAll? && save.SaveFailed? ==>
      Post(env, body, save).response == Response(500, ErrorPayload(ThrownMessage(save.thrown)))
    ensures !Post(env, body, save).effect.ReadAll?
  {
  }

  /** Any password that opens the GET also passes the POST's password check. */
  lemma SamePasswordBothWays(env: Option<string>, pw: string, stored: seq<Person>, items: seq<Person>, save: SaveResult)
    requires Get(env, Some(pw), stored).response.status == 200
    ensures Post(env, Parsed(Some(pw), AnArray(items)), save).effect == WriteAll(items)
  {
  }
}
