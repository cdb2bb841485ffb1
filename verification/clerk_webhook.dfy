/** The identity-provider webhook `POST /api/webhook/clerk`: it validates a
    user-change notification, picks the user's primary email and upserts a
    local user record keyed by that email. The handler is a pure function of
    the parsed request, the store of user records and the runtime it runs in. */
module ClerkWebhook {
  import opened JsValues

  /** One entry of `data.email_addresses`. */
  datatype EmailEntry = EmailEntry(id: Option<string>, emailAddress: Option<string>)

  /** The notification's `data` object; every field may be missing. */
  datatype UserData = UserData(
    id: Option<string>,
    fullName: Option<string>,
    emailAddresses: Option<seq<EmailEntry>>,
    primaryEmailAddressId: Option<string>)

  /** The request body: either it fails to parse as JSON, or it parses and
      its `data` field is present or not. */
  datatype Request = Unparsable(parseError: string) | Parsed(data: Option<UserData>)

  /** A local user record; `id` is the primary key, `email` is unique. */
  datatype User = User(id: string, name: string, email: string)

  /** The columns of a user row other than its email. */
  datatype Row = Row(id: string, name: string)

  /** The user table, indexed by its unique email column. */
  type Store = map<string, Row>

  /** The record stored under `email`. */
  function UserAt(store: Store, email: string): User
    requires email in store
  {
    User(store[email].id, store[email].name, email)
  }

  /** What the handler cannot see from the request: whether the database
      client exists, whether the upsert call itself fails (and with what
      message), the message the database gives when a create breaks the
      primary-key constraint, and whether the process runs in development. */
  datatype Runtime = Runtime(
    clientInitialized: bool,
    upsertFault: Option<string>,
    idConflictMessage: string,
    isDevelopment: bool)

  datatype Response =
    | Ok(user: User)
    | BadRequest(error: string)
    | ServerError(details: Option<string>)
  {
    function Status(): int {
      match this
      case Ok(_) => 200
      case BadRequest(_) => 400
      case ServerError(_) => 500
    }

    /** The `error` field of the JSON body, absent on success. */
    function ErrorText(): Option<string> {
      match this
      case Ok(_) => None
      case BadRequest(e) => Some(e)
      case ServerError(_) => Some(InternalError)
    }
  }

  datatype Outcome = Outcome(response: Response, store: Store)

  const MissingData := "Missing required data"
  const MissingUserId := "User ID not found"
  const MissingEmail := "User email not found"
  const InternalError := "Internal server error"
  const ClientNotInitialized := "Prisma client not initialized"

  /** The primary-key constraint: no two records share an id. */
  predicate ValidStore(store: Store) {
    forall e1, e2 :: e1 in store && e2 in store && e1 != e2 ==> store[e1].id != store[e2].id
  }

  predicate IdTaken(store: Store, id: string) {
    exists e :: e in store && store[e].id == id
  }

  /** The addresses listed in the notification; a missing list reads as an
      empty one, since both `find` and `[0]` then yield `undefined`. */
  function Addresses(data: UserData): seq<EmailEntry> {
    data.emailAddresses.GetOr([])
  }

  /** Entry `i` is the first one whose id is `===` to `primaryId`. */
  predicate IsFirstMatch(entries: seq<EmailEntry>, primaryId: Option<string>, i: int) {
    && 0 <= i < |entries|
    && entries[i].id == primaryId
    && forall j :: 0 <= j < i ==> entries[j].id != primaryId
  }

  /** `Array.prototype.find` by id, returning the position of the entry found. */
  function FindIndex(entries: seq<EmailEntry>, primaryId: Option<string>): (r: Option<nat>)
    ensures r.Some? ==> IsFirstMatch(entries, primaryId, r.value)
    ensures r.None? ==> forall i :: 0 <= i < |entries| ==> entries[i].id != primaryId
  {
    if entries == [] then None
    else if entries[0].id == primaryId then Some(0)
    else
      match FindIndex(entries[1..], primaryId)
      case None => None
      case Some(i) => Some(i + 1)
  }

  /** `email_addresses?.[0]?.email_address`. */
  function FirstAddress(entries: seq<EmailEntry>): Option<string> {
    if |entries| > 0 then entries[0].emailAddress else None
  }

  /** The primary email: the address of the first entry whose id matches
      `primary_email_address_id` when that address is truthy, otherwise the
      first entry's address (which may itself be missing or empty). */
  function PrimaryEmail(data: UserData): (r: Option<string>)
    ensures forall i :: IsFirstMatch(Addresses(data), data.primaryEmailAddressId, i) ==>
      r == (if Truthy(Addresses(data)[i].emailAddress) then Addresses(data)[i].emailAddress
            else FirstAddress(Addresses(data)))
    ensures (forall i :: !IsFirstMatch(Addresses(data), data.primaryEmailAddressId, i)) ==>
      r == FirstAddress(Addresses(data))
    ensures r.Some? ==> exists k :: 0 <= k < |Addresses(data)| && Addresses(data)[k].emailAddress == r
  {
    var entries := Addresses(data);
    var found :=
      match FindIndex(entries, data.primaryEmailAddressId)
      case Some(i) => entries[i].emailAddress
      case None => None;
    Or(found, FirstAddress(entries))
  }

  /** `full_name || ''`. */
  function DisplayName(data: UserData): string {
    OrEmpty(data.fullName)
  }

  /** The body of the 500 response: the thrown message only in development. */
  function Failure(message: string, rt: Runtime): (resp: Response)
    ensures resp.ServerError?
    ensures resp.details.Some? <==> rt.isDevelopment
    ensures resp.details.Some? ==> resp.details.value == message
  {
    ServerError(if rt.isDevelopment then Some(message) else None)
  }

  /** `prisma.user.upsert` keyed by email: update only the name of an
      existing record, or create a record with the given id, name and email.
      A failing call, or a create whose id is already a primary key, throws
      and writes nothing. */
  function Upsert(store: Store, id: string, name: string, email: string, rt: Runtime): (o: Outcome)
    ensures o.response.Ok? || o.response.ServerError?
    ensures o.response.ServerError? ==> o.store == store
    ensures o.response.Ok? ==> o.store.Keys == store.Keys + {email} && UserAt(o.store, email) == o.response.user
    ensures o.response.Ok? ==> forall e :: e in store && e != email ==> o.store[e] == store[e]
    ensures o.response.Ok? && email in store ==> o.response.user == User(store[email].id, name, email)
    ensures o.response.Ok? && email !in store ==> o.response.user == User(id, name, email)
    ensures rt.upsertFault.None? && (email in store || !IdTaken(store, id)) ==> o.response.Ok?
    ensures rt.upsertFault.Some? ==> o.response == Failure(rt.upsertFault.value, rt)
    ensures rt.upsertFault.None? && email !in store && IdTaken(store, id) ==>
      o.response == Failure(rt.idConflictMessage, rt)
  {
    if rt.upsertFault.Some? then
      Outcome(Failure(rt.upsertFault.value, rt), store)
    else if email in store then
      var row := store[email].(name := name);
      Outcome(Ok(User(row.id, row.name, email)), store[email := row])
    else if IdTaken(store, id) then
      Outcome(Failure(rt.idConflictMessage, rt), store)
    else
      Outcome(Ok(User(id, name, email)), store[email := Row(id, name)])
  }

  /** The `POST` handler. Checks run in the handler's order: database client,
      body, `data`, user id, then email; every failure leaves the store as it
      was, and only a successful upsert changes it. */
  function Handle(req: Request, store: Store, rt: Runtime): (o: Outcome)
    ensures !o.response.Ok? ==> o.store == store
    ensures o.response.Status() == 400 ==> rt.clientInitialized && req.Parsed?
    ensures o.response.ServerError? ==> (o.response.details.Some? <==> rt.isDevelopment)
    ensures o.response.Ok? ==>
      && req.Parsed? && req.data.Some?
      && Truthy(req.data.value.id)
      && PrimaryEmail(req.data.value) == Some(o.response.user.email)
      && o.response.user.email != ""
      && o.response.user.name == DisplayName(req.data.value)
      && o.store.Keys == store.Keys + {o.response.user.email}
      && UserAt(o.store, o.response.user.email) == o.response.user
      && (forall e :: e in store && e != o.response.user.email ==> o.store[e] == store[e])
  {
    if !rt.clientInitialized then
      Outcome(Failure(ClientNotInitialized, rt), store)
    else
      match req
      case Unparsable(parseError) => Outcome(Failure(parseError, rt), store)
      case Parsed(None) => Outcome(BadRequest(MissingData), store)
      case Parsed(Some(data)) =>
        var email := PrimaryEmail(data);
        if !Truthy(data.id) then
          Outcome(BadRequest(MissingUserId), store)
        else if !Truthy(email) then
          Outcome(BadRequest(MissingEmail), store)
        else
          Upsert(store, data.id.value, DisplayName(data), email.value, rt)
  }
}
