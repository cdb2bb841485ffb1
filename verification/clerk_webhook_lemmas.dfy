/** Properties of the identity-provider webhook that relate the handler's
    result to its inputs, or several calls to each other. */
module ClerkWebhookLemmas {
  import opened JsValues
  import opened ClerkWebhook

  /** A notification without `data` is a 400 and writes nothing. */
  lemma MissingDataRejected(store: Store, rt: Runtime)
    requires rt.clientInitialized
    ensures Handle(Parsed(None), store, rt) == Outcome(BadRequest(MissingData), store)
    ensures Handle(Parsed(None), store, rt).response.Status() == 400
  {
  }

  /** A missing or empty user id is reported before the email is looked at,
      so it wins even when the email is missing too. */
  lemma MissingUserIdWins(data: UserData, store: Store, rt: Runtime)
    requires rt.clientInitialized && !Truthy(data.id)
    ensures Handle(Parsed(Some(data)), store, rt) == Outcome(BadRequest(MissingUserId), store)
  {
  }

  /** With a user id but no usable email the handler answers 400 and writes nothing. */
  lemma MissingEmailRejected(data: UserData, store: Store, rt: Runtime)
    requires rt.clientInitialized && Truthy(data.id) && !Truthy(PrimaryEmail(data))
    ensures Handle(Parsed(Some(data)), store, rt) == Outcome(BadRequest(MissingEmail), store)
  {
  }

  /** An empty or missing address list never yields an email. */
  lemma NoAddressesNoEmail(data: UserData)
    requires Addresses(data) == []
    ensures PrimaryEmail(data) == None
  {
  }

  /** Only the first entry whose id matches counts: when its address is
      empty the first listed address is used, even if a later entry with the
      same id carries a usable address. */
  lemma FirstMatchShadowsLaterMatches(data: UserData, i: nat, j: nat)
    requires IsFirstMatch(Addresses(data), data.primaryEmailAddressId, i)
    requires i < j < |Addresses(data)| && Addresses(data)[j].id == data.primaryEmailAddressId
    requires !Truthy(Addresses(data)[i].emailAddress)
    ensures PrimaryEmail(data) == FirstAddress(Addresses(data))
  {
  }

  /** A valid notification for an unknown email creates exactly one record,
      carrying the notification's id, its name (or '') and the chosen email. */
  lemma CreateAddsOneRecord(data: UserData, store: Store, rt: Runtime)
    requires rt.clientInitialized && rt.upsertFault.None?
    requires Truthy(data.id) && Truthy(PrimaryEmail(data))
    requires PrimaryEmail(data).value !in store && !IdTaken(store, data.id.value)
    ensures var email := PrimaryEmail(data).value;
      var o := Handle(Parsed(Some(data)), store, rt);
      && o.response == Ok(User(data.id.value, DisplayName(data), email))
      && o.store == store[email := Row(data.id.value, DisplayName(data))]
      && |o.store| == |store| + 1
  {
  }

  /** A valid notification for a known email changes only that record's
      name: its id stays even when the notification carries another id, and
      every other record is untouched. */
  lemma UpdateChangesOnlyName(data: UserData, store: Store, rt: Runtime)
    requires rt.clientInitialized && rt.upsertFault.None?
    requires Truthy(data.id) && Truthy(PrimaryEmail(data))
    requires PrimaryEmail(data).value in store
    ensures var email := PrimaryEmail(data).value;
      var o := Handle(Parsed(Some(data)), store, rt);
      && o.response == Ok(User(store[email].id, DisplayName(data), email))
      && o.store == store[email := Row(store[email].id, DisplayName(data))]
      && |o.store| == |store|
  {
  }

  /** The store never shrinks and grows by at most one record per call. */
  lemma StoreGrowsByAtMostOne(req: Request, store: Store, rt: Runtime)
    ensures store.Keys <= Handle(req, store, rt).store.Keys
    ensures |store| <= |Handle(req, store, rt).store| <= |store| + 1
  {
  }

  /** Replaying a notification is harmless: the second call answers as the
      first did and leaves the store as the first left it. */
  lemma HandleIdempotent(req: Request, store: Store, rt: Runtime)
    ensures var o := Handle(req, store, rt);
      Handle(req, o.store, rt) == o
  {
  }

  /** The handler keeps the primary-key constraint: a create whose id is
      already taken is refused instead of stored. */
  lemma HandlePreservesValidStore(req: Request, store: Store, rt: Runtime)
    requires ValidStore(store)
    ensures ValidStore(Handle(req, store, rt).store)
  {
  }

  /** Email, not id, is the reconciliation key: two notifications with
      different ids but the same primary email leave one record, and it keeps
      the id of the first. */
  lemma SameEmailCollapses(d1: UserData, d2: UserData, store: Store, rt: Runtime)
    requires rt.clientInitialized && rt.upsertFault.None?
    requires Truthy(d1.id) && Truthy(d2.id) && d1.id != d2.id
    requires Truthy(PrimaryEmail(d1)) && PrimaryEmail(d1) == PrimaryEmail(d2)
    requires PrimaryEmail(d1).value !in store && !IdTaken(store, d1.id.value)
    ensures var email := PrimaryEmail(d1).value;
      var o1 := Handle(Parsed(Some(d1)), store, rt);
      var o2 := Handle(Parsed(Some(d2)), o1.store, rt);
      && o2.response == Ok(User(d1.id.value, DisplayName(d2), email))
      && o2.store.Keys == store.Keys + {email}
  {
  }

  /** A failed upsert is a 500 whose details carry the thrown message
      exactly when the process runs in development, and nothing is written. */
  lemma UpsertFaultIsServerError(data: UserData, store: Store, rt: Runtime, message: string)
    requires rt.clientInitialized && rt.upsertFault == Some(message)
    requires Truthy(data.id) && Truthy(PrimaryEmail(data))
    ensures var o := Handle(Parsed(Some(data)), store, rt);
      && o.store == store
      && o.response.Status() == 500
      && o.response.ErrorText() == Some(InternalError)
      && o.response.details == (if rt.isDevelopment then Some(message) else None)
  {
  }

  /** An uninitialised database client fails every request with a 500,
      before the body is looked at. */
  lemma UninitializedClientFailsFirst(req: Request, store: Store, rt: Runtime)
    requires !rt.clientInitialized
    ensures var o := Handle(req, store, rt);
      && o.store == store
      && o.response.Status() == 500
      && o.response.details == (if rt.isDevelopment then Some(ClientNotInitialized) else None)
  {
  }

  /** A user whose primary email changes keeps the same id, so the new email
      looks unknown and the create reuses a primary key: the database refuses
      it, the answer is a 500, and the record under the old email stays as is. */
  lemma PrimaryEmailChangeConflicts(data: UserData, store: Store, rt: Runtime, oldEmail: string)
    requires rt.clientInitialized && rt.upsertFault.None?
    requires Truthy(data.id) && Truthy(PrimaryEmail(data))
    requires PrimaryEmail(data).value !in store
    requires oldEmail in store && store[oldEmail].id == data.id.value
    ensures Handle(Parsed(Some(data)), store, rt) == Outcome(Failure(rt.idConflictMessage, rt), store)
  {
  }
}
