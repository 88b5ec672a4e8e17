/**
 The `pterodactyl_user` data source: Read chooses one client lookup from the
 first non-null attribute in the order id, username, email, external_id, makes
 that one call, and writes the returned user to state.
 */
module UserDataSource {
  import opened Wrappers
  import opened Framework
  import opened Client
  import Listing

  /** userDataSourceModel */
  datatype UserAttrs = UserAttrs(
    id: Value<int64>, externalId: Value<string>, uuid: Value<string>, username: Value<string>,
    email: Value<string>, firstName: Value<string>, lastName: Value<string>, language: Value<string>,
    rootAdmin: Value<bool>, is2fa: Value<bool>, createdAt: Value<string>, updatedAt: Value<string>)

  /** The user the attribute values describe, reading null or unknown as the zero value. */
  function UserOf(s: UserAttrs): User {
    User(s.id.ValueOr(0), s.externalId.ValueOr(""), s.uuid.ValueOr(""), s.username.ValueOr(""),
         s.email.ValueOr(""), s.firstName.ValueOr(""), s.lastName.ValueOr(""), s.language.ValueOr(""),
         s.rootAdmin.ValueOr(false), s.is2fa.ValueOr(false), s.createdAt.ValueOr(""), s.updatedAt.ValueOr(""))
  }

  predicate AllKnown(s: UserAttrs) {
    && s.id.Known? && s.externalId.Known? && s.uuid.Known? && s.username.Known? && s.email.Known?
    && s.firstName.Known? && s.lastName.Known? && s.language.Known? && s.rootAdmin.Known?
    && s.is2fa.Known? && s.createdAt.Known? && s.updatedAt.Known?
  }

  /** "Map response body to model": every attribute is known and carries the user's field. */
  function ToState(u: User): (s: UserAttrs)
    ensures AllKnown(s)
    ensures UserOf(s) == u
  {
    UserAttrs(Known(u.id), Known(u.externalId), Known(u.uuid), Known(u.username), Known(u.email),
              Known(u.firstName), Known(u.lastName), Known(u.language), Known(u.rootAdmin),
              Known(u.is2fa), Known(u.createdAt), Known(u.updatedAt))
  }

  function ReadFailed(err: string): Diagnostic {
    Error("Unable to Read Pterodactyl User", err)
  }

  /** The message names id, username and email only, although external_id is accepted too. */
  const MissingAttribute := Error("Missing Attribute", "One of 'id', 'username', or 'email' must be specified.")

  /** The lookups in priority order, each present when its attribute is not null. */
  function Candidates(config: UserAttrs): (cs: seq<Option<Call>>)
    ensures |cs| == 4
  {
    [ if config.id.IsNull() then None else Some(GetUser(config.id.ValueOr(0))),
      if config.username.IsNull() then None else Some(GetUserUsername(config.username.ValueOr(""))),
      if config.email.IsNull() then None else Some(GetUserEmail(config.email.ValueOr(""))),
      if config.externalId.IsNull() then None else Some(GetUserExternalID(config.externalId.ValueOr(""))) ]
  }

  /** The if / else-if chain of Read: which client lookup it makes, if any. */
  function Dispatch(config: UserAttrs): (call: Option<Call>)
    // id always wins, whatever other keys are set
    ensures !config.id.IsNull() ==> call == Some(GetUser(config.id.ValueOr(0)))
    ensures (call.Some? && call.value.GetUserUsername?) <==> config.id.IsNull() && !config.username.IsNull()
    ensures config.id.IsNull() && !config.username.IsNull() ==>
      call == Some(GetUserUsername(config.username.ValueOr("")))
    ensures (call.Some? && call.value.GetUserEmail?) <==>
      config.id.IsNull() && config.username.IsNull() && !config.email.IsNull()
    ensures config.id.IsNull() && config.username.IsNull() && !config.email.IsNull() ==>
      call == Some(GetUserEmail(config.email.ValueOr("")))
    ensures (call.Some? && call.value.GetUserExternalID?) <==>
      config.id.IsNull() && config.username.IsNull() && config.email.IsNull() && !config.externalId.IsNull()
    ensures config.id.IsNull() && config.username.IsNull() && config.email.IsNull() && !config.externalId.IsNull() ==>
      call == Some(GetUserExternalID(config.externalId.ValueOr("")))
    ensures call.None? <==>
      config.id.IsNull() && config.username.IsNull() && config.email.IsNull() && config.externalId.IsNull()
    ensures call.Some? ==> call.value.GetUser? || call.value.GetUserUsername? || call.value.GetUserEmail? || call.value.GetUserExternalID?
  {
    if !config.id.IsNull() then Some(GetUser(config.id.ValueOr(0)))
    else if !config.username.IsNull() then Some(GetUserUsername(config.username.ValueOr("")))
    else if !config.email.IsNull() then Some(GetUserEmail(config.email.ValueOr("")))
    else if !config.externalId.IsNull() then Some(GetUserExternalID(config.externalId.ValueOr("")))
    else None
  }

  /** The chain agrees with "the first present candidate in priority order". */
  lemma DispatchIsFirstCandidate(config: UserAttrs)
    ensures var cs := Candidates(config);
      Dispatch(config) == Listing.FirstOr(cs, (c: Option<Call>) => c.Some?, None)
  {
    var cs := Candidates(config);
    var present := (c: Option<Call>) => c.Some?;
    if !config.id.IsNull() {
      Listing.FirstOrAt(cs, present, None, 0);
    } else if !config.username.IsNull() {
      Listing.FirstOrAt(cs, present, None, 1);
    } else if !config.email.IsNull() {
      Listing.FirstOrAt(cs, present, None, 2);
    } else if !config.externalId.IsNull() {
      Listing.FirstOrAt(cs, present, None, 3);
    } else {
      Listing.FirstOrMissing(cs, present, None);
    }
  }

  /**
   userDataSource.Read. `configDiags` are the diagnostics of decoding the
   configuration into `config`; `fetch` answers the user lookups; `state` is
   None when Read returns before setting state.
   */
  method Read(configDiags: seq<Diagnostic>, config: UserAttrs, fetch: Call -> Reply<User>)
    returns (diags: seq<Diagnostic>, state: Option<UserAttrs>, calls: seq<Call>)
    ensures HasError(configDiags) ==> diags == configDiags && state == None && calls == []
    ensures !HasError(configDiags) && Dispatch(config).None? ==>
      diags == configDiags + [MissingAttribute] && state == None && calls == []
    ensures !HasError(configDiags) && Dispatch(config).Some? ==>
      var call := Dispatch(config);
      && calls == [call.value]
      && (fetch(call.value).err.Some? ==> diags == configDiags + [ReadFailed(fetch(call.value).err.value)] && state == None)
      && (fetch(call.value).err.None? ==> diags == configDiags && state == Some(ToState(fetch(call.value).value)))
    // state is set exactly when no error was reported
    ensures state.Some? <==> !HasError(diags)
  {
    diags, state, calls := configDiags, None, [];
    if HasError(diags) {
      return;
    }
    var reply: Reply<User>;
    if !config.id.IsNull() {
      calls := [GetUser(config.id.ValueOr(0))];
      reply := fetch(GetUser(config.id.ValueOr(0)));
    } else if !config.username.IsNull() {
      calls := [GetUserUsername(config.username.ValueOr(""))];
      reply := fetch(GetUserUsername(config.username.ValueOr("")));
    } else if !config.email.IsNull() {
      calls := [GetUserEmail(config.email.ValueOr(""))];
      reply := fetch(GetUserEmail(config.email.ValueOr("")));
    } else if !config.externalId.IsNull() {
      calls := [GetUserExternalID(config.externalId.ValueOr(""))];
      reply := fetch(GetUserExternalID(config.externalId.ValueOr("")));
    } else {
      diags := diags + [MissingAttribute];
      HasErrorAppend(configDiags, [MissingAttribute]);
      return;
    }
    if reply.err.Some? {
      diags := diags + [ReadFailed(reply.err.value)];
      HasErrorAppend(configDiags, [ReadFailed(reply.err.value)]);
      return;
    }
    state := Some(ToState(reply.value));
  }
}
