/**
 The `pterodactyl_location` data source: Read picks one lookup attribute in
 the order id, short, long. A failed fetch by id ends the read; a failed
 listing is reported but the read goes on, scanning whatever list came back
 and writing the (possibly zero) location to state.
 */
module LocationDataSource {
  import opened Wrappers
  import opened Framework
  import opened Client
  import Listing

  /** locationDataSourceModel */
  datatype LocationAttrs = LocationAttrs(
    id: Value<int32>, short: Value<string>, long: Value<string>,
    createdAt: Value<string>, updatedAt: Value<string>)

  /** "Map response body to model": every attribute is known and carries the location's field. */
  function ToState(l: Location): (s: LocationAttrs)
    ensures s.id.Known? && s.short.Known? && s.long.Known? && s.createdAt.Known? && s.updatedAt.Known?
    ensures LocationOf(s) == l
  {
    LocationAttrs(Known(l.id), Known(l.short), Known(l.long), Known(l.createdAt), Known(l.updatedAt))
  }

  /** The location the attribute values describe, reading null or unknown as the zero value. */
  function LocationOf(s: LocationAttrs): Location {
    Location(s.id.ValueOr(0), s.short.ValueOr(""), s.long.ValueOr(""), s.createdAt.ValueOr(""), s.updatedAt.ValueOr(""))
  }

  function ReadFailed(err: string): Diagnostic {
    Error("Unable to Read Pterodactyl Location", err)
  }

  function ListingFailed(err: string): Diagnostic {
    Error("Unable to Read Pterodactyl Locations", err)
  }

  const MissingAttribute := Error("Missing Attribute", "One of 'id', 'short' or 'long' must be specified.")

  function HasShort(short: string): Location -> bool { (l: Location) => l.short == short }
  function HasLong(long: string): Location -> bool { (l: Location) => l.long == long }

  /** What a listing branch adds to the diagnostics: its error, if the listing failed. */
  function ListingErrors(listing: Reply<seq<Location>>): (ds: seq<Diagnostic>)
    ensures listing.err.None? <==> ds == []
    ensures listing.err.Some? ==> ds == [ListingFailed(listing.err.value)]
  {
    if listing.err.Some? then [ListingFailed(listing.err.value)] else []
  }

  /** The outcome of a listing branch: the error (if any) is added and the scan's location is written to state regardless. */
  ghost predicate ListingOutcome(configDiags: seq<Diagnostic>, listing: Reply<seq<Location>>, p: Location -> bool,
                                 diags: seq<Diagnostic>, state: Option<LocationAttrs>)
  {
    && diags == configDiags + ListingErrors(listing)
    && state == Some(ToState(Listing.FirstOr(listing.value, p, ZeroLocation)))
  }

  /**
   The scan both listing branches run: the first location `p` accepts, or the
   zero location when none does.
   */
  method Scan(locations: seq<Location>, p: Location -> bool) returns (location: Location)
    ensures location == Listing.FirstOr(locations, p, ZeroLocation)
  {
    location := ZeroLocation;
    var i := 0;
    while i < |locations|
      invariant 0 <= i <= |locations|
      invariant forall j :: 0 <= j < i ==> !p(locations[j])
    {
      if !p(locations[i]) {
        i := i + 1;
        continue;
      }
      Listing.FirstOrAt(locations, p, ZeroLocation, i);
      location := locations[i];
      break;
    }
  }

  /**
   locationDataSource.Read. `configDiags` are the diagnostics of decoding the
   configuration into `config`; `getLocation` and `getLocations` answer the
   client calls; `state` is None when Read returns before setting state.
   */
  method Read(configDiags: seq<Diagnostic>, config: LocationAttrs,
              getLocation: int32 -> Reply<Location>, getLocations: Reply<seq<Location>>)
    returns (diags: seq<Diagnostic>, state: Option<LocationAttrs>, calls: seq<Call>)
    ensures HasError(configDiags) ==> diags == configDiags && state == None && calls == []
    // a non-null id is fetched by id; a failed fetch ends the read
    ensures !HasError(configDiags) && !config.id.IsNull() ==>
      var id := config.id.ValueOr(0);
      && calls == [GetLocation(id)]
      && (getLocation(id).err.Some? ==> diags == configDiags + [ReadFailed(getLocation(id).err.value)] && state == None)
      && (getLocation(id).err.None? ==> diags == configDiags && state == Some(ToState(getLocation(id).value)))
    // short only when id is null
    ensures !HasError(configDiags) && config.id.IsNull() && !config.short.IsNull() ==>
      && calls == [GetLocations]
      && ListingOutcome(configDiags, getLocations, HasShort(config.short.ValueOr("")), diags, state)
    // long only when id and short are both null
    ensures !HasError(configDiags) && config.id.IsNull() && config.short.IsNull() && !config.long.IsNull() ==>
      && calls == [GetLocations]
      && ListingOutcome(configDiags, getLocations, HasLong(config.long.ValueOr("")), diags, state)
    ensures !HasError(configDiags) && config.id.IsNull() && config.short.IsNull() && config.long.IsNull() ==>
      diags == configDiags + [MissingAttribute] && state == None && calls == []
    // an unset state always comes with an error; a set state may come with one (a failed listing)
    ensures state.None? ==> HasError(diags)
  {
    diags, state, calls := configDiags, None, [];
    if HasError(diags) {
      return;
    }
    var location := ZeroLocation;
    if !config.id.IsNull() {
      var id := config.id.ValueOr(0);
      var reply := getLocation(id);
      calls := calls + [GetLocation(id)];
      if reply.err.Some? {
        diags := diags + [ReadFailed(reply.err.value)];
        HasErrorAppend(configDiags, [ReadFailed(reply.err.value)]);
        return;
      }
      location := reply.value;
    } else if !config.short.IsNull() {
      var reply := getLocations;
      calls := calls + [GetLocations];
      if reply.err.Some? {
        diags := diags + [ListingFailed(reply.err.value)];
      }
      location := Scan(reply.value, HasShort(config.short.ValueOr("")));
    } else if !config.long.IsNull() {
      var reply := getLocations;
      calls := calls + [GetLocations];
      if reply.err.Some? {
        diags := diags + [ListingFailed(reply.err.value)];
      }
      location := Scan(reply.value, HasLong(config.long.ValueOr("")));
    } else {
      diags := diags + [MissingAttribute];
      HasErrorAppend(configDiags, [MissingAttribute]);
      return;
    }
    state := Some(ToState(location));
  }

  /** With a failed listing the read still writes state, next to the reported error. */
  lemma FailedListingStillSetsState(configDiags: seq<Diagnostic>, listing: Reply<seq<Location>>, p: Location -> bool,
                                    diags: seq<Diagnostic>, state: Option<LocationAttrs>)
    requires listing.err.Some?
    requires ListingOutcome(configDiags, listing, p, diags, state)
    ensures HasError(diags) && state.Some?
  {
    HasErrorAppend(configDiags, ListingErrors(listing));
  }

  /** A location absent from the listing reads as ID 0 with empty short and long names, and no error. */
  lemma NotFoundIsZeroLocation(configDiags: seq<Diagnostic>, listing: Reply<seq<Location>>, p: Location -> bool,
                               diags: seq<Diagnostic>, state: Option<LocationAttrs>)
    requires listing.err.None?
    requires forall j :: 0 <= j < |listing.value| ==> !p(listing.value[j])
    requires ListingOutcome(configDiags, listing, p, diags, state)
    ensures diags == configDiags
    ensures state == Some(LocationAttrs(Known(0), Known(""), Known(""), Known(ZeroTime), Known(ZeroTime)))
  {
    Listing.FirstOrMissing(listing.value, p, ZeroLocation);
  }
}
