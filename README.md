# Pterodactyl Terraform provider: data-source reads and provider configuration

This project models the decision logic of the Terraform provider for the
Pterodactyl game-server panel.

- The single-record data sources `pterodactyl_node`, `pterodactyl_location`
  and `pterodactyl_user` pick one lookup attribute in a fixed priority order.
  They either fetch the record by id or scan a client listing for the first
  exact match, and then write the record to state.
- The list data sources `pterodactyl_nodes` and `pterodactyl_nodes_location`
  filter the node listing by location, keep listing order, and project each
  node into a state entry.
- The provider's `Configure` rejects unknown values, resolves host and API key
  from the environment and the configuration, rejects empty values, and only
  then creates the API client. `DataSources` and `Resources` are the
  registration lists.

Modelling choices:

- A Terraform attribute value is `Value<T>`: `Null`, `Unknown` or `Known(v)`.
  `ValueOr(zero)` is `ValueString()` / `ValueInt32()`, which give the zero
  value for null and unknown. The zero value of a framework value type is
  `Null`. So an attribute the code never assigns stays null.
- A client call's Go `(T, error)` pair is a `Reply<T>`. Fetch-by-id calls are
  function parameters, and a listing is a single `Reply` value. Every read
  returns the trace of the calls it made, so "no client call" is stated
  outright.
- The diagnostics from decoding the configuration are the parameter
  `configDiags`. A read's `state` result is `None` when Read returns before
  setting state.
- The fixed guidance texts of the provider's diagnostics are kept in module
  `Guidance` with their exact wording. A diagnostic refers to one by its topic.
- The provider reports the empty-API-key error on the path `apiKey`. The
  schema attribute is `api_key`. The model keeps the path as written.
- Both list data sources filter on the `location_id` of a state they never
  load from the configuration, so they always filter on 0. The as-written
  reads are `NodesDataSource.Read` and `NodesLocationDataSource.Read`. The
  reads with the configuration loaded are `ReadConfigured` (see Findings).
  `FilterSelectsLocation` and `KeepsExactlyLocation` prove that the filter
  `ReadConfigured` applies keeps exactly the nodes of the configured location.

## Model

| member | source | states |
|---|---|---|
| Framework.HasErrorAppend | internal/provider/node_data_source.go:189-195 | appending error diagnostics makes HasError true exactly when something was appended or an error was already there |
| Listing.FirstIndex | internal/provider/node_data_source.go:208-213 | the index found is in range and matches; no earlier element matches; none is found exactly when no element matches |
| Listing.FirstOrAt | internal/provider/node_data_source.go:208-213 | a scan that breaks on the first match settles on that element, whatever matches come later |
| Listing.FirstOrMissing | internal/provider/node_data_source.go:184-213 | when nothing matches, the scanned variable keeps its initial value |
| Listing.Filter | internal/provider/nodes_data_source.go:187-191 | the kept elements all satisfy the filter and are never more than the input |
| Listing.FilterIsSubsequence | internal/provider/nodes_data_source.go:187-191 | filtering keeps relative order: the result is a subsequence of the input |
| Listing.FilterMembership | internal/provider/nodes_data_source.go:187-191 | an element is kept exactly when it is in the input and satisfies the filter |
| Listing.FilterAppend | internal/provider/nodes_location_data_source.go:152-156 | filtering a concatenation is the concatenation of the filtered parts |
| Listing.FilterAll | internal/provider/nodes_data_source.go:180-191 | when every element passes, nothing is dropped |
| Listing.FilterNone | internal/provider/nodes_location_data_source.go:152-156 | when no element passes, nothing is kept |
| NodeDataSource.ToState | internal/provider/node_data_source.go:241-262 | every attribute is known and reads back as the node's field, DaemonBase included |
| NodeDataSource.ToStateInjective | internal/provider/node_data_source.go:241-262 | two nodes give the same state exactly when they are equal, so no field is lost |
| NodeDataSource.Read | internal/provider/node_data_source.go:173-262 | a config error stops the read; a non-null id is fetched by id and the listing is not consulted; uuid is used only when id is null, and name only when both are null, each taking the first exact match or the zero node; a client error adds "Unable to Read Pterodactyl Node" and leaves state unset; no key gives "Missing Attribute" with no call; state is set exactly when no error was reported |
| NodeDataSource.UuidLookupTakesFirst | internal/provider/node_data_source.go:196-213 | the uuid lookup yields the first listed node with that exact uuid |
| NodeDataSource.DuplicateNameTakesFirst | internal/provider/node_data_source.go:214-231 | of two listed nodes with the same name, the earlier one is read |
| NodeDataSource.NotFoundIsZeroNode | internal/provider/node_data_source.go:184-262 | with no match the zero node is read: ID 0, empty uuid and the zero time |
| LocationDataSource.ToState | internal/provider/location_data_source.go:165-171 | every attribute is known and reads back as the location's field |
| LocationDataSource.Scan | internal/provider/location_data_source.go:133-139 | the loop with continue and break yields the first matching location, or the zero location |
| LocationDataSource.Read | internal/provider/location_data_source.go:102-171 | a config error stops the read; a non-null id is fetched by id and a fetch error ends the read; short is used only when id is null, and long only when both are null; a listing error is reported but the scan's location is still written to state; no key gives "Missing Attribute" with no call; an unset state always comes with an error |
| LocationDataSource.FailedListingStillSetsState | internal/provider/location_data_source.go:124-139 | after a failed listing, the diagnostics hold an error and state is set anyway |
| LocationDataSource.NotFoundIsZeroLocation | internal/provider/location_data_source.go:112-171 | with no match and no listing error, state gets ID 0, empty short and long, the zero time, and no diagnostic |
| UserDataSource.ToState | internal/provider/user_data_source.go:187-200 | every attribute is known and reads back as the user's field |
| UserDataSource.Dispatch | internal/provider/user_data_source.go:162-176 | a non-null id always selects the lookup by id; username only when id is null; email only when id and username are null; external_id only when the other three are null; each chosen lookup carries the configured value of its attribute; no lookup exactly when all four are null |
| UserDataSource.DispatchIsFirstCandidate | internal/provider/user_data_source.go:162-170 | the if/else-if chain equals the first present lookup in priority order |
| UserDataSource.Read | internal/provider/user_data_source.go:149-200 | a config error stops the read; exactly the dispatched lookup is called; a lookup error adds "Unable to Read Pterodactyl User" and leaves state unset; success writes the returned user; no key gives "Missing Attribute" with no call; state is set exactly when no error was reported |
| NodesDataSource.Entries | internal/provider/nodes_data_source.go:191-212 | one entry per node, in order, each carrying every field of its node |
| NodesDataSource.Fill | internal/provider/nodes_data_source.go:170-213 | a listing error adds "Unable to Read Pterodactyl Nodes" and leaves state unset; otherwise the list holds the entries of the nodes passing the location filter, in listing order |
| NodesDataSource.Read | internal/provider/nodes_data_source.go:167-213 | as written: every listed node is returned, in order, with location_id null; an empty listing gives an empty, non-null list; a listing error leaves state unset |
| NodesDataSource.ReadConfigured | internal/provider/nodes_data_source.go:170-213 | with the configuration loaded first, the configured location_id filters the nodes, and a config error stops the read before any call |
| NodesDataSource.ZeroFilterKeepsAll | internal/provider/nodes_data_source.go:180-191 | with filter 0 every listed node is returned, in order |
| NodesDataSource.FilterSelectsLocation | internal/provider/nodes_data_source.go:187-190 | with a non-zero filter exactly the nodes of that location are kept, in listing order, never more than were listed |
| NodesDataSource.AsWrittenIgnoresLocation | internal/provider/nodes_data_source.go:168-190 | the filter the as-written read uses keeps a node of location 1, which a filter on location 2 drops |
| NodesLocationDataSource.Entry | internal/provider/nodes_location_data_source.go:156-176 | the entry is the node's full state with daemon_base null; it reads back as the node with an empty DaemonBase |
| NodesLocationDataSource.Append | internal/provider/nodes_location_data_source.go:156 | Go's `append` on a nil list gives a one-element list; on an existing list it adds the entry at the end, one longer |
| NodesLocationDataSource.Entries | internal/provider/nodes_location_data_source.go:152-177 | one entry per node, in order |
| NodesLocationDataSource.Fill | internal/provider/nodes_location_data_source.go:142-177 | a listing error adds "Unable to Read Pterodactyl Nodes" and leaves state unset; otherwise the entries of the nodes in the state's location are appended, in order, and the list stays as it was when nothing matches |
| NodesLocationDataSource.Read | internal/provider/nodes_location_data_source.go:139-177 | as written: only nodes of location 0 are returned; with none, nodes is null |
| NodesLocationDataSource.ReadConfigured | internal/provider/nodes_location_data_source.go:142-177 | with the configuration loaded first, the configured location_id is compared against, and a config error stops the read before any call |
| NodesLocationDataSource.KeepsExactlyLocation | internal/provider/nodes_location_data_source.go:152-156 | exactly the nodes of the location are kept, in listing order |
| NodesLocationDataSource.EntriesLackDaemonBase | internal/provider/nodes_location_data_source.go:156-176 | no entry carries a daemon_base |
| NodesLocationDataSource.NoMatchLeavesNull | internal/provider/nodes_location_data_source.go:140-156 | with no node in the location the list stays null |
| NodesLocationDataSource.AsWrittenComparesAgainstZero | internal/provider/nodes_location_data_source.go:140-153 | the as-written comparison drops a node of location 5 and keeps one of location 0; a comparison against 5 does the opposite |
| Provider.Resolve | internal/provider/provider.go:107-116 | a known configured value overrides the environment's; a null one leaves the environment's |
| Provider.Configure | internal/provider/provider.go:68-169 | a config error stops everything; unknown host and API key each add an attribute error, both in one call, before the environment is read; environment values are the defaults and non-null config values override them; an empty host or API key adds its error, both in one call, and no client is created; a client error adds "Unable to Create Pterodactyl API Client"; the same client goes to data sources and resources, exactly when no error was reported |
| Provider.DataSources | internal/provider/provider.go:171-177 | only the users and user data sources are registered |
| Provider.Resources | internal/provider/provider.go:179-184 | only the user resource is registered |
| Provider.ModelledDataSourcesUnregistered | internal/provider/provider.go:171-184 | the node, nodes, nodes_location and location data sources and the node and location resources are not registered |

## Left out

- Diagnostics are appended without the framework's duplicate check: `Diagnostics.Append`, and with it `AddError` and `AddAttributeError`, skips a diagnostic equal to one already present, while the model appends every diagnostic. The two agree whenever the decoding diagnostics are distinct from each other and from those a read or Configure adds. `HasError` is the same either way.
- Setting state with `resp.State.Set` is taken to succeed. Its diagnostics are not modelled.
- The data sources' own `Configure` type assertions on `ProviderData`, their `Metadata` and `Schema`, and the schema validators are not modelled. They are framework glue.
- Logging through `tflog`, including the API-key masking, is left out. It has no effect on the outcome.
- `os.Getenv` is modelled as a lookup in an environment map. A variable that is not set reads as "".
- The HTTP client is left out. Each client call's answer is an input. `pterodactyl.NewClient` is the parameter `newClient`.
- Timestamps are kept as their RFC 3339 text. The zero time is "0001-01-01T00:00:00Z". Go's time formatting is not modelled.
- Go's `int` is taken to be 64 bits, so the user id's conversions `int(int64)` and `int64(int)` change nothing.
- Unknown configuration values in the data sources are read like known ones through `ValueOr`. The framework does not send unknown values to a data source Read.
- The capacity hint in `make([]Node, 0, len(nodes))` is left out. It does not change the list.
- The resources (node, location, user), and the users and node_allocations data sources, are not part of this model. They copy fields around opaque client calls.
- To keep the proofs small, the fixed guidance texts sit in their own module and diagnostics refer to them by topic. `Detail.Render` gives the full text.

## Findings

| source | as written | input that shows it | evidently intended | confidence | as-written member | corrected member |
|---|---|---|---|---|---|---|
| internal/provider/nodes_data_source.go:168 | Read starts from a zero-valued state and never decodes the configuration into it, so `state.LocationID.ValueInt32()` is always 0 and every node is returned | location_id = 2 requested; the listing holds a node in location 1; that node is returned | the configured location_id filters the nodes | high, not executed | NodesDataSource.AsWrittenIgnoresLocation | NodesDataSource.ReadConfigured |
| internal/provider/nodes_location_data_source.go:140 | Read never decodes the configuration, so it compares each node's location against 0 | location_id = 5 requested; nodes in locations 5 and 0; only the location-0 node is returned | exactly the nodes of the configured location are returned | high, not executed | NodesLocationDataSource.AsWrittenComparesAgainstZero | NodesLocationDataSource.ReadConfigured |
