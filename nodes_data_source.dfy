/**
 The `pterodactyl_nodes` data source: Read lists all nodes and keeps those in
 the state's location (0 meaning every location), in listing order, each
 written with all of its fields.

 Read never decodes the configuration into its state, so the location it
 filters on is that of a zero-valued state: null, read as 0. ReadConfigured is
 the read with the configuration loaded first.
 */
module NodesDataSource {
  import opened Wrappers
  import opened Framework
  import opened Client
  import Listing
  import opened NodeDataSource

  /** nodesDataSourceModel */
  datatype NodesAttrs = NodesAttrs(locationId: Value<int32>, nodes: Value<seq<NodeAttrs>>)

  /** `var state nodesDataSourceModel` */
  const ZeroState := NodesAttrs(Null, Null)

  function ReadFailed(err: string): Diagnostic {
    Error("Unable to Read Pterodactyl Nodes", err)
  }

  /** The loop's filter: a node is kept when the filter is 0 or the node is in that location. */
  function Keep(location: int32): Node -> bool {
    (n: Node) => location == 0 || n.locationId == location
  }

  /** The state entries of `ns`, one per node, in order. */
  function Entries(ns: seq<Node>): (r: seq<NodeAttrs>)
    ensures |r| == |ns|
    ensures forall k :: 0 <= k < |ns| ==> r[k] == ToState(ns[k])
    decreases |ns|
  {
    if ns == [] then [] else Entries(ns[..|ns| - 1]) + [ToState(ns[|ns| - 1])]
  }

  /** Appending a node appends its entry. */
  lemma EntriesSnoc(ns: seq<Node>, n: Node)
    ensures Entries(ns + [n]) == Entries(ns) + [ToState(n)]
  {
    assert (ns + [n])[..|ns|] == ns;
  }

  /** One more step of the loop: the filtered prefix grows by the next node or not at all. */
  lemma FilterStep(nodes: seq<Node>, i: nat, p: Node -> bool)
    requires i < |nodes|
    ensures Entries(Listing.Filter(nodes[..i + 1], p)) ==
      Entries(Listing.Filter(nodes[..i], p)) + (if p(nodes[i]) then [ToState(nodes[i])] else [])
  {
    assert nodes[..i + 1][..i] == nodes[..i];
    if p(nodes[i]) {
      EntriesSnoc(Listing.Filter(nodes[..i], p), nodes[i]);
    } else {
      assert Listing.Filter(nodes[..i + 1], p) == Listing.Filter(nodes[..i], p);
    }
  }

  /**
   The part of Read after `state` is initialised: list the nodes, then append
   an entry for every node that passes the filter of `state0.locationId`.
   */
  method Fill(state0: NodesAttrs, getNodes: Reply<seq<Node>>)
    returns (diags: seq<Diagnostic>, state: Option<NodesAttrs>, calls: seq<Call>)
    ensures calls == [GetNodes]
    ensures getNodes.err.Some? ==> diags == [ReadFailed(getNodes.err.value)] && state == None
    ensures getNodes.err.None? ==>
      && diags == []
      && state == Some(state0.(nodes := Known(Entries(Listing.Filter(getNodes.value, Keep(state0.locationId.ValueOr(0)))))))
  {
    diags, state, calls := [], None, [GetNodes];
    if getNodes.err.Some? {
      diags := diags + [ReadFailed(getNodes.err.value)];
      return;
    }
    var nodes := getNodes.value;
    var location := state0.locationId.ValueOr(0);
    var entries: seq<NodeAttrs> := [];
    var i := 0;
    while i < |nodes|
      invariant 0 <= i <= |nodes|
      invariant entries == Entries(Listing.Filter(nodes[..i], Keep(location)))
    {
      FilterStep(nodes, i, Keep(location));
      if location != 0 && nodes[i].locationId != location {
        i := i + 1;
        continue;
      }
      entries := entries + [ToState(nodes[i])];
      i := i + 1;
    }
    assert nodes[..|nodes|] == nodes;
    state := Some(state0.(nodes := Known(entries)));
  }

  /**
   nodesDataSource.Read as written: no configuration is read, so every listed
   node is returned, in listing order, and location_id stays null.
   */
  method Read(getNodes: Reply<seq<Node>>)
    returns (diags: seq<Diagnostic>, state: Option<NodesAttrs>, calls: seq<Call>)
    ensures calls == [GetNodes]
    ensures getNodes.err.Some? ==> diags == [ReadFailed(getNodes.err.value)] && state == None
    ensures getNodes.err.None? ==> diags == [] && state == Some(NodesAttrs(Null, Known(Entries(getNodes.value))))
    // an empty listing gives an empty list, not a null one
    ensures getNodes == Reply([], None) ==> state == Some(NodesAttrs(Null, Known([])))
  {
    diags, state, calls := Fill(ZeroState, getNodes);
    if getNodes.err.None? {
      Listing.FilterAll(getNodes.value, Keep(0));
    }
  }

  /**
   The read with the configuration decoded into the state first (as the
   single-record data sources do): the configured location_id filters.
   */
  method ReadConfigured(configDiags: seq<Diagnostic>, config: NodesAttrs, getNodes: Reply<seq<Node>>)
    returns (diags: seq<Diagnostic>, state: Option<NodesAttrs>, calls: seq<Call>)
    ensures HasError(configDiags) ==> diags == configDiags && state == None && calls == []
    ensures !HasError(configDiags) ==> calls == [GetNodes]
    ensures !HasError(configDiags) && getNodes.err.Some? ==>
      diags == configDiags + [ReadFailed(getNodes.err.value)] && state == None
    ensures !HasError(configDiags) && getNodes.err.None? ==>
      && diags == configDiags
      && state == Some(NodesAttrs(config.locationId,
                               Known(Entries(Listing.Filter(getNodes.value, Keep(config.locationId.ValueOr(0)))))))
  {
    if HasError(configDiags) {
      return configDiags, None, [];
    }
    var fillDiags;
    fillDiags, state, calls := Fill(config, getNodes);
    diags := configDiags + fillDiags;
  }

  /** With filter 0 every listed node is kept, in order. */
  lemma ZeroFilterKeepsAll(nodes: seq<Node>)
    ensures Entries(Listing.Filter(nodes, Keep(0))) == Entries(nodes)
  {
    Listing.FilterAll(nodes, Keep(0));
  }

  /**
   With a non-zero filter exactly the nodes of that location are kept, in
   their listing order, and never more than were listed.
   */
  lemma FilterSelectsLocation(nodes: seq<Node>, location: int32)
    requires location != 0
    ensures forall n :: n in Listing.Filter(nodes, Keep(location)) <==> n in nodes && n.locationId == location
    ensures Listing.IsSubsequence(Listing.Filter(nodes, Keep(location)), nodes)
    ensures |Entries(Listing.Filter(nodes, Keep(location)))| <= |nodes|
  {
    forall n ensures n in Listing.Filter(nodes, Keep(location)) <==> n in nodes && n.locationId == location {
      Listing.FilterMembership(nodes, Keep(location), n);
    }
    Listing.FilterIsSubsequence(nodes, Keep(location));
  }

  /**
   The as-written read ignores the requested location: with location_id = 2
   requested, a node in location 1 appears in its output, while the
   configured read leaves it out.
   */
  lemma AsWrittenIgnoresLocation(n: Node)
    requires n.locationId == 1
    ensures ToState(n) in Entries(Listing.Filter([n], Keep(ZeroState.locationId.ValueOr(0))))
    ensures Entries(Listing.Filter([n], Keep(2))) == []
  {
    Listing.FilterAll([n], Keep(0));
    Listing.FilterNone([n], Keep(2));
  }
}
