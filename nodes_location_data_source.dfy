/**
 The `pterodactyl_nodes_location` data source: Read lists all nodes and
 appends an entry for each node whose location equals the state's
 location_id, in listing order. Entries leave daemon_base at its zero value
 (null), and when nothing matches the list is never allocated, so `nodes` is
 null rather than empty.

 Read never decodes the configuration into its state, so it compares against
 the location_id of a zero-valued state: null, read as 0. ReadConfigured is the
 read with the configuration loaded first.
 */
module NodesLocationDataSource {
  import opened Wrappers
  import opened Framework
  import opened Client
  import Listing
  import opened NodeDataSource

  /** nodesLocationDataSourceModel */
  datatype NodesLocationAttrs = NodesLocationAttrs(locationId: Value<int32>, nodes: Value<seq<NodeAttrs>>)

  /** `var state nodesLocationDataSourceModel` */
  const ZeroState := NodesLocationAttrs(Null, Null)

  function ReadFailed(err: string): Diagnostic {
    Error("Unable to Read Pterodactyl Nodes", err)
  }

  function InLocation(location: int32): Node -> bool {
    (n: Node) => n.locationId == location
  }

  /** The entry Read appends: every field of the node as in the node data source, except that daemon_base is not set. */
  function Entry(n: Node): (e: NodeAttrs)
    ensures e == ToState(n).(daemonBase := Null)
    ensures NodeOf(e) == n.(daemonBase := "")
  {
    NodeAttrs(Known(n.id), Known(n.uuid), Known(n.public), Known(n.name), Known(n.description),
              Known(n.locationId), Known(n.fqdn), Known(n.scheme), Known(n.behindProxy),
              Known(n.maintenanceMode), Known(n.memory), Known(n.memoryOverallocate), Known(n.disk),
              Known(n.diskOverallocate), Known(n.uploadSize), Known(n.daemonListen),
              Known(n.daemonSftp), Null, Known(n.createdAt), Known(n.updatedAt))
  }

  /** Go's `append` on a list attribute: a null (nil) list becomes a one-element list. */
  function Append(list: Value<seq<NodeAttrs>>, e: NodeAttrs): (r: Value<seq<NodeAttrs>>)
    ensures list.Null? ==> r == Known([e])
    ensures list.Known? ==> r == Known(list.v + [e])
    ensures r.Known? && |r.v| == |list.ValueOr([])| + 1 && r.v[|r.v| - 1] == e
  {
    if list.Known? then Known(list.v + [e]) else Known([e])
  }

  /** The entries of `ns`, one per node, in order. */
  function Entries(ns: seq<Node>): (r: seq<NodeAttrs>)
    ensures |r| == |ns|
    ensures forall k :: 0 <= k < |ns| ==> r[k] == Entry(ns[k])
    decreases |ns|
  {
    if ns == [] then [] else Entries(ns[..|ns| - 1]) + [Entry(ns[|ns| - 1])]
  }

  /** The list attribute after appending the entries of `matched` to `list`: untouched if nothing matched. */
  function AppendAll(list: Value<seq<NodeAttrs>>, matched: seq<Node>): Value<seq<NodeAttrs>> {
    if matched == [] then list else Known(list.ValueOr([]) + Entries(matched))
  }

  /** One more step of the loop: the list grows by the next node's entry or stays as it was. */
  lemma AppendStep(list: Value<seq<NodeAttrs>>, nodes: seq<Node>, i: nat, p: Node -> bool)
    requires i < |nodes|
    ensures AppendAll(list, Listing.Filter(nodes[..i + 1], p)) ==
      if p(nodes[i]) then Append(AppendAll(list, Listing.Filter(nodes[..i], p)), Entry(nodes[i]))
      else AppendAll(list, Listing.Filter(nodes[..i], p))
  {
    var before := Listing.Filter(nodes[..i], p);
    assert nodes[..i + 1][..i] == nodes[..i];
    if p(nodes[i]) {
      var after := before + [nodes[i]];
      assert Listing.Filter(nodes[..i + 1], p) == after;
      assert after[..|before|] == before;
      assert Entries(after) == Entries(before) + [Entry(nodes[i])];
      if before == [] {
        assert AppendAll(list, before) == list;
        assert Entries(after) == [Entry(nodes[i])];
        assert AppendAll(list, after) == Known(list.ValueOr([]) + [Entry(nodes[i])]);
      } else {
        assert list.ValueOr([]) + Entries(after) == (list.ValueOr([]) + Entries(before)) + [Entry(nodes[i])];
      }
    } else {
      assert Listing.Filter(nodes[..i + 1], p) == before;
    }
  }

  /**
   The part of Read after `state` is initialised: list the nodes, then append
   an entry for every node in location `state0.locationId`.
   */
  method Fill(state0: NodesLocationAttrs, getNodes: Reply<seq<Node>>)
    returns (diags: seq<Diagnostic>, state: Option<NodesLocationAttrs>, calls: seq<Call>)
    ensures calls == [GetNodes]
    ensures getNodes.err.Some? ==> diags == [ReadFailed(getNodes.err.value)] && state == None
    ensures getNodes.err.None? ==>
      && diags == []
      && state == Some(state0.(nodes := AppendAll(state0.nodes,
                          Listing.Filter(getNodes.value, InLocation(state0.locationId.ValueOr(0))))))
  {
    diags, state, calls := [], None, [GetNodes];
    if getNodes.err.Some? {
      diags := diags + [ReadFailed(getNodes.err.value)];
      return;
    }
    var nodes := getNodes.value;
    var location := state0.locationId.ValueOr(0);
    var list := state0.nodes;
    var i := 0;
    while i < |nodes|
      invariant 0 <= i <= |nodes|
      invariant list == AppendAll(state0.nodes, Listing.Filter(nodes[..i], InLocation(location)))
    {
      AppendStep(state0.nodes, nodes, i, InLocation(location));
      if nodes[i].locationId != location {
        i := i + 1;
        continue;
      }
      list := Append(list, Entry(nodes[i]));
      i := i + 1;
    }
    assert nodes[..|nodes|] == nodes;
    state := Some(state0.(nodes := list));
  }

  /**
   nodesLocationDataSource.Read as written: no configuration is read, so only
   nodes in location 0 are returned; with none, `nodes` stays null.
   */
  method Read(getNodes: Reply<seq<Node>>)
    returns (diags: seq<Diagnostic>, state: Option<NodesLocationAttrs>, calls: seq<Call>)
    ensures calls == [GetNodes]
    ensures getNodes.err.Some? ==> diags == [ReadFailed(getNodes.err.value)] && state == None
    ensures getNodes.err.None? ==>
      var matched := Listing.Filter(getNodes.value, InLocation(0));
      && diags == []
      && state == Some(NodesLocationAttrs(Null, if matched == [] then Null else Known(Entries(matched))))
  {
    diags, state, calls := Fill(ZeroState, getNodes);
    if getNodes.err.None? {
      var matched := Listing.Filter(getNodes.value, InLocation(0));
      assert [] + Entries(matched) == Entries(matched);
    }
  }

  /**
   The read with the configuration decoded into the state first: the
   configured location_id is compared against.
   */
  method ReadConfigured(configDiags: seq<Diagnostic>, config: NodesLocationAttrs, getNodes: Reply<seq<Node>>)
    returns (diags: seq<Diagnostic>, state: Option<NodesLocationAttrs>, calls: seq<Call>)
    ensures HasError(configDiags) ==> diags == configDiags && state == None && calls == []
    ensures !HasError(configDiags) ==> calls == [GetNodes]
    ensures !HasError(configDiags) && getNodes.err.Some? ==>
      diags == configDiags + [ReadFailed(getNodes.err.value)] && state == None
    ensures !HasError(configDiags) && getNodes.err.None? ==>
      && diags == configDiags
      && state == Some(config.(nodes := AppendAll(config.nodes,
                          Listing.Filter(getNodes.value, InLocation(config.locationId.ValueOr(0))))))
  {
    if HasError(configDiags) {
      return configDiags, None, [];
    }
    var fillDiags;
    fillDiags, state, calls := Fill(config, getNodes);
    diags := configDiags + fillDiags;
  }

  /** Exactly the nodes of the location are kept, in listing order. */
  lemma KeepsExactlyLocation(nodes: seq<Node>, location: int32)
    ensures forall n :: n in Listing.Filter(nodes, InLocation(location)) <==> n in nodes && n.locationId == location
    ensures Listing.IsSubsequence(Listing.Filter(nodes, InLocation(location)), nodes)
  {
    forall n ensures n in Listing.Filter(nodes, InLocation(location)) <==> n in nodes && n.locationId == location {
      Listing.FilterMembership(nodes, InLocation(location), n);
    }
    Listing.FilterIsSubsequence(nodes, InLocation(location));
  }

  /** No entry carries a daemon_base. */
  lemma EntriesLackDaemonBase(ns: seq<Node>)
    ensures forall e :: e in Entries(ns) ==> e.daemonBase.Null?
  {
  }

  /** With no node in the location the list stays null, unlike the `nodes` data source's empty list. */
  lemma NoMatchLeavesNull(nodes: seq<Node>, location: int32)
    requires forall k :: 0 <= k < |nodes| ==> nodes[k].locationId != location
    ensures AppendAll(Null, Listing.Filter(nodes, InLocation(location))) == Null
  {
    Listing.FilterNone(nodes, InLocation(location));
  }

  /**
   The as-written read ignores the requested location: a node in location 5
   is dropped even when location_id = 5 is requested, and a node in location 0
   is returned whatever is requested.
   */
  lemma AsWrittenComparesAgainstZero(n: Node, m: Node)
    requires n.locationId == 5 && m.locationId == 0
    ensures Listing.Filter([n, m], InLocation(ZeroState.locationId.ValueOr(0))) == [m]
    ensures Listing.Filter([n, m], InLocation(5)) == [n]
  {
    assert [n, m][..1] == [n];
    assert [n][..0] == [];
  }
}
