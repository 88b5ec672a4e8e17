/**
 The `pterodactyl_node` data source: Read picks one lookup attribute in the
 order id, uuid, name, fetches by id or scans the node listing for the first
 exact match, and writes every field of the node it settled on to state.
 */
module NodeDataSource {
  import opened Wrappers
  import opened Framework
  import opened Client
  import Listing

  /**
   The data source's attributes (nodeDataSourceModel). The element type of
   the `nodes` and `nodes_location` lists has the same attributes and is this
   type as well.
   */
  datatype NodeAttrs = NodeAttrs(
    id: Value<int32>, uuid: Value<string>, public: Value<bool>, name: Value<string>,
    description: Value<string>, locationId: Value<int32>, fqdn: Value<string>, scheme: Value<string>,
    behindProxy: Value<bool>, maintenanceMode: Value<bool>, memory: Value<int32>,
    memoryOverallocate: Value<int32>, disk: Value<int32>, diskOverallocate: Value<int32>,
    uploadSize: Value<int32>, daemonListen: Value<int32>, daemonSftp: Value<int32>,
    daemonBase: Value<string>, createdAt: Value<string>, updatedAt: Value<string>)

  predicate AllKnown(s: NodeAttrs) {
    && s.id.Known? && s.uuid.Known? && s.public.Known? && s.name.Known? && s.description.Known?
    && s.locationId.Known? && s.fqdn.Known? && s.scheme.Known? && s.behindProxy.Known?
    && s.maintenanceMode.Known? && s.memory.Known? && s.memoryOverallocate.Known? && s.disk.Known?
    && s.diskOverallocate.Known? && s.uploadSize.Known? && s.daemonListen.Known? && s.daemonSftp.Known?
    && s.daemonBase.Known? && s.createdAt.Known? && s.updatedAt.Known?
  }

  /** The node the attribute values describe, reading null or unknown as the zero value. */
  function NodeOf(s: NodeAttrs): Node {
    Node(s.id.ValueOr(0), s.uuid.ValueOr(""), s.public.ValueOr(false), s.name.ValueOr(""),
         s.description.ValueOr(""), s.locationId.ValueOr(0), s.fqdn.ValueOr(""), s.scheme.ValueOr(""),
         s.behindProxy.ValueOr(false), s.maintenanceMode.ValueOr(false), s.memory.ValueOr(0),
         s.memoryOverallocate.ValueOr(0), s.disk.ValueOr(0), s.diskOverallocate.ValueOr(0),
         s.uploadSize.ValueOr(0), s.daemonListen.ValueOr(0), s.daemonSftp.ValueOr(0),
         s.daemonBase.ValueOr(""), s.createdAt.ValueOr(""), s.updatedAt.ValueOr(""))
  }

  /** "Map response body to model": every attribute is known and carries the node's field, DaemonBase included. */
  function ToState(n: Node): (s: NodeAttrs)
    ensures AllKnown(s)
    ensures NodeOf(s) == n
  {
    NodeAttrs(Known(n.id), Known(n.uuid), Known(n.public), Known(n.name), Known(n.description),
              Known(n.locationId), Known(n.fqdn), Known(n.scheme), Known(n.behindProxy),
              Known(n.maintenanceMode), Known(n.memory), Known(n.memoryOverallocate), Known(n.disk),
              Known(n.diskOverallocate), Known(n.uploadSize), Known(n.daemonListen),
              Known(n.daemonSftp), Known(n.daemonBase), Known(n.createdAt), Known(n.updatedAt))
  }

  /** Two nodes written to state are equal only if the nodes are: no field is lost. */
  lemma ToStateInjective(a: Node, b: Node)
    ensures ToState(a) == ToState(b) <==> a == b
  {
    if ToState(a) == ToState(b) {
      assert NodeOf(ToState(a)) == NodeOf(ToState(b));
    }
  }

  function ReadFailed(err: string): Diagnostic {
    Error("Unable to Read Pterodactyl Node", err)
  }

  const MissingAttribute := Error("Missing Attribute", "One of 'id', 'uuid' or 'name' must be specified.")

  function HasUuid(uuid: string): Node -> bool { (n: Node) => n.uuid == uuid }
  function HasName(name: string): Node -> bool { (n: Node) => n.name == name }

  /** The outcome of a listing branch: a failed listing ends the read, otherwise the scan's node goes to state. */
  ghost predicate ListingOutcome(configDiags: seq<Diagnostic>, listing: Reply<seq<Node>>, p: Node -> bool,
                                 diags: seq<Diagnostic>, state: Option<NodeAttrs>)
  {
    if listing.err.Some? then diags == configDiags + [ReadFailed(listing.err.value)] && state == None
    else diags == configDiags && state == Some(ToState(Listing.FirstOr(listing.value, p, ZeroNode)))
  }

  /**
   nodeDataSource.Read. `configDiags` are the diagnostics of decoding the
   configuration into `config`; `getNode` and `getNodes` answer the client
   calls; `state` is None when Read returns before setting state.
   */
  method Read(configDiags: seq<Diagnostic>, config: NodeAttrs,
              getNode: int32 -> Reply<Node>, getNodes: Reply<seq<Node>>)
    returns (diags: seq<Diagnostic>, state: Option<NodeAttrs>, calls: seq<Call>)
    ensures HasError(configDiags) ==> diags == configDiags && state == None && calls == []
    // a non-null id is fetched by id whatever uuid and name say; the listing is not consulted
    ensures !HasError(configDiags) && !config.id.IsNull() ==>
      var id := config.id.ValueOr(0);
      && calls == [GetNode(id)]
      && (getNode(id).err.Some? ==> diags == configDiags + [ReadFailed(getNode(id).err.value)] && state == None)
      && (getNode(id).err.None? ==> diags == configDiags && state == Some(ToState(getNode(id).value)))
    // uuid only when id is null: the first listed node with that exact uuid, or the zero node
    ensures !HasError(configDiags) && config.id.IsNull() && !config.uuid.IsNull() ==>
      && calls == [GetNodes]
      && ListingOutcome(configDiags, getNodes, HasUuid(config.uuid.ValueOr("")), diags, state)
    // name only when id and uuid are both null: the first listed node with that exact name, or the zero node
    ensures !HasError(configDiags) && config.id.IsNull() && config.uuid.IsNull() && !config.name.IsNull() ==>
      && calls == [GetNodes]
      && ListingOutcome(configDiags, getNodes, HasName(config.name.ValueOr("")), diags, state)
    ensures !HasError(configDiags) && config.id.IsNull() && config.uuid.IsNull() && config.name.IsNull() ==>
      diags == configDiags + [MissingAttribute] && state == None && calls == []
    // state is set exactly when no error was reported
    ensures state.Some? <==> !HasError(diags)
  {
    diags, state, calls := configDiags, None, [];
    if HasError(diags) {
      return;
    }
    var node := ZeroNode;
    if !config.id.IsNull() {
      var id := config.id.ValueOr(0);
      var reply := getNode(id);
      calls := calls + [GetNode(id)];
      if reply.err.Some? {
        diags := diags + [ReadFailed(reply.err.value)];
        HasErrorAppend(configDiags, [ReadFailed(reply.err.value)]);
        return;
      }
      node := reply.value;
    } else if !config.uuid.IsNull() {
      var uuid := config.uuid.ValueOr("");
      var reply := getNodes;
      calls := calls + [GetNodes];
      if reply.err.Some? {
        diags := diags + [ReadFailed(reply.err.value)];
        HasErrorAppend(configDiags, [ReadFailed(reply.err.value)]);
        return;
      }
      var nodes := reply.value;
      var i := 0;
      while i < |nodes|
        invariant 0 <= i <= |nodes|
        invariant node == ZeroNode
        invariant forall j :: 0 <= j < i ==> !HasUuid(uuid)(nodes[j])
      {
        if nodes[i].uuid == uuid {
          Listing.FirstOrAt(nodes, HasUuid(uuid), ZeroNode, i);
          node := nodes[i];
          break;
        }
        i := i + 1;
      }
      assert node == Listing.FirstOr(nodes, HasUuid(uuid), ZeroNode);
    } else if !config.name.IsNull() {
      var name := config.name.ValueOr("");
      var reply := getNodes;
      calls := calls + [GetNodes];
      if reply.err.Some? {
        diags := diags + [ReadFailed(reply.err.value)];
        HasErrorAppend(configDiags, [ReadFailed(reply.err.value)]);
        return;
      }
      var nodes := reply.value;
      var i := 0;
      while i < |nodes|
        invariant 0 <= i <= |nodes|
        invariant node == ZeroNode
        invariant forall j :: 0 <= j < i ==> !HasName(name)(nodes[j])
      {
        if nodes[i].name == name {
          Listing.FirstOrAt(nodes, HasName(name), ZeroNode, i);
          node := nodes[i];
          break;
        }
        i := i + 1;
      }
      assert node == Listing.FirstOr(nodes, HasName(name), ZeroNode);
    } else {
      diags := diags + [MissingAttribute];
      HasErrorAppend(configDiags, [MissingAttribute]);
      return;
    }
    state := Some(ToState(node));
  }

  /** Looking up by attribute finds the first listed node with that uuid; later nodes with the same uuid are ignored. */
  lemma UuidLookupTakesFirst(nodes: seq<Node>, uuid: string, i: nat)
    requires i < |nodes| && nodes[i].uuid == uuid
    requires forall j :: 0 <= j < i ==> nodes[j].uuid != uuid
    ensures Listing.FirstOr(nodes, HasUuid(uuid), ZeroNode) == nodes[i]
  {
    Listing.FirstOrAt(nodes, HasUuid(uuid), ZeroNode, i);
  }

  /** Of two listed nodes with the same name, the earlier one is the one read. */
  lemma DuplicateNameTakesFirst(nodes: seq<Node>, name: string, i: nat, k: nat)
    requires i < k < |nodes| && nodes[i].name == name && nodes[k].name == name
    requires forall j :: 0 <= j < i ==> nodes[j].name != name
    ensures Listing.FirstOr(nodes, HasName(name), ZeroNode) == nodes[i]
  {
    Listing.FirstOrAt(nodes, HasName(name), ZeroNode, i);
  }

  /** A node missing from the listing reads as the zero node: ID 0, empty strings, false flags, zero time. */
  lemma NotFoundIsZeroNode(nodes: seq<Node>, p: Node -> bool)
    requires forall j :: 0 <= j < |nodes| ==> !p(nodes[j])
    ensures Listing.FirstOr(nodes, p, ZeroNode) == ZeroNode
    ensures ToState(ZeroNode).id == Known(0) && ToState(ZeroNode).uuid == Known("")
    ensures ToState(ZeroNode).createdAt == Known(ZeroTime)
  {
    Listing.FirstOrMissing(nodes, p, ZeroNode);
  }
}
