/** The blast-radius graph: a loop that appends nodes and edges, and the tree it leaves. */
module BlastRadius {
  import opened RotationTypes

  type Id = nat

  datatype NodeKind = SecretNode | PrincipalNode | ResourceNode | StoreEntry
  datatype EdgeKind = IsPrincipal | GrantsAccessTo | StoredIn
  datatype Confidence = LowConfidence | MediumConfidence | HighConfidence
  datatype Attr = Text(text: string) | Flag(flag: bool)

  datatype Node = Node(id: Id, secret: Id, workspace: Id, kind: NodeKind, caption: string,
                       environment: string, attrs: map<string, Attr>)
  datatype Edge = Edge(id: Id, secret: Id, workspace: Id, src: Id, dst: Id, kind: EdgeKind, confidence: Confidence)
  datatype Coverage = Coverage(knownConsumers: nat, unknownConsumers: nat, confidence: Confidence)
  datatype Graph = Graph(nodes: seq<Node>, edges: seq<Edge>, coverage: Coverage)

  datatype Principal = Principal(provider: string, principalType: string, arn: string, accountId: string)
  datatype Resource = Resource(provider: string, resourceType: string, arn: string, caption: string,
                               environment: string)
  datatype StoreResult = StoreResult(success: bool, metadata: map<string, Attr>)

  const HIGH_PRIV_SERVICES := {"iam", "rds", "secretsmanager", "kms", "sts"}

  // ---- trees ----

  // The positions of the edges that end in the node.
  ghost function Incoming(edges: seq<Edge>, id: Id): set<nat> {
    set k: nat | k < |edges| && edges[k].dst == id
  }

  /** The edges at positions p lead, in order, from one node to another. */
  ghost predicate Walk(edges: seq<Edge>, src: Id, dst: Id, p: seq<nat>)
    decreases |p|
  {
    if p == [] then src == dst
    else
      var last := p[|p| - 1];
      last < |edges| && edges[last].dst == dst && Walk(edges, src, edges[last].src, p[..|p| - 1])
  }

  /** Exactly one walk leads from the root to the node, and it has at most two edges. */
  ghost predicate OneShortWalk(edges: seq<Edge>, root: Id, id: Id) {
    exists p :: Walk(edges, root, id, p) && |p| <= 2 && forall q :: Walk(edges, root, id, q) ==> q == p
  }

  predicate DistinctNodes(nodes: seq<Node>) {
    forall j, k :: 0 <= j < k < |nodes| ==> nodes[j].id != nodes[k].id
  }

  predicate EndpointsKnown(nodes: seq<Node>, edges: seq<Edge>) {
    forall k :: 0 <= k < |edges| ==>
      (exists j :: 0 <= j < |nodes| && nodes[j].id == edges[k].src) &&
      (exists j :: 0 <= j < |nodes| && nodes[j].id == edges[k].dst)
  }

  /** A tree rooted at the first node, of depth at most two. */
  ghost predicate Tree(nodes: seq<Node>, edges: seq<Edge>) {
    && nodes != [] && |edges| == |nodes| - 1 && DistinctNodes(nodes) && EndpointsKnown(nodes, edges)
    && Incoming(edges, nodes[0].id) == {}
    && (forall k :: 0 < k < |nodes| ==> |Incoming(edges, nodes[k].id)| == 1)
    && (forall k :: 0 <= k < |nodes| ==> OneShortWalk(edges, nodes[0].id, nodes[k].id))
  }

  /** How the builder grows the graph: each edge comes with the node it ends in, and
      starts in the secret or in the principal. */
  ghost predicate Grown(nodes: seq<Node>, edges: seq<Edge>) {
    && nodes != [] && |edges| == |nodes| - 1 && DistinctNodes(nodes)
    && (|edges| > 0 ==> edges[0].src == nodes[0].id)
    && forall k :: 0 <= k < |edges| ==> edges[k].dst == nodes[k + 1].id && edges[k].src in {nodes[0].id, nodes[1].id}
  }

  lemma OnlyIncoming(nodes: seq<Node>, edges: seq<Edge>, k: nat)
    requires Grown(nodes, edges) && k < |nodes|
    ensures Incoming(edges, nodes[k].id) == if k == 0 then {} else {k - 1}
  {}

  lemma NoEdgeToRoot(nodes: seq<Node>, edges: seq<Edge>, k: nat)
    requires Grown(nodes, edges) && k < |edges|
    ensures edges[k].dst != nodes[0].id
  {}

  lemma RootWalk(nodes: seq<Node>, edges: seq<Edge>, q: seq<nat>)
    requires Grown(nodes, edges) && Walk(edges, nodes[0].id, nodes[0].id, q)
    ensures q == []
  {
    assert nodes != [];
    hide Grown;
    forall k | 0 <= k < |edges| ensures edges[k].dst != nodes[0].id {
      NoEdgeToRoot(nodes, edges, k);
    }
  }

  lemma LastEdge(nodes: seq<Node>, edges: seq<Edge>, k: nat, q: seq<nat>)
    requires Grown(nodes, edges) && 0 < k < |nodes| && Walk(edges, nodes[0].id, nodes[k].id, q)
    ensures q != [] && q[|q| - 1] == k - 1 && Walk(edges, nodes[0].id, edges[k - 1].src, q[..|q| - 1])
  {
    OnlyIncoming(nodes, edges, k);
    if q != [] {
      assert q[|q| - 1] in Incoming(edges, nodes[k].id);
    }
  }

  lemma WalkOne(edges: seq<Edge>, p: nat)
    requires p < |edges|
    ensures Walk(edges, edges[p].src, edges[p].dst, [p])
  {
    assert [p][..0] == [];
  }

  lemma WalkTwo(edges: seq<Edge>, p: nat, q: nat)
    requires p < |edges| && q < |edges| && edges[p].dst == edges[q].src
    ensures Walk(edges, edges[p].src, edges[q].dst, [p, q])
  {
    WalkOne(edges, p);
    assert [p, q][..1] == [p];
  }

  lemma RootReached(nodes: seq<Node>, edges: seq<Edge>)
    requires Grown(nodes, edges)
    ensures OneShortWalk(edges, nodes[0].id, nodes[0].id)
  {
    var root := nodes[0].id;
    assert Walk(edges, root, root, []);
    forall q | Walk(edges, root, root, q) ensures q == [] {
      RootWalk(nodes, edges, q);
    }
  }

  lemma ChildReached(nodes: seq<Node>, edges: seq<Edge>, k: nat)
    requires Grown(nodes, edges) && 0 < k < |nodes| && edges[k - 1].src == nodes[0].id
    ensures OneShortWalk(edges, nodes[0].id, nodes[k].id)
  {
    WalkOne(edges, k - 1);
    var root := nodes[0].id;
    forall q | Walk(edges, root, nodes[k].id, q) ensures q == [k - 1] {
      LastEdge(nodes, edges, k, q);
      RootWalk(nodes, edges, q[..|q| - 1]);
    }
  }

  lemma GrandchildReached(nodes: seq<Node>, edges: seq<Edge>, k: nat)
    requires Grown(nodes, edges) && 1 < k < |nodes| && edges[k - 1].src == nodes[1].id
    ensures OneShortWalk(edges, nodes[0].id, nodes[k].id)
  {
    WalkTwo(edges, 0, k - 1);
    var root := nodes[0].id;
    forall q | Walk(edges, root, nodes[k].id, q) ensures q == [0, k - 1] {
      LastEdge(nodes, edges, k, q);
      var q' := q[..|q| - 1];
      LastEdge(nodes, edges, 1, q');
      RootWalk(nodes, edges, q'[..|q'| - 1]);
      assert q == q' + [k - 1] && q' == q'[..|q'| - 1] + [0];
    }
  }

  /** Growing one edge with each new node makes a tree. */
  lemma GrownIsTree(nodes: seq<Node>, edges: seq<Edge>)
    requires Grown(nodes, edges)
    ensures Tree(nodes, edges)
  {
    assert EndpointsKnown(nodes, edges);
    forall k | 0 <= k < |nodes|
      ensures OneShortWalk(edges, nodes[0].id, nodes[k].id)
      ensures Incoming(edges, nodes[k].id) == if k == 0 then {} else {k - 1}
    {
      hide OneShortWalk;
      OnlyIncoming(nodes, edges, k);
      if k == 0 {
        RootReached(nodes, edges);
      } else if edges[k - 1].src == nodes[0].id {
        ChildReached(nodes, edges, k);
      } else {
        GrandchildReached(nodes, edges, k);
      }
    }
    hide OneShortWalk, Grown, EndpointsKnown;
  }

  // ---- labels ----

  predicate Contains(s: string, part: string) {
    exists k :: 0 <= k <= |s| && OccursAt(s, part, k)
  }

  predicate OccursAt(s: string, part: string, k: nat)
    requires k <= |s|
  {
    part <= s[k..]
  }

  const ENV_NAMES := ["prod", "staging", "stg", "dev", "test"]

  /** The name is listed and occurs, and no name listed before it does. */
  predicate NamedAt(arn: string, names: seq<string>, k: nat, name: string) {
    && k < |names| && names[k] == name && Contains(arn, name)
    && forall j :: 0 <= j < k ==> !Contains(arn, names[j])
  }

  /** The environment that the resource states; otherwise the first listed name that occurs
      in its lower-cased ARN, or "unknown" if none does. */
  predicate IsEnv(resource: Resource, lower: string -> string, env: string) {
    if resource.environment != "" && resource.environment != "unknown" then env == resource.environment
    else
      var arn := lower(resource.arn);
      || (exists k :: 0 <= k < |ENV_NAMES| && NamedAt(arn, ENV_NAMES, k, env))
      || (env == "unknown" && forall j :: 0 <= j < |ENV_NAMES| ==> !Contains(arn, ENV_NAMES[j]))
  }

  lemma EnvOnce(resource: Resource, lower: string -> string, a: string, b: string)
    requires IsEnv(resource, lower, a) && IsEnv(resource, lower, b)
    ensures a == b
  {
    hide ENV_NAMES, Contains;
    var arn := lower(resource.arn);
    if (exists k :: 0 <= k < |ENV_NAMES| && NamedAt(arn, ENV_NAMES, k, a))
       && (exists k :: 0 <= k < |ENV_NAMES| && NamedAt(arn, ENV_NAMES, k, b))
    {
      var j :| 0 <= j < |ENV_NAMES| && NamedAt(arn, ENV_NAMES, j, a);
      var k :| 0 <= k < |ENV_NAMES| && NamedAt(arn, ENV_NAMES, k, b);
      assert j == k;
    }
  }

  /** The names in their order of precedence, written out. */
  lemma EnvExactly(resource: Resource, lower: string -> string, env: string)
    requires IsEnv(resource, lower, env) && (resource.environment == "" || resource.environment == "unknown")
    ensures var arn := lower(resource.arn);
            && (env == "prod" <==> Contains(arn, "prod"))
            && (env == "staging" <==> !Contains(arn, "prod") && Contains(arn, "staging"))
            && (env == "stg" <==> !Contains(arn, "prod") && !Contains(arn, "staging") && Contains(arn, "stg"))
            && (env == "dev" <==> !Contains(arn, "prod") && !Contains(arn, "staging") && !Contains(arn, "stg")
                                  && Contains(arn, "dev"))
            && (env == "test" <==> !Contains(arn, "prod") && !Contains(arn, "staging") && !Contains(arn, "stg")
                                   && !Contains(arn, "dev") && Contains(arn, "test"))
            && (env == "unknown" <==> !Contains(arn, "prod") && !Contains(arn, "staging") && !Contains(arn, "stg")
                                      && !Contains(arn, "dev") && !Contains(arn, "test"))
  {
    var arn := lower(resource.arn);
    NamesOrder();
    hide Contains, ENV_NAMES;
    if k :| 0 <= k < |ENV_NAMES| && NamedAt(arn, ENV_NAMES, k, env) {
      assert k == 0 || k == 1 || k == 2 || k == 3 || k == 4;
      assert forall j :: 0 <= j < k ==> !Contains(arn, ENV_NAMES[j]);
    } else {
      assert forall j :: 0 <= j < 5 ==> !Contains(arn, ENV_NAMES[j]);
    }
  }

  lemma NamesOrder()
    ensures |ENV_NAMES| == 5 && ENV_NAMES[0] == "prod" && ENV_NAMES[1] == "staging" && ENV_NAMES[2] == "stg"
    ensures ENV_NAMES[3] == "dev" && ENV_NAMES[4] == "test"
    ensures forall j, k :: 0 <= j < k < 5 ==> ENV_NAMES[j] != ENV_NAMES[k]
    ensures forall j :: 0 <= j < 5 ==> ENV_NAMES[j] != "unknown"
  {
    assert "staging"[1] == 't' && "stg"[2] == 'g' && "dev"[0] == 'd' && "unknown"[0] == 'u' && "test"[0] == 't';
    assert |"staging"| == 7 && |"stg"| == 3 && |"prod"| == 4 && |"test"| == 4 && "prod"[0] == 'p';
  }

  method InferEnv(resource: Resource, lower: string -> string) returns (env: string)
    ensures IsEnv(resource, lower, env)
  {
    if resource.environment != "" && resource.environment != "unknown" {
      return resource.environment;
    }
    var arn := lower(resource.arn);
    hide ENV_NAMES, Contains;
    for k := 0 to |ENV_NAMES|
      invariant forall j :: 0 <= j < k ==> !Contains(arn, ENV_NAMES[j])
    {
      if Contains(arn, ENV_NAMES[k]) {
        assert NamedAt(arn, ENV_NAMES, k, ENV_NAMES[k]);
        return ENV_NAMES[k];
      }
    }
    return "unknown";
  }

  // Where the text after the last colon begins.
  function SegmentStart(s: string): (i: nat)
    ensures i <= |s| && ':' !in s[i..] && (i > 0 ==> s[i - 1] == ':')
  {
    var n := |s|;
    if n == 0 || s[n - 1] == ':' then n
    else
      var i := SegmentStart(s[..n - 1]);
      assert s[i..] == s[..n - 1][i..] + [s[n - 1]];
      i
  }

  function LastSegment(s: string): string {
    s[SegmentStart(s)..]
  }

  lemma CaptionCases(s: string)
    ensures ':' !in s ==> LastSegment(s) == s
  {}

  predicate HighPrivilege(resource: Resource, lower: string -> string) {
    lower(resource.resourceType) in HIGH_PRIV_SERVICES
  }

  lemma KeysDiffer()
    ensures "arn" != "provider" && "arn" != "resource_type" && "arn" != "high_privilege"
    ensures "provider" != "resource_type" && "provider" != "high_privilege" && "resource_type" != "high_privilege"
    ensures "arn" != "principal_type" && "arn" != "account_id" && "provider" != "principal_type"
    ensures "provider" != "account_id" && "principal_type" != "account_id" && "store_type" != "readable"
  {
    assert |"arn"| == 3 && |"provider"| == 8 && |"resource_type"| == 13 && |"high_privilege"| == 14;
    assert |"principal_type"| == 14 && |"account_id"| == 10 && |"store_type"| == 10 && |"readable"| == 8;
  }

  /** The services that count as privileged in the graph. */
  lemma PrivilegedServices(resource: Resource, lower: string -> string)
    ensures HighPrivilege(resource, lower) <==>
            var t := lower(resource.resourceType);
            t == "iam" || t == "rds" || t == "secretsmanager" || t == "kms" || t == "sts"
  {
  }

  function PrincipalAttrs(principal: Principal): map<string, Attr> {
    map["arn" := Text(principal.arn), "provider" := Text(principal.provider),
        "principal_type" := Text(principal.principalType), "account_id" := Text(principal.accountId)]
  }

  function ResourceAttrs(resource: Resource, isHighPriv: bool): map<string, Attr> {
    map["arn" := Text(resource.arn), "resource_type" := Text(resource.resourceType),
        "provider" := Text(resource.provider), "high_privilege" := Flag(isHighPriv)]
  }

  // The metadata may replace the other two entries.
  function StoreAttrs(store: StoreResult): map<string, Attr> {
    map["store_type" := Text("vault"), "readable" := Flag(store.success)] + store.metadata
  }

  // ---- the builder ----

  class BlastRadiusBuilder {
    const secretId: Id
    const workspaceId: Id
    const environment: string
    const showId: Id -> string

    constructor (secretId: Id, workspaceId: Id, environment: string, showId: Id -> string)
      ensures this.secretId == secretId && this.workspaceId == workspaceId
      ensures this.environment == environment && this.showId == showId
    {
      this.secretId, this.workspaceId, this.environment, this.showId := secretId, workspaceId, environment, showId;
    }

    function SecretCaption(): string {
      "secret:" + showId(secretId)
    }

    function SecretAttrs(): map<string, Attr> {
      map["secret_id" := Text(showId(secretId))]
    }

    function MakeNode(id: Id, kind: NodeKind, caption: string, environment: string, attrs: map<string, Attr>): Node {
      Node(id, secretId, workspaceId, kind, caption, environment, attrs)
    }

    function MakeEdge(id: Id, src: Id, dst: Id, kind: EdgeKind, confidence: Confidence): Edge {
      Edge(id, secretId, workspaceId, src, dst, kind, confidence)
    }

    predicate Owned(nodes: seq<Node>, edges: seq<Edge>) {
      && (forall k :: 0 <= k < |nodes| ==> nodes[k].secret == secretId && nodes[k].workspace == workspaceId)
      && (forall k :: 0 <= k < |edges| ==> edges[k].secret == secretId && edges[k].workspace == workspaceId)
    }

    /** What the attributes of the nodes say, entry by entry. */
    lemma AttrsSay(resource: Resource, principal: Principal, store: StoreResult, high: bool)
      ensures var a := ResourceAttrs(resource, high);
              && a.Keys == {"arn", "resource_type", "provider", "high_privilege"}
              && a["arn"] == Text(resource.arn) && a["resource_type"] == Text(resource.resourceType)
              && a["provider"] == Text(resource.provider) && a["high_privilege"] == Flag(high)
      ensures var a := PrincipalAttrs(principal);
              && a.Keys == {"arn", "provider", "principal_type", "account_id"}
              && a["arn"] == Text(principal.arn) && a["provider"] == Text(principal.provider)
              && a["principal_type"] == Text(principal.principalType) && a["account_id"] == Text(principal.accountId)
      ensures var a := StoreAttrs(store);
              && a.Keys == {"store_type", "readable"} + store.metadata.Keys
              && (forall k :: k in store.metadata ==> a[k] == store.metadata[k])
              && ("readable" !in store.metadata ==> a["readable"] == Flag(store.success))
              && ("store_type" !in store.metadata ==> a["store_type"] == Text("vault"))
      ensures SecretAttrs() == map["secret_id" := Text(showId(secretId))]
      ensures SecretCaption() == "secret:" + showId(secretId)
    {
      KeysDiffer();
    }

    /** The node and the edge that a resource contributes. */
    predicate Describes(node: Node, edge: Edge, principal: Id, resource: Resource, lower: string -> string) {
      && node.kind == ResourceNode && node.caption == resource.caption && IsEnv(resource, lower, node.environment)
      && node.attrs == ResourceAttrs(resource, HighPrivilege(resource, lower))
      && edge.src == principal && edge.dst == node.id && edge.kind == GrantsAccessTo
      && edge.confidence == (if HighPrivilege(resource, lower) then HighConfidence else MediumConfidence)
    }

    /** What the nodes and edges say, and in which order. */
    predicate Maps(nodes: seq<Node>, edges: seq<Edge>, principal: Principal, resources: seq<Resource>,
                   store: Option<StoreResult>, lower: string -> string) {
      var n := |resources|;
      && |nodes| == n + (if store.Some? then 3 else 2) && |edges| == |nodes| - 1
      && nodes[0].kind == SecretNode && nodes[0].caption == SecretCaption() && nodes[0].attrs == SecretAttrs()
      && nodes[1].kind == PrincipalNode && nodes[1].caption == LastSegment(principal.arn)
      && nodes[1].attrs == PrincipalAttrs(principal)
      && nodes[0].environment == nodes[1].environment == environment
      && edges[0].src == nodes[0].id && edges[0].dst == nodes[1].id
      && edges[0].kind == IsPrincipal && edges[0].confidence == HighConfidence
      && (forall k :: 0 <= k < n ==> Describes(nodes[k + 2], edges[k + 1], nodes[1].id, resources[k], lower))
      && (store.Some? ==> Stores(nodes[n + 2], edges[n + 1], nodes[0].id, store.value))
    }

    /** The node and the edge that the store contributes. */
    predicate Stores(node: Node, edge: Edge, secret: Id, store: StoreResult) {
      && node.kind == StoreEntry && node.caption == "vault" && node.environment == environment
      && node.attrs == StoreAttrs(store)
      && edge.src == secret && edge.dst == node.id && edge.kind == StoredIn
      && edge.confidence == (if store.success then HighConfidence else LowConfidence)
    }

    ghost predicate Building(nodes: seq<Node>, edges: seq<Edge>, uuid: nat -> Id, drawn: nat) {
      Grown(nodes, edges) && Owned(nodes, edges) && AllDrawn(uuid, drawn, nodes)
    }

    lemma BuildingStart(secret: Node, principal: Node, edge: Edge, uuid: nat -> Id)
      requires Injective(uuid)
      requires secret.id == uuid(0) && principal.id == uuid(1)
      requires secret.secret == principal.secret == edge.secret == secretId
      requires secret.workspace == principal.workspace == edge.workspace == workspaceId
      requires edge.src == secret.id && edge.dst == principal.id
      ensures Building([secret, principal], [edge], uuid, 3)
    {
      assert Drawn(uuid, 3, uuid(0)) && Drawn(uuid, 3, uuid(1));
    }

    lemma MapsStart(secret: Node, node: Node, edge: Edge, principal: Principal, lower: string -> string)
      requires secret.attrs == SecretAttrs() && node.attrs == PrincipalAttrs(principal)
      requires secret.environment == node.environment == environment
      requires secret.kind == SecretNode && secret.caption == SecretCaption()
      requires node.kind == PrincipalNode && node.caption == LastSegment(principal.arn)
      requires edge.src == secret.id && edge.dst == node.id
      requires edge.kind == IsPrincipal && edge.confidence == HighConfidence
      ensures Maps([secret, node], [edge], principal, [], None, lower)
    {
      hide LastSegment;
    }

    lemma BuildingStep(nodes: seq<Node>, edges: seq<Edge>, node: Node, edge: Edge, uuid: nat -> Id, drawn: nat)
      requires Injective(uuid)
      requires |nodes| > 1 && Building(nodes, edges, uuid, drawn)
      requires node.id == uuid(drawn) && edge.dst == node.id && edge.src in {nodes[0].id, nodes[1].id}
      requires node.secret == edge.secret == secretId && node.workspace == edge.workspace == workspaceId
      ensures Building(nodes + [node], edges + [edge], uuid, drawn + 2)
    {
      Grow(nodes, edges, node, edge, uuid, drawn);
      hide Grown, AllDrawn;
    }

    lemma BuildingIsTree(nodes: seq<Node>, edges: seq<Edge>, uuid: nat -> Id, drawn: nat)
      requires Building(nodes, edges, uuid, drawn)
      ensures Tree(nodes, edges) && Owned(nodes, edges)
    {
      GrownIsTree(nodes, edges);
    }

    lemma MapsResource(nodes: seq<Node>, edges: seq<Edge>, principal: Principal, resources: seq<Resource>,
                       lower: string -> string, node: Node, edge: Edge, resource: Resource)
      requires Maps(nodes, edges, principal, resources, None, lower)
      requires Describes(node, edge, nodes[1].id, resource, lower)
      ensures Maps(nodes + [node], edges + [edge], principal, resources + [resource], None, lower)
    {
      hide Describes, LastSegment;
    }

    lemma MapsStore(nodes: seq<Node>, edges: seq<Edge>, principal: Principal, resources: seq<Resource>,
                    lower: string -> string, node: Node, edge: Edge, store: StoreResult)
      requires Maps(nodes, edges, principal, resources, None, lower)
      requires Stores(node, edge, nodes[0].id, store)
      ensures Maps(nodes + [node], edges + [edge], principal, resources, Some(store), lower)
    {
      hide Describes, LastSegment, Stores;
    }

    lemma DescribesResource(node: Node, edge: Edge, principal: Id, resource: Resource, lower: string -> string)
      requires node.kind == ResourceNode && node.caption == resource.caption
      requires IsEnv(resource, lower, node.environment)
      requires node.attrs == ResourceAttrs(resource, HighPrivilege(resource, lower))
      requires edge.src == principal && edge.dst == node.id && edge.kind == GrantsAccessTo
      requires edge.confidence == if HighPrivilege(resource, lower) then HighConfidence else MediumConfidence
      ensures Describes(node, edge, principal, resource, lower)
    {}

    /** `uuid(k)` is the k-th identifier drawn. */
    method Build(principal: Principal, resources: seq<Resource>, store: Option<StoreResult>,
                 uuid: nat -> Id, lower: string -> string) returns (graph: Graph)
      requires Injective(uuid)
      ensures Tree(graph.nodes, graph.edges)
      ensures Owned(graph.nodes, graph.edges)
      ensures Maps(graph.nodes, graph.edges, principal, resources, store, lower)
      ensures graph.coverage.knownConsumers == |resources| && graph.coverage.unknownConsumers == 0
      ensures graph.coverage.confidence == HighConfidence <==> |resources| >= 6
      ensures graph.coverage.confidence == LowConfidence <==> |resources| <= 1
    {
      hide Injective, Building, Maps, ResourceAttrs, StoreAttrs, PrincipalAttrs, SecretAttrs, SecretCaption,
           Tree, IsEnv, LastSegment, Owned, Describes;
      var secretNode := MakeNode(uuid(0), SecretNode, SecretCaption(), environment, SecretAttrs());
      var nodes := [secretNode];
      CaptionCases(principal.arn);
      var caption := if ':' in principal.arn then LastSegment(principal.arn) else principal.arn;
      var principalNode := MakeNode(uuid(1), PrincipalNode, caption, environment,
                                    PrincipalAttrs(principal));
      nodes := nodes + [principalNode];
      var edges := [MakeEdge(uuid(2), secretNode.id, principalNode.id, IsPrincipal, HighConfidence)];
      var drawn := 3;
      BuildingStart(secretNode, principalNode, edges[0], uuid);
      MapsStart(secretNode, principalNode, edges[0], principal, lower);
      assert nodes == [secretNode, principalNode] && resources[..0] == [];
      for k := 0 to |resources|
        invariant |nodes| == k + 2 && nodes[..2] == [secretNode, principalNode]
        invariant Building(nodes, edges, uuid, drawn)
        invariant Maps(nodes, edges, principal, resources[..k], None, lower)
      {
        var resource := resources[k];
        var env := InferEnv(resource, lower);
        var isHighPriv := lower(resource.resourceType) in HIGH_PRIV_SERVICES;
        var node := MakeNode(uuid(drawn), ResourceNode, resource.caption, env,
                             ResourceAttrs(resource, isHighPriv));
        var confidence := if isHighPriv then HighConfidence else MediumConfidence;
        var edge := MakeEdge(uuid(drawn + 1), principalNode.id, node.id, GrantsAccessTo, confidence);
        BuildingStep(nodes, edges, node, edge, uuid, drawn);
        DescribesResource(node, edge, principalNode.id, resource, lower);
        MapsResource(nodes, edges, principal, resources[..k], lower, node, edge, resource);
        assert resources[..k + 1] == resources[..k] + [resource];
        nodes, edges, drawn := nodes + [node], edges + [edge], drawn + 2;
      }
      assert resources[..|resources|] == resources;
      if store.Some? {
        var node := MakeNode(uuid(drawn), StoreEntry, "vault", environment,
                             StoreAttrs(store.value));
        var edge := MakeEdge(uuid(drawn + 1), secretNode.id, node.id, StoredIn,
                             if store.value.success then HighConfidence else LowConfidence);
        BuildingStep(nodes, edges, node, edge, uuid, drawn);
        assert Stores(node, edge, secretNode.id, store.value);
        MapsStore(nodes, edges, principal, resources, lower, node, edge, store.value);
        drawn := drawn + 2;
        nodes, edges := nodes + [node], edges + [edge];
      }
      BuildingIsTree(nodes, edges, uuid, drawn);
      var known := |resources|;
      var confidence := if known > 5 then HighConfidence else if known > 1 then MediumConfidence else LowConfidence;
      graph := Graph(nodes, edges, Coverage(known, 0, confidence));
    }
  }

  ghost predicate Injective(uuid: nat -> Id) {
    forall j: nat, k: nat :: j != k ==> uuid(j) != uuid(k)
  }

  // Identifiers already handed out.
  ghost predicate Drawn(uuid: nat -> Id, n: nat, id: Id) {
    exists k: nat :: k < n && uuid(k) == id
  }

  ghost predicate AllDrawn(uuid: nat -> Id, n: nat, nodes: seq<Node>) {
    forall j :: 0 <= j < |nodes| ==> Drawn(uuid, n, nodes[j].id)
  }

  lemma Grow(nodes: seq<Node>, edges: seq<Edge>, node: Node, edge: Edge, uuid: nat -> Id, n: nat)
    requires Injective(uuid)
    requires Grown(nodes, edges) && |nodes| > 1
    requires AllDrawn(uuid, n, nodes)
    requires node.id == uuid(n) && edge.dst == node.id && edge.src in {nodes[0].id, nodes[1].id}
    ensures Grown(nodes + [node], edges + [edge])
    ensures AllDrawn(uuid, n + 2, nodes + [node])
  {
    forall j | 0 <= j < |nodes|
      ensures nodes[j].id != node.id && Drawn(uuid, n + 2, nodes[j].id)
    {
      var k: nat :| k < n && uuid(k) == nodes[j].id;
    }
    assert Drawn(uuid, n + 2, node.id);
  }
}
