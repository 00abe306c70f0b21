/** From the blast-radius graph to the severity score. */
module Investigation {
  import opened RotationTypes
  import opened BlastRadius
  import opened Severity

  // The scorer's table of privileged services has one entry more than the graph's.
  const HIGH_PRIV_TYPES := {"iam", "rds", "secretsmanager", "kms", "sts", "ec2"}

  function ScoredPrivileged(resources: seq<Resource>, lower: string -> string): (n: nat)
    ensures n <= |resources|
  {
    if resources == [] then 0
    else
      var last := |resources| - 1;
      ScoredPrivileged(resources[..last], lower) +
      (if lower(resources[last].resourceType) in HIGH_PRIV_TYPES then 1 else 0)
  }

  /** The services that count as privileged in the score. */
  lemma PrivilegedTypes(t: string)
    ensures t in HIGH_PRIV_TYPES <==>
            t == "iam" || t == "rds" || t == "secretsmanager" || t == "kms" || t == "sts" || t == "ec2"
  {
  }

  predicate Flagged(node: Node) {
    && node.kind == ResourceNode && "high_privilege" in node.attrs && node.attrs["high_privilege"] == Flag(true)
  }

  function FlaggedNodes(nodes: seq<Node>): nat {
    if nodes == [] then 0
    else FlaggedNodes(nodes[..|nodes| - 1]) + (if Flagged(nodes[|nodes| - 1]) then 1 else 0)
  }

  function Assess(resources: seq<Resource>, labels: Labels, lower: string -> string): Assessment {
    Score(|resources|, ScoredPrivileged(resources, lower), labels, lower)
  }

  function Ec2Resources(resources: seq<Resource>, lower: string -> string): (n: nat)
    ensures n == 0 <==> forall k :: 0 <= k < |resources| ==> lower(resources[k].resourceType) != "ec2"
  {
    if resources == [] then 0
    else
      var last := |resources| - 1;
      Ec2Resources(resources[..last], lower) + (if lower(resources[last].resourceType) == "ec2" then 1 else 0)
  }

  lemma {:induction false} FlaggedAre(b: BlastRadiusBuilder, nodes: seq<Node>, edges: seq<Edge>, principal: Principal,
                                      resources: seq<Resource>, lower: string -> string)
    requires b.Maps(nodes, edges, principal, resources, None, lower)
    ensures FlaggedNodes(nodes) + Ec2Resources(resources, lower) == ScoredPrivileged(resources, lower)
    decreases |resources|
  {
    if resources == [] {
      assert nodes[..1] == [nodes[0]];
      assert nodes == [nodes[0], nodes[1]];
      assert FlaggedNodes(nodes[..1]) == 0;
    } else {
      var n := |nodes| - 1;
      MapsPrefix(b, nodes, edges, principal, resources, lower);
      FlaggedAre(b, nodes[..n], edges[..n - 1], principal, resources[..|resources| - 1], lower);
      FlaggedNode(b, nodes[n], edges[n - 1], nodes[1].id, resources[|resources| - 1], lower);
    }
  }

  lemma MapsPrefix(b: BlastRadiusBuilder, nodes: seq<Node>, edges: seq<Edge>, principal: Principal,
                   resources: seq<Resource>, lower: string -> string)
    requires b.Maps(nodes, edges, principal, resources, None, lower) && resources != []
    ensures var n := |nodes| - 1;
            && b.Maps(nodes[..n], edges[..n - 1], principal, resources[..|resources| - 1], None, lower)
            && b.Describes(nodes[n], edges[n - 1], nodes[1].id, resources[|resources| - 1], lower)
  {}

  lemma FlaggedNode(b: BlastRadiusBuilder, node: Node, edge: Edge, principal: Id, resource: Resource,
                    lower: string -> string)
    requires b.Describes(node, edge, principal, resource, lower)
    ensures Flagged(node) <==> HighPrivilege(resource, lower)
    ensures HighPrivilege(resource, lower) || lower(resource.resourceType) == "ec2"
            <==> lower(resource.resourceType) in HIGH_PRIV_TYPES
    ensures !(HighPrivilege(resource, lower) && lower(resource.resourceType) == "ec2")
  {
    assert "high_privilege" in node.attrs;
  }

  /** The graph shows every privileged resource that the score counts exactly when no
      resource is an ec2 one. */
  lemma GraphShowsScoreIff(b: BlastRadiusBuilder, nodes: seq<Node>, edges: seq<Edge>, principal: Principal,
                           resources: seq<Resource>, store: Option<StoreResult>, lower: string -> string)
    requires b.Maps(nodes, edges, principal, resources, store, lower)
    ensures FlaggedNodes(nodes) == ScoredPrivileged(resources, lower)
            <==> forall k :: 0 <= k < |resources| ==> lower(resources[k].resourceType) != "ec2"
  {
    var n := |resources| + 2;
    assert b.Maps(nodes[..n], edges[..n - 1], principal, resources, None, lower);
    FlaggedAre(b, nodes[..n], edges[..n - 1], principal, resources, lower);
    if store.Some? {
      assert !Flagged(nodes[n]);
      assert nodes[..|nodes| - 1] == nodes[..n];
    } else {
      assert nodes[..n] == nodes;
    }
  }

  lemma {:induction false} ScoredAppend(a: seq<Resource>, b: seq<Resource>, lower: string -> string)
    ensures ScoredPrivileged(a + b, lower) == ScoredPrivileged(a, lower) + ScoredPrivileged(b, lower)
  {
    if b == [] {
      assert a + b == a;
    } else {
      ScoredAppend(a, b[..|b| - 1], lower);
      assert (a + b)[..|a + b| - 1] == a + b[..|b| - 1];
    }
  }

  /** Finding more reachable resources never lowers the score or the bucket, whatever
      their types and wherever they appear in the list. */
  lemma MoreReachNeverLess(before: seq<Resource>, found: seq<Resource>, after: seq<Resource>, labels: Labels,
                           lower: string -> string)
    ensures var a, b := Assess(before + after, labels, lower), Assess(before + found + after, labels, lower);
            a.score <= b.score && Rank(a.bucket) <= Rank(b.bucket)
  {
    ScoredAppend(before, after, lower);
    ScoredAppend(before + found, after, lower);
    ScoredAppend(before, found, lower);
    hide ScoredPrivileged, Score;
    ScoreMonotone(|before + after|, ScoredPrivileged(before + after, lower),
                  |before + found + after|, ScoredPrivileged(before + found + after, lower), labels, lower);
  }
}
