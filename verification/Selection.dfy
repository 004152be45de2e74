/** Which clusters a proxy selects, and which proxies a cluster event wakes up. */
module Selection {
  import opened Wrappers
  import opened Api
  import opened Order

  datatype Cluster = Cluster(key: Key, labels: Labels)

  datatype Listed = Listed(key: Key, selector: Selector)

  /** Whether a label selector converts: set operators need values, existence operators must have none. */
  predicate Converts(s: Selector) {
    forall r | r in s.matchExpressions ::
      match r.operator
      case In => r.values != []
      case NotIn => r.values != []
      case Exists => r.values == []
      case DoesNotExist => r.values == []
      case Unknown => false
  }

  predicate Meets(r: Requirement, labels: Labels) {
    match r.operator
    case In => r.key in labels && labels[r.key] in r.values
    case NotIn => r.key !in labels || labels[r.key] !in r.values
    case Exists => r.key in labels
    case DoesNotExist => r.key !in labels
    case Unknown => false
  }

  predicate Matches(s: Selector, labels: Labels) {
    && (forall k | k in s.matchLabels :: k in labels && labels[k] == s.matchLabels[k])
    && (forall r | r in s.matchExpressions :: Meets(r, labels))
  }

  /** A known operator comes with values exactly if it compares values. */
  ghost predicate WellFormed(s: Selector) {
    forall r | r in s.matchExpressions ::
      r.operator != Unknown && (r.operator == In || r.operator == NotIn <==> r.values != [])
  }

  /** What a well-formed selector asks of labels, by their values. */
  ghost predicate Selects(s: Selector, labels: Labels) {
    && (forall k | k in s.matchLabels :: k in labels && labels[k] == s.matchLabels[k])
    && (forall r | r in s.matchExpressions ::
          && (r.operator == In ==> exists v | v in r.values :: r.key in labels && labels[r.key] == v)
          && (r.operator == NotIn ==> forall v | v in r.values :: r.key in labels ==> labels[r.key] != v)
          && (r.operator == Exists ==> r.key in labels)
          && (r.operator == DoesNotExist ==> r.key !in labels))
  }

  /** Conversion and matching of selectors mean that. */
  lemma MatchesByValues(s: Selector, labels: Labels)
    ensures Converts(s) <==> WellFormed(s)
    ensures Converts(s) ==> (Matches(s, labels) <==> Selects(s, labels))
  {
    if Converts(s) {
      forall r | r in s.matchExpressions
        ensures r.operator == In ==>
                  (Meets(r, labels) <==> exists v | v in r.values :: r.key in labels && labels[r.key] == v)
        ensures r.operator == NotIn ==>
                  (Meets(r, labels) <==> forall v | v in r.values :: r.key in labels ==> labels[r.key] != v)
      {
      }
    }
  }

  /** What is picked, cluster by cluster: those that the selector selects, in the order of the list. */
  ghost predicate PickedInOrder(s: Selector, clusters: seq<Cluster>, picked: seq<Cluster>, at: seq<nat>) {
    && Ascending(at, |clusters|) && |picked| == |at|
    && (forall n | 0 <= n < |at| :: picked[n] == clusters[at[n]])
    && (forall i: nat | i < |clusters| :: i in at <==> Selects(s, clusters[i].labels))
  }

  lemma PickedStep(s: Selector, clusters: seq<Cluster>, i: nat, picked: seq<Cluster>, at: seq<nat>)
    requires i < |clusters| && Converts(s) && PickedInOrder(s, clusters[..i], picked, at)
    ensures if Matches(s, clusters[i].labels)
            then PickedInOrder(s, clusters[..i + 1], picked + [clusters[i]], at + [i])
            else PickedInOrder(s, clusters[..i + 1], picked, at)
  {
    MatchesByValues(s, clusters[i].labels);
    assert clusters[..i + 1][..i] == clusters[..i];
    assert forall j: nat | j < i :: clusters[..i + 1][j] == clusters[..i][j];
  }

  /**
   * The clusters of a management cluster that a selector picks, in every namespace; None if it does not convert or
   * listing fails.
   */
  method ClusterList(selector: Selector, clusters: Option<seq<Cluster>>) returns (picked: Option<seq<Cluster>>)
    ensures picked == Picked(selector, clusters)
    ensures picked.Some? <==> WellFormed(selector) && clusters.Some?
    ensures picked.Some? ==> exists at :: PickedInOrder(selector, clusters.value, picked.value, at)
  {
    MatchesByValues(selector, map[]);
    if !Converts(selector) || clusters.None? {
      return None;
    }
    var items: seq<Cluster> := [];
    ghost var at: seq<nat> := [];
    for i := 0 to |clusters.value|
      invariant items + Selected(selector, clusters.value[i..]) == Selected(selector, clusters.value)
      invariant PickedInOrder(selector, clusters.value[..i], items, at)
    {
      SelectedStep(selector, clusters.value, i, items);
      PickedStep(selector, clusters.value, i, items, at);
      if Matches(selector, clusters.value[i].labels) {
        items, at := items + [clusters.value[i]], at + [i];
      }
    }
    assert items + [] == items && clusters.value[..|clusters.value|] == clusters.value;
    picked := Some(items);
  }

  function Picked(selector: Selector, clusters: Option<seq<Cluster>>): Option<seq<Cluster>> {
    if !Converts(selector) || clusters.None? then None else Some(Selected(selector, clusters.value))
  }

  function Selected(selector: Selector, clusters: seq<Cluster>): seq<Cluster> {
    if clusters == [] then []
    else (if Matches(selector, clusters[0].labels) then [clusters[0]] else []) + Selected(selector, clusters[1..])
  }

  lemma SelectedStep(selector: Selector, clusters: seq<Cluster>, i: nat, before: seq<Cluster>)
    requires i < |clusters|
    ensures before + Selected(selector, clusters[i..])
         == (if Matches(selector, clusters[i].labels) then before + [clusters[i]] else before) + Selected(selector,
             clusters[i + 1..])
  {
    assert clusters[i..][1..] == clusters[i + 1..];
  }

  lemma {:induction false} SelectedExactly(selector: Selector, clusters: seq<Cluster>, c: Cluster)
    ensures c in Selected(selector, clusters) <==> c in clusters && Matches(selector, c.labels)
  {
    if clusters != [] {
      SelectedExactly(selector, clusters[1..], c);
      assert c in clusters <==> c == clusters[0] || c in clusters[1..];
    }
  }

  function InNamespace(proxies: seq<Listed>, namespace: string): seq<Listed> {
    if proxies == [] then []
    else (if proxies[0].key.namespace == namespace then [proxies[0]] else []) + InNamespace(proxies[1..], namespace)
  }

  lemma {:induction false} InNamespaceExactly(proxies: seq<Listed>, namespace: string, p: Listed)
    ensures p in InNamespace(proxies, namespace) <==> p in proxies && p.key.namespace == namespace
  {
    if proxies != [] {
      InNamespaceExactly(proxies[1..], namespace, p);
      assert p in proxies <==> p == proxies[0] || p in proxies[1..];
    }
  }

  /** The longest prefix of proxies whose selectors convert. */
  function ConvertingPrefix(proxies: seq<Listed>): seq<Listed> {
    if proxies == [] || !Converts(proxies[0].selector) then []
    else [proxies[0]] + ConvertingPrefix(proxies[1..])
  }

  lemma {:induction false} ConvertingPrefixIsLongest(proxies: seq<Listed>)
    ensures var r := ConvertingPrefix(proxies);
            && r <= proxies
            && (forall p | p in r :: Converts(p.selector))
            && (|r| < |proxies| ==> !Converts(proxies[|r|].selector))
  {
    if proxies != [] && Converts(proxies[0].selector) {
      ConvertingPrefixIsLongest(proxies[1..]);
    }
  }

  function MatchingKeys(proxies: seq<Listed>, labels: Labels): seq<Key> {
    if proxies == [] then []
    else (if Matches(proxies[0].selector, labels) then [proxies[0].key] else []) + MatchingKeys(proxies[1..], labels)
  }

  lemma {:induction false} MatchingKeysExactly(proxies: seq<Listed>, labels: Labels, k: Key)
    ensures k in MatchingKeys(proxies, labels) <==>
              exists p :: p in proxies && p.key == k && Matches(p.selector, labels)
  {
    if proxies != [] {
      MatchingKeysExactly(proxies[1..], labels, k);
      assert forall p :: p in proxies <==> p == proxies[0] || p in proxies[1..];
    }
  }

  lemma MatchingKeysStep(proxies: seq<Listed>, i: nat, labels: Labels, before: seq<Key>)
    requires i < |proxies|
    ensures before + MatchingKeys(ConvertingPrefix(proxies[i..]), labels)
         == if !Converts(proxies[i].selector) then before
            else (if Matches(proxies[i].selector, labels) then before + [proxies[i].key] else before)
                 + MatchingKeys(ConvertingPrefix(proxies[i + 1..]), labels)
  {
    assert proxies[i..][1..] == proxies[i + 1..];
    var rest := ConvertingPrefix(proxies[i + 1..]);
    assert ([proxies[i]] + rest)[1..] == rest;
  }

  /**
   * The proxies to wake for a cluster event; a selector that does not convert ends the loop with what was found so far.
   */
  method ClusterToCdk8sAppProxyMapper(o: Option<Cluster>, proxies: Option<seq<Listed>>) returns (results: seq<Key>)
    ensures o.None? || proxies.None? ==> results == []
    ensures o.Some? && proxies.Some? ==> results == Woken(o.value, proxies.value)
    ensures o.Some? && proxies.Some? ==> exists at :: WokenInOrder(o.value, proxies.value, results, at)
  {
    results := [];
    if o.None? || proxies.None? {
      return;
    }
    var cluster := o.value;
    ghost var at := WokenTakes(cluster, proxies.value);
    var items := InNamespace(proxies.value, cluster.key.namespace);
    for i := 0 to |items|
      invariant results + MatchingKeys(ConvertingPrefix(items[i..]), cluster.labels) == Woken(cluster, proxies.value)
    {
      MatchingKeysStep(items, i, cluster.labels, results);
      if !Converts(items[i].selector) {
        return;
      }
      if Matches(items[i].selector, cluster.labels) {
        results := results + [items[i].key];
      }
    }
  }

  /** Whether a proxy is to be woken by a cluster, as far as it and those before it in the list are concerned. */
  ghost predicate WakesAt(cluster: Cluster, proxies: seq<Listed>, i: nat)
    requires i < |proxies|
  {
    && proxies[i].key.namespace == cluster.key.namespace
    && Selects(proxies[i].selector, cluster.labels)
    && forall j | 0 <= j <= i && proxies[j].key.namespace == cluster.key.namespace :: WellFormed(proxies[j].selector)
  }

  /**
   * Who is woken, proxy by proxy and in the order of the list: those of the cluster's namespace that select it, unless
   * one of that namespace with an ill-formed selector is listed before.
   */
  ghost predicate WokenInOrder(cluster: Cluster, proxies: seq<Listed>, woken: seq<Key>, at: seq<nat>) {
    && Ascending(at, |proxies|) && |woken| == |at|
    && (forall n | 0 <= n < |at| :: woken[n] == proxies[at[n]].key)
    && (forall i: nat | i < |proxies| :: i in at <==> WakesAt(cluster, proxies, i))
  }

  lemma WokenStep(cluster: Cluster, proxies: seq<Listed>)
    requires proxies != []
    ensures var p, later := proxies[0], Woken(cluster, proxies[1..]);
            Woken(cluster, proxies) ==
              if p.key.namespace != cluster.key.namespace then later
              else if !Converts(p.selector) then []
              else if Matches(p.selector, cluster.labels) then [p.key] + later
              else later
  {
    var p, rest := proxies[0], InNamespace(proxies[1..], cluster.key.namespace);
    if p.key.namespace != cluster.key.namespace {
      assert InNamespace(proxies, cluster.key.namespace) == [] + rest == rest;
    } else {
      assert InNamespace(proxies, cluster.key.namespace) == [p] + rest && ([p] + rest)[1..] == rest;
      assert ([p] + ConvertingPrefix(rest))[1..] == ConvertingPrefix(rest);
    }
  }

  lemma WakesBehind(cluster: Cluster, proxies: seq<Listed>, i: nat)
    requires 0 < i < |proxies|
    ensures WakesAt(cluster, proxies, i) <==>
              && WakesAt(cluster, proxies[1..], i - 1)
              && (proxies[0].key.namespace == cluster.key.namespace ==> WellFormed(proxies[0].selector))
  {
    assert forall j | 0 < j <= i :: proxies[1..][j - 1] == proxies[j];
    assert forall j | 0 <= j < i :: proxies[1..][j] == proxies[j + 1];
  }

  lemma KeysBehind(proxies: seq<Listed>, later: seq<Key>, at: seq<nat>, taken: bool)
    requires proxies != [] && |later| == |at| && Ascending(at, |proxies| - 1)
    requires forall n | 0 <= n < |at| :: later[n] == proxies[1..][at[n]].key
    ensures var woken, all := if taken then [proxies[0].key] + later else later, After(taken, at);
            && |woken| == |all|
            && forall n | 0 <= n < |all| :: all[n] < |proxies| && woken[n] == proxies[all[n]].key
  {
    var moved := Moved(at);
    assert forall n | 0 <= n < |at| :: moved[n] < |proxies| && later[n] == proxies[moved[n]].key;
  }

  /** One proxy more at the head of the list. */
  lemma WokenInOrderStep(cluster: Cluster, proxies: seq<Listed>, later: seq<Key>, at: seq<nat>, taken: bool)
    requires proxies != [] && WokenInOrder(cluster, proxies[1..], later, at)
    requires proxies[0].key.namespace == cluster.key.namespace ==> WellFormed(proxies[0].selector)
    requires taken <==> WakesAt(cluster, proxies, 0)
    ensures WokenInOrder(cluster, proxies, if taken then [proxies[0].key] + later else later, After(taken, at))
  {
    AfterAscends(taken, at, |proxies| - 1);
    KeysBehind(proxies, later, at, taken);
    forall i: nat | i < |proxies|
      ensures i in After(taken, at) <==> WakesAt(cluster, proxies, i)
    {
      MovedHas(at, i);
      if i > 0 {
        WakesBehind(cluster, proxies, i);
      }
    }
  }

  lemma {:induction false} WokenTakes(cluster: Cluster, proxies: seq<Listed>) returns (at: seq<nat>)
    ensures WokenInOrder(cluster, proxies, Woken(cluster, proxies), at)
  {
    at := [];
    if proxies != [] {
      var p := proxies[0];
      MatchesByValues(p.selector, cluster.labels);
      WokenStep(cluster, proxies);
      if p.key.namespace != cluster.key.namespace || Converts(p.selector) {
        var taken := p.key.namespace == cluster.key.namespace && Matches(p.selector, cluster.labels);
        var later := WokenTakes(cluster, proxies[1..]);
        at := After(taken, later);
        WokenInOrderStep(cluster, proxies, Woken(cluster, proxies[1..]), later, taken);
      }
    }
  }

  function Woken(cluster: Cluster, proxies: seq<Listed>): seq<Key> {
    MatchingKeys(ConvertingPrefix(InNamespace(proxies, cluster.key.namespace)), cluster.labels)
  }

  predicate DistinctKeys(proxies: seq<Listed>) {
    forall i, j | 0 <= i < j < |proxies| :: proxies[i].key != proxies[j].key
  }

  /** What the list of proxies says about one that comes before every selector that fails to convert. */
  lemma InPrefix(proxies: seq<Listed>, namespace: string, p: Listed)
    requires p in ConvertingPrefix(InNamespace(proxies, namespace))
    ensures p in proxies && p.key.namespace == namespace && Converts(p.selector)
  {
    ConvertingPrefixIsLongest(InNamespace(proxies, namespace));
    InNamespaceExactly(proxies, namespace, p);
  }

  /** A woken key belongs to exactly one proxy, which matches. */
  lemma WokenProxy(cluster: Cluster, proxies: seq<Listed>, p: Listed)
    requires DistinctKeys(proxies) && p in proxies && p.key in Woken(cluster, proxies)
    ensures p in ConvertingPrefix(InNamespace(proxies, cluster.key.namespace)) && Matches(p.selector, cluster.labels)
  {
    var prefix := ConvertingPrefix(InNamespace(proxies, cluster.key.namespace));
    MatchingKeysExactly(prefix, cluster.labels, p.key);
    var q :| q in prefix && q.key == p.key && Matches(q.selector, cluster.labels);
    InPrefix(proxies, cluster.key.namespace, q);
    SameKeySameProxy(proxies, p, q);
  }

  /**
   * Within the part of its namespace that converts, a proxy is woken by a cluster exactly if it selects that cluster.
   */
  lemma MapperIsDualToLister(cluster: Cluster, clusters: seq<Cluster>, proxies: seq<Listed>, p: Listed)
    requires cluster in clusters && DistinctKeys(proxies)
    requires p in ConvertingPrefix(InNamespace(proxies, cluster.key.namespace))
    ensures Picked(p.selector, Some(clusters)).Some?
    ensures p.key in Woken(cluster, proxies) <==> cluster in Picked(p.selector, Some(clusters)).value
  {
    InPrefix(proxies, cluster.key.namespace, p);
    SelectedExactly(p.selector, clusters, cluster);
    if p.key in Woken(cluster, proxies) {
      WokenProxy(cluster, proxies, p);
    } else {
      MatchingKeysExactly(ConvertingPrefix(InNamespace(proxies, cluster.key.namespace)), cluster.labels, p.key);
    }
  }

  lemma SameKeySameProxy(proxies: seq<Listed>, p: Listed, q: Listed)
    requires DistinctKeys(proxies) && p in proxies && q in proxies && p.key == q.key
    ensures p == q
  {
    var i :| 0 <= i < |proxies| && proxies[i] == p;
    var j :| 0 <= j < |proxies| && proxies[j] == q;
    assert i == j;
  }

  /**
   * "Every proxy that selects a cluster is woken by its events" is false: the lister looks into every namespace, the
   * mapper into one, and stops early. It holds exactly for a proxy in the cluster's namespace with no selector that
   * fails to convert at or before its place in that namespace's list.
   */
  lemma SelectedProxyIsWokenExactly(cluster: Cluster, clusters: seq<Cluster>, proxies: seq<Listed>, p: Listed)
    requires cluster in clusters && DistinctKeys(proxies) && p in proxies
    requires Picked(p.selector, Some(clusters)).Some? && cluster in Picked(p.selector, Some(clusters)).value
    ensures p.key in Woken(cluster, proxies) <==>
              && p.key.namespace == cluster.key.namespace
              && p in ConvertingPrefix(InNamespace(proxies, cluster.key.namespace))
  {
    if p.key in Woken(cluster, proxies) {
      WokenProxy(cluster, proxies, p);
      InPrefix(proxies, cluster.key.namespace, p);
    }
    if p in ConvertingPrefix(InNamespace(proxies, cluster.key.namespace)) {
      MapperIsDualToLister(cluster, clusters, proxies, p);
    }
  }

  /** A proxy in another namespace that selects a cluster and is never woken by it. */
  lemma OtherNamespaceNotWoken()
    ensures var cluster := Cluster(Key("a", "c"), map[]);
            var p := Listed(Key("b", "p"), Selector(map[], []));
            cluster in Picked(p.selector, Some([cluster])).value && p.key !in Woken(cluster, [p])
  {
    var cluster := Cluster(Key("a", "c"), map[]);
    var p := Listed(Key("b", "p"), Selector(map[], []));
    assert Matches(p.selector, cluster.labels) && cluster in [cluster];
    assert InNamespace([p], "a") == InNamespace([], "a") == [];
  }
}
