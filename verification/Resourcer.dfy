/** Applying resources to the selected clusters and checking that they exist there. */
module Resourcer {
  import opened Wrappers
  import opened Text
  import opened Api

  datatype Manifest = Manifest(groupVersion: string, kind: string, namespace: string, name: string, body: string)

  /** Where an API server keeps an object; an empty namespace is the cluster scope. */
  datatype Address = Address(groupVersion: string, plural: string, namespace: string, name: string)

  function PluralOf(kind: string): string {
    var lower := ToLower(kind);
    if HasSuffix(lower, "s") then lower + "es"
    else if HasSuffix(lower, "y") then TrimSuffix(lower, "y") + "ies"
    else lower + "s"
  }

  /** A plural without its final "s". */
  function Stem(lower: string): string {
    if HasSuffix(lower, "s") then lower + "e"
    else if HasSuffix(lower, "y") then lower[..|lower| - 1] + "ie"
    else lower
  }

  /** The one ends in "y" or "s" and the other is what its plural looks like the plural of. */
  predicate Clashes(lower: string, other: string) {
    (HasSuffix(lower, "y") || HasSuffix(lower, "s")) && other == Stem(lower)
  }

  lemma StemOfPlural(kind: string)
    ensures PluralOf(kind) == Stem(ToLower(kind)) + "s"
  {
    var lower := ToLower(kind);
    assert lower + "es" == lower + "e" + "s";
    if HasSuffix(lower, "y") {
      assert lower[..|lower| - 1] + "ies" == lower[..|lower| - 1] + "ie" + "s";
    }
  }

  lemma EndsIn(s: string, c: char)
    ensures HasSuffix(s, [c]) <==> s != "" && s[|s| - 1] == c
    ensures HasSuffix(s, [c]) ==> s == s[..|s| - 1] + [c]
  {
    if s != "" {
      assert s[|s| - 1..] == [s[|s| - 1]];
    }
  }

  lemma StemTail(lower: string)
    ensures HasSuffix(lower, "s") ==> |Stem(lower)| >= 2 && Stem(lower)[|Stem(lower)| - 2] == 's'
    ensures HasSuffix(lower, "y") ==> |Stem(lower)| >= 2 && Stem(lower)[|Stem(lower)| - 2] == 'i'
  {
    EndsIn(lower, 's');
    EndsIn(lower, 'y');
  }

  lemma SharedStem(a: string, b: string)
    requires Stem(a) == Stem(b)
    ensures a == b || Clashes(a, b) || Clashes(b, a)
  {
    EndsIn(a, 's');
    EndsIn(a, 'y');
    EndsIn(b, 's');
    EndsIn(b, 'y');
    StemTail(a);
    StemTail(b);
    var x, y := Stem(a), Stem(b);
    if HasSuffix(a, "s") && HasSuffix(b, "s") {
      assert a == x[..|x| - 1] == y[..|y| - 1] == b;
    } else if HasSuffix(a, "y") && HasSuffix(b, "y") {
      assert a[..|a| - 1] == x[..|x| - 2] == y[..|y| - 2] == b[..|b| - 1];
    }
  }

  /** The naive plural gives two kinds one address exactly if they differ in case only or are such a pair. */
  lemma SharedPluralExactly(kind: string, other: string)
    ensures var a, b := ToLower(kind), ToLower(other);
            PluralOf(kind) == PluralOf(other) <==> a == b || Clashes(a, b) || Clashes(b, a)
  {
    var a, b := ToLower(kind), ToLower(other);
    StemOfPlural(kind);
    StemOfPlural(other);
    if PluralOf(kind) == PluralOf(other) {
      assert Stem(a) == PluralOf(kind)[..|PluralOf(kind)| - 1] == Stem(b);
      SharedStem(a, b);
    } else if Clashes(a, b) {
      StemIsPlain(a);
    } else if Clashes(b, a) {
      StemIsPlain(b);
    }
  }

  /** Neither suffix ends a stem that was changed. */
  lemma StemIsPlain(lower: string)
    ensures HasSuffix(lower, "s") || HasSuffix(lower, "y") ==> Stem(Stem(lower)) == Stem(lower)
  {
    EndsIn(Stem(lower), 's');
    EndsIn(Stem(lower), 'y');
  }

  /** How many letters of a kind its plural keeps, and what it ends in, by the kind's own last letter. */
  function EndingOf(kind: string): (ending: (nat, string))
    ensures ending.0 <= |kind| && ending.1 in ["s", "es", "ies"]
  {
    var n := |kind|;
    if n > 0 && (kind[n - 1] == 's' || kind[n - 1] == 'S') then (n, "es")
    else if n > 0 && (kind[n - 1] == 'y' || kind[n - 1] == 'Y') then (n - 1, "ies")
    else (n, "s")
  }

  lemma PluralIs(kind: string)
    ensures PluralOf(kind) == ToLower(kind)[..EndingOf(kind).0] + EndingOf(kind).1
  {
    var lower := ToLower(kind);
    EndsIn(lower, 's');
    EndsIn(lower, 'y');
    assert lower[..|lower|] == lower;
    if kind == "" {
      assert PluralOf(kind) == lower + "s";
    } else {
      assert HasSuffix(lower, "s") <==> kind[|kind| - 1] == 's' || kind[|kind| - 1] == 'S';
      assert HasSuffix(lower, "y") <==> kind[|kind| - 1] == 'y' || kind[|kind| - 1] == 'Y';
    }
  }

  lemma NoCapitals(s: string, n: nat, ending: string)
    requires n <= |s| && (forall i | 0 <= i < |s| :: !('A' <= s[i] <= 'Z')) && ending in ["s", "es", "ies"]
    ensures forall i | 0 <= i < |s[..n] + ending| :: !('A' <= (s[..n] + ending)[i] <= 'Z')
  {
  }

  /**
   * An address in letters: group, version, namespace and name as the manifest has them, and the kind in lower case with
   * an ending after its last letter.
   */
  lemma AddressInLetters(m: Manifest)
    ensures var (kept, ending) := EndingOf(m.kind);
            var a := AddressOf(m);
            && a.groupVersion == m.groupVersion && a.namespace == m.namespace && a.name == m.name
            && |a.plural| == kept + |ending| && a.plural[kept..] == ending
            && (forall i | 0 <= i < |a.plural| :: !('A' <= a.plural[i] <= 'Z'))
            && (forall i | 0 <= i < kept ::
                  if 'A' <= m.kind[i] <= 'Z' then a.plural[i] as int == m.kind[i] as int + 32
                  else a.plural[i] == m.kind[i])
  {
    PluralIs(m.kind);
    NoCapitals(ToLower(m.kind), EndingOf(m.kind).0, EndingOf(m.kind).1);
  }

  function AddressOf(m: Manifest): Address {
    Address(m.groupVersion, PluralOf(m.kind), m.namespace, m.name)
  }

  type Contents = map<Address, Manifest>

  datatype Connection = Connected | Unreachable | NilClient

  /** A kubeconfig secret: whether it is read, its "value" entry, whether that parses and yields a client. */
  datatype Kubeconfig = Kubeconfig(readable: bool, value: Option<string>, parses: bool, builds: bool)

  /** The secret is there, but its "value" entry is missing or empty. */
  predicate Valueless(config: Kubeconfig) {
    config.readable && (config.value.None? || config.value == Some(""))
  }

  /** The secret has a value that parses and yields a client. */
  predicate Usable(config: Kubeconfig) {
    config.readable && config.value.Some? && config.value != Some("") && config.parses && config.builds
  }

  /** A missing or empty "value" entry yields neither a client nor an error. */
  function ClusterClient(config: Kubeconfig): (c: Connection)
    ensures c == NilClient <==> Valueless(config)
    ensures c == Connected <==> Usable(config)
  {
    if !config.readable then Unreachable
    else if config.value.None? || config.value.value == "" then NilClient
    else if !config.parses || !config.builds then Unreachable
    else Connected
  }

  datatype Probe = Found | Absent | Broken

  datatype Event =
    | ApplyListed(clusters: seq<Key>)
    | ApplySent(cluster: Key, address: Address, accepted: bool)
    | CheckListed(clusters: seq<Key>)
    | Looked(cluster: Key, address: Address, outcome: Probe)

  datatype ApplyResult = Applied | NotListed | ApplyPanicked

  datatype CheckResult = Checked(missing: bool) | CheckFailed | CheckPanicked

  function At(world: map<Key, Contents>, cluster: Key): Contents {
    if cluster in world then world[cluster] else map[]
  }

  /** The foreign outcomes of one pass over clusters and resources, by their positions in the lists. */
  datatype ApplyWorld = ApplyWorld(listing: Option<seq<Key>>, config: nat -> Kubeconfig, accepts: (nat, nat) -> bool)

  /** Client and resource of one position cannot be served: the loops stop at such a cluster. */
  predicate Blocks(config: nat -> Kubeconfig, resources: seq<Manifest>, i: nat) {
    !Usable(config(i)) && (Valueless(config(i)) ==> resources != [])
  }

  datatype CheckWorld = CheckWorld(listing: Option<seq<Key>>, config: nat -> Kubeconfig, probe: (nat, nat) -> Probe)

  class Fleet {
    var clusters: map<Key, Contents>
    var events: seq<Event>

    constructor (clusters: map<Key, Contents>)
      ensures this.clusters == clusters && events == []
    {
      this.clusters, events := clusters, [];
    }

    /** One apply call: an accepted resource is there afterwards, in place of what was at its address. */
    method Send(cluster: Key, resource: Manifest, accepted: bool)
      modifies this
      ensures events == old(events) + [ApplySent(cluster, AddressOf(resource), accepted)]
      ensures clusters == if accepted then old(clusters)[cluster := At(old(clusters), cluster)[AddressOf(resource)
                := resource]] else old(clusters)
    {
      var address := NamespacedAt(resource, resource.namespace);
      events := events + [ApplySent(cluster, address, accepted)];
      if accepted {
        clusters := clusters[cluster := At(clusters, cluster)[address := resource]];
      }
    }

    /** The inner loop of Apply: it ends at the first refused resource, and the first one panics on a nil client. */
    method ApplyTo(w: ApplyWorld, i: nat, c: Connection, resources: seq<Manifest>, ghost before: seq<Event>)
      returns (panicked: bool)
      requires w.listing.Some? && i < |w.listing.value| && c == ClusterClient(w.config(i)) && c != Unreachable
      requires SentSince(before, events, w, resources, i, 0)
      modifies this
      ensures panicked <==> c == NilClient && resources != []
      ensures clusters == Delivered(old(clusters), w.listing.value[i], resources[..Received(w, |resources|, i)])
      ensures SentSince(before, events, w, resources, if panicked then i else i + 1, 0)
    {
      var cluster := w.listing.value[i];
      if c == NilClient || resources == [] {
        NothingDue(before, events, w, resources, i);
      }
      for j := 0 to |resources|
        invariant c == NilClient ==> j == 0
        invariant clusters == Delivered(old(clusters), cluster, resources[..j])
        invariant Reached(w.accepts, i, |resources|, j) == Reached(w.accepts, i, |resources|, 0)
        invariant SentSince(before, events, w, resources, i, j)
        invariant j == |resources| ==> SentSince(before, events, w, resources, i + 1, 0)
      {
        if c == NilClient {
          return true;
        }
        SentGrows(before, events, w, resources, i, j);
        Send(cluster, resources[j], w.accepts(i, j));
        if !w.accepts(i, j) {
          break;
        }
        DeliveredStep(old(clusters), cluster, resources, j);
      }
      panicked := false;
    }

    /**
     * The nested loops of Apply. The error of the inner scope is shadowed: once the clusters are listed, no failure
     * is reported, whatever was left out.
     */
    method Apply(w: ApplyWorld, resources: seq<Manifest>) returns (r: ApplyResult)
      modifies this
      ensures r == ApplyVerdict(w, resources) && (r == NotListed <==> w.listing.None?)
      ensures clusters == (if w.listing.None? then old(clusters) else ApplyFrom(old(clusters), w.listing.value,
                resources, w, 0))
      ensures if w.listing.None? then events == old(events)
              else SentSince(old(events), events, w, resources, FirstBlocked(w.config, resources, |w.listing.value|,
                  0), 0)
    {
      if w.listing.None? {
        return NotListed;
      }
      var items := w.listing.value;
      events := events + [ApplyListed(items)];
      for i := 0 to |items|
        invariant ApplyFrom(clusters, items, resources, w, i) == ApplyFrom(old(clusters), items, resources, w, 0)
        invariant FirstBlocked(w.config, resources, |items|, i) == FirstBlocked(w.config, resources, |items|, 0)
        invariant SentSince(old(events), events, w, resources, i, 0)
      {
        var c := ClusterClient(w.config(i));
        if c == Unreachable {
          break;
        }
        var panicked := ApplyTo(w, i, c, resources, old(events));
        if panicked {
          return ApplyPanicked;
        }
      }
      r := Applied;
    }

    /** One lookup, namespaced or in the cluster scope: either way at the address Apply uses. */
    method Look(cluster: Key, resource: Manifest, outcome: Probe)
      modifies this`events
      ensures events == old(events) + [Looked(cluster, AddressOf(resource), outcome)]
    {
      var ns := resource.namespace;
      var address;
      if ns != "" {
        address := NamespacedAt(resource, ns);
      } else {
        address := ClusterScopedAt(resource);
      }
      events := events + [Looked(cluster, address, outcome)];
    }

    /** The nested loops of Check, with the flag that stays set once a resource is missing. */
    method Check(w: CheckWorld, resources: seq<Manifest>) returns (r: CheckResult)
      modifies this`events
      ensures r == CheckVerdict(w, resources)
      ensures LookedUp(old(events), events, w, resources, r == Checked(false))
    {
      var missing := false;
      if w.listing.None? {
        return CheckFailed;
      }
      var items := w.listing.value;
      events := events + [CheckListed(items)];
      ghost var seen := [CheckListed(items)];
      for i := 0 to |items|
        invariant events == old(events) + seen && LookupsOf(seen, items)
        invariant CheckFrom(w, |items|, resources, i, missing) == CheckVerdict(w, resources)
        invariant !missing ==> FoundBefore(seen, items, resources, i, 0)
      {
        var c := ClusterClient(w.config(i));
        if c == Unreachable {
          AllLookups(old(events), seen, w, resources, false);
          return CheckFailed;
        }
        ghost var flag := missing;
        for j := 0 to |resources|
          invariant c == NilClient ==> j == 0
          invariant events == old(events) + seen && LookupsOf(seen, items)
          invariant Scan(w.probe, i, |resources|, j, missing) == Scan(w.probe, i, |resources|, 0, flag)
          invariant !missing ==> FoundBefore(seen, items, resources, i, j)
        {
          if c == NilClient {
            AllLookups(old(events), seen, w, resources, false);
            return CheckPanicked;
          }
          var outcome := w.probe(i, j);
          Look(items[i], resources[j], outcome);
          FoundGrows(seen, items, resources, i, j);
          seen := seen + [Looked(items[i], AddressOf(resources[j]), outcome)];
          if outcome != Found {
            if outcome == Absent {
              missing := true;
              continue;
            }
            AllLookups(old(events), seen, w, resources, false);
            return CheckFailed;
          }
        }
      }
      AllLookups(old(events), seen, w, resources, !missing);
      r := Checked(missing);
    }
  }

  /** A resource is sent to a cluster that has a client and refused none before it. */
  ghost predicate Due(w: ApplyWorld, i: nat, j: nat) {
    Usable(w.config(i)) && forall l: nat | l < j :: w.accepts(i, l)
  }

  /**
   * What an apply adds to the events: a listing and apply calls, among these one for everything due at a position of
   * the two loops before (i, j), to its cluster and address.
   */
  ghost predicate SentSince(before: seq<Event>, events: seq<Event>, w: ApplyWorld, resources: seq<Manifest>, i: nat,
                            j: nat)
    requires w.listing.Some?
  {
    && before <= events
    && var sent := events[|before|..];
       && ApplyListed(w.listing.value) in sent && (forall e | e in sent :: e.ApplyListed? || e.ApplySent?)
       && forall m: nat, n: nat | m < |w.listing.value| && n < |resources| && (m < i || (m == i && n < j)) &&
              Due(w, m, n) ::
            ApplySent(w.listing.value[m], AddressOf(resources[n]), w.accepts(m, n)) in sent
  }

  lemma SentGrows(before: seq<Event>, events: seq<Event>, w: ApplyWorld, resources: seq<Manifest>, i: nat, j: nat)
    requires w.listing.Some? && i < |w.listing.value| && j < |resources|
    requires SentSince(before, events, w, resources, i, j)
    ensures var more := events + [ApplySent(w.listing.value[i], AddressOf(resources[j]), w.accepts(i, j))];
            && SentSince(before, more, w, resources, i, j + 1)
            && (!w.accepts(i, j) || j + 1 == |resources| ==> SentSince(before, more, w, resources, i + 1, 0))
  {
    var e := ApplySent(w.listing.value[i], AddressOf(resources[j]), w.accepts(i, j));
    assert (events + [e])[|before|..] == events[|before|..] + [e];
  }

  /** Nothing is due without a client or without resources. */
  lemma NothingDue(before: seq<Event>, events: seq<Event>, w: ApplyWorld, resources: seq<Manifest>, i: nat)
    requires w.listing.Some? && (!Usable(w.config(i)) || resources == [])
    requires SentSince(before, events, w, resources, i, 0)
    ensures SentSince(before, events, w, resources, i + 1, 0)
  {
  }

  /** What a check adds to the events: lookups only, and if it saw everything, a lookup that found it for everything. */
  ghost predicate LookedUp(before: seq<Event>, after: seq<Event>, w: CheckWorld, resources: seq<Manifest>,
          complete: bool) {
    && before <= after
    && (forall e | e in after[|before|..] :: e.CheckListed? || e.Looked?)
    && (complete ==> SawAll(after[|before|..], w, resources))
  }

  lemma AllLookups(before: seq<Event>, seen: seq<Event>, w: CheckWorld, resources: seq<Manifest>, complete: bool)
    requires w.listing.Some? && LookupsOf(seen, w.listing.value)
    requires complete ==> FoundBefore(seen, w.listing.value, resources, |w.listing.value|, 0)
    ensures LookedUp(before, before + seen, w, resources, complete)
  {
    assert (before + seen)[|before|..] == seen;
  }

  /** A listing and lookups, nothing else. */
  ghost predicate LookupsOf(events: seq<Event>, items: seq<Key>) {
    CheckListed(items) in events && forall e | e in events :: e.CheckListed? || e.Looked?
  }

  /** Every position of the two loops before (i, j) was looked up and found. */
  ghost predicate FoundBefore(events: seq<Event>, items: seq<Key>, resources: seq<Manifest>, i: int, j: int) {
    forall m, n | 0 <= m < |items| && 0 <= n < |resources| && (m < i || (m == i && n < j)) ::
      Looked(items[m], AddressOf(resources[n]), Found) in events
  }

  /** Every selected cluster was asked for every resource, at the address Apply uses, and had it. */
  ghost predicate SawAll(events: seq<Event>, w: CheckWorld, resources: seq<Manifest>) {
    && w.listing.Some?
    && CheckListed(w.listing.value) in events
    && forall i, j | 0 <= i < |w.listing.value| && 0 <= j < |resources| ::
         Looked(w.listing.value[i], AddressOf(resources[j]), Found) in events
  }

  lemma FoundGrows(events: seq<Event>, items: seq<Key>, resources: seq<Manifest>, i: nat, j: nat)
    requires i < |items| && j < |resources|
    ensures FoundBefore(events, items, resources, i, j) ==>
              var more := events + [Looked(items[i], AddressOf(resources[j]), Found)];
              && FoundBefore(more, items, resources, i, j + 1)
              && (j + 1 == |resources| ==> FoundBefore(more, items, resources, i + 1, 0))
  {
  }

  function NamespacedAt(m: Manifest, namespace: string): Address {
    Address(m.groupVersion, PluralOf(m.kind), namespace, m.name)
  }

  function ClusterScopedAt(m: Manifest): Address {
    Address(m.groupVersion, PluralOf(m.kind), "", m.name)
  }

  // ------------------------------------------------------------------ Apply

  function Overlay(c: Contents, resources: seq<Manifest>): Contents {
    if resources == [] then c
    else
      var last := resources[|resources| - 1];
      Overlay(c, resources[..|resources| - 1])[AddressOf(last) := last]
  }

  /** One cluster after some resources went to it. */
  function Delivered(world: map<Key, Contents>, cluster: Key, resources: seq<Manifest>): (after: map<Key, Contents>)
    ensures At(after, cluster) == Overlay(At(world, cluster), resources)
    ensures forall c | c != cluster :: At(after, c) == At(world, c)
  {
    if resources == [] then world else world[cluster := Overlay(At(world, cluster), resources)]
  }

  lemma DeliveredStep(world: map<Key, Contents>, cluster: Key, resources: seq<Manifest>, j: nat)
    requires j < |resources|
    ensures Delivered(world, cluster, resources[..j + 1])
         == (var before := Delivered(world, cluster, resources[..j]);
             before[cluster := At(before, cluster)[AddressOf(resources[j]) := resources[j]]])
  {
    assert resources[..j + 1][..j] == resources[..j];
  }

  /** The position of the first refused resource at or after j. */
  function Reached(accepts: (nat, nat) -> bool, i: nat, n: nat, j: nat): (k: nat)
    requires j <= n
    ensures j <= k <= n
    ensures forall m | j <= m < k :: accepts(i, m)
    ensures k < n ==> !accepts(i, k)
    decreases n - j
  {
    if j == n || !accepts(i, j) then j else Reached(accepts, i, n, j + 1)
  }

  /** The position of the first cluster at or after i that stops the loop. */
  function FirstBlocked(config: nat -> Kubeconfig, resources: seq<Manifest>, n: nat, i: nat): (k: nat)
    requires i <= n
    ensures i <= k <= n
    ensures forall m | i <= m < k :: !Blocks(config, resources, m)
    ensures k < n ==> Blocks(config, resources, k)
    decreases n - i
  {
    if i == n || Blocks(config, resources, i) then i else FirstBlocked(config, resources, n, i + 1)
  }

  function ApplyVerdict(w: ApplyWorld, resources: seq<Manifest>): ApplyResult {
    if w.listing.None? then NotListed
    else
      var stop := FirstBlocked(w.config, resources, |w.listing.value|, 0);
      if stop < |w.listing.value| && ClusterClient(w.config(stop)) == NilClient then ApplyPanicked else Applied
  }

  /** How many resources a cluster that does not stop the loop receives. */
  function Received(w: ApplyWorld, n: nat, i: nat): nat {
    if ClusterClient(w.config(i)) == Connected then Reached(w.accepts, i, n, 0) else 0
  }

  function ApplyFrom(world: map<Key, Contents>, items: seq<Key>, resources: seq<Manifest>, w: ApplyWorld,
                     i: nat): map<Key, Contents>
    decreases |items| - i
  {
    if i >= |items| || Blocks(w.config, resources, i) then world
    else
      ApplyFrom(Delivered(world, items[i], resources[..Received(w, |resources|, i)]), items, resources, w, i + 1)
  }

  ghost predicate Distinct(items: seq<Key>) {
    forall m, n | 0 <= m < n < |items| :: items[m] != items[n]
  }

  lemma {:induction false} ApplySkips(world: map<Key, Contents>, items: seq<Key>, resources: seq<Manifest>,
                          w: ApplyWorld, i: nat, c: Key)
    requires i <= |items| && forall m | i <= m < FirstBlocked(w.config, resources, |items|, i) :: items[m] != c
    ensures At(ApplyFrom(world, items, resources, w, i), c) == At(world, c)
    decreases |items| - i
  {
    if i < |items| && !Blocks(w.config, resources, i) {
      var next := Delivered(world, items[i], resources[..Received(w, |resources|, i)]);
      assert At(next, c) == At(world, c);
      ApplySkips(next, items, resources, w, i + 1, c);
    }
  }

  lemma {:induction false} ApplyReaches(world: map<Key, Contents>, items: seq<Key>, resources: seq<Manifest>,
                          w: ApplyWorld, i: nat, m: nat)
    requires i <= m < |items| && m < FirstBlocked(w.config, resources, |items|, i) && Distinct(items)
    ensures At(ApplyFrom(world, items, resources, w, i), items[m])
         == Overlay(At(world, items[m]), resources[..Received(w, |resources|, m)])
    decreases |items| - i
  {
    var next := Delivered(world, items[i], resources[..Received(w, |resources|, i)]);
    assert ApplyFrom(world, items, resources, w, i) == ApplyFrom(next, items, resources, w, i + 1);
    if i == m {
      ApplySkips(next, items, resources, w, i + 1, items[m]);
    } else {
      ApplyReaches(next, items, resources, w, i + 1, m);
    }
  }

  /**
   * The exact effect of Apply: the longest accepted prefix on each cluster before the first that blocks, nothing
   * elsewhere.
   */
  lemma ApplyEffect(world: map<Key, Contents>, items: seq<Key>, resources: seq<Manifest>, w: ApplyWorld)
    requires Distinct(items)
    ensures var after, stop := ApplyFrom(world, items, resources, w, 0), FirstBlocked(w.config, resources, |items|, 0);
            && (forall m | 0 <= m < stop ::
                  At(after, items[m]) == Overlay(At(world, items[m]), resources[..Received(w, |resources|, m)]))
            && (forall c | c !in items[..stop] :: At(after, c) == At(world, c))
  {
    var after, stop := ApplyFrom(world, items, resources, w, 0), FirstBlocked(w.config, resources, |items|, 0);
    forall m | 0 <= m < stop
      ensures At(after, items[m]) == Overlay(At(world, items[m]), resources[..Received(w, |resources|, m)])
    {
      ApplyReaches(world, items, resources, w, 0, m);
    }
    forall c | c !in items[..stop]
      ensures At(after, c) == At(world, c)
    {
      assert forall m | 0 <= m < stop :: items[m] == items[..stop][m];
      ApplySkips(world, items, resources, w, 0, c);
    }
  }

  /** The last resource with an address. */
  function LastAt(resources: seq<Manifest>, a: Address): (m: Option<Manifest>)
    ensures m.Some? <==> exists j | 0 <= j < |resources| :: AddressOf(resources[j]) == a
    ensures m.Some? ==> AddressOf(m.value) == a && m.value in resources
  {
    if resources == [] then None
    else
      var last := resources[|resources| - 1];
      if AddressOf(last) == a then Some(last) else LastAt(resources[..|resources| - 1], a)
  }

  /** None with that address comes later. */
  lemma {:induction false} LastIsLast(resources: seq<Manifest>, j: nat)
    requires j < |resources| && forall l | j < l < |resources| :: AddressOf(resources[l]) != AddressOf(resources[j])
    ensures LastAt(resources, AddressOf(resources[j])) == Some(resources[j])
  {
    if j < |resources| - 1 {
      LastIsLast(resources[..|resources| - 1], j);
    }
  }

  /** When addresses repeat, the last manifest wins; everything else stays. */
  lemma {:induction false} LastManifestWins(c: Contents, resources: seq<Manifest>, a: Address)
    ensures var after := Overlay(c, resources);
            match LastAt(resources, a)
            case Some(m) => a in after && after[a] == m
            case None => (a in after <==> a in c) && (a in c ==> after[a] == c[a])
  {
    if resources != [] {
      LastManifestWins(c, resources[..|resources| - 1], a);
    }
  }

  lemma OverlayRepairs(c: Contents, resources: seq<Manifest>, k: nat)
    requires k <= |resources|
    ensures Overlay(Overlay(c, resources[..k]), resources) == Overlay(c, resources)
  {
    var partial := Overlay(c, resources[..k]);
    forall a
      ensures a in Overlay(partial, resources) <==> a in Overlay(c, resources)
      ensures a in Overlay(c, resources) ==> Overlay(partial, resources)[a] == Overlay(c, resources)[a]
    {
      LastManifestWins(partial, resources, a);
      LastManifestWins(c, resources, a);
      LastManifestWins(c, resources[..k], a);
      if LastAt(resources[..k], a).Some? {
        assert LastAt(resources[..k], a).value in resources;
      }
    }
  }

  /** No client and no apply call fails. */
  ghost predicate Clean(w: ApplyWorld, items: seq<Key>, resources: seq<Manifest>) {
    && (forall i | 0 <= i < |items| :: Usable(w.config(i)))
    && (forall i, j | 0 <= i < |items| && 0 <= j < |resources| :: w.accepts(i, j))
  }

  lemma CleanReceivesAll(w: ApplyWorld, items: seq<Key>, resources: seq<Manifest>)
    requires Clean(w, items, resources)
    ensures FirstBlocked(w.config, resources, |items|, 0) == |items|
    ensures forall i | 0 <= i < |items| :: Received(w, |resources|, i) == |resources|
  {
  }

  /**
   * A clean run after any earlier run, failed or not, leaves exactly what a clean run alone would: re-applying changes
   * nothing.
   */
  lemma CleanRunRepairs(world: map<Key, Contents>, items: seq<Key>, resources: seq<Manifest>,
                        earlier: ApplyWorld, w: ApplyWorld, c: Key)
    requires Clean(w, items, resources) && Distinct(items)
    ensures At(ApplyFrom(ApplyFrom(world, items, resources, earlier, 0), items, resources, w, 0), c)
         == At(ApplyFrom(world, items, resources, w, 0), c)
  {
    var dirty := ApplyFrom(world, items, resources, earlier, 0);
    ApplyEffect(world, items, resources, earlier);
    ApplyEffect(world, items, resources, w);
    ApplyEffect(dirty, items, resources, w);
    CleanReceivesAll(w, items, resources);
    assert resources[..|resources|] == resources;
    if c in items {
      var m :| 0 <= m < |items| && items[m] == c;
      if m < FirstBlocked(earlier.config, resources, |items|, 0) {
        OverlayRepairs(At(world, c), resources, Received(earlier, |resources|, m));
      } else {
        assert c !in items[..FirstBlocked(earlier.config, resources, |items|, 0)];
      }
    }
  }

  // ------------------------------------------------------------------ Check

  /** The remaining lookups on one cluster: None if one breaks, else the flag they leave. */
  function Scan(probe: (nat, nat) -> Probe, i: nat, n: nat, j: nat, missing: bool): Option<bool>
    decreases n - j
  {
    if j >= n then Some(missing)
    else if probe(i, j) == Broken then None
    else Scan(probe, i, n, j + 1, missing || probe(i, j) == Absent)
  }

  function CheckFrom(w: CheckWorld, n: nat, resources: seq<Manifest>, i: nat, missing: bool): CheckResult
    decreases n - i
  {
    if i >= n then Checked(missing)
    else
      match ClusterClient(w.config(i))
      case Unreachable => CheckFailed
      case NilClient => if resources != [] then CheckPanicked else CheckFrom(w, n, resources, i + 1, missing)
      case Connected =>
        match Scan(w.probe, i, |resources|, 0, missing)
        case None => CheckFailed
        case Some(flag) => CheckFrom(w, n, resources, i + 1, flag)
  }

  function CheckVerdict(w: CheckWorld, resources: seq<Manifest>): CheckResult {
    if w.listing.None? then CheckFailed else CheckFrom(w, |w.listing.value|, resources, 0, false)
  }

  lemma {:induction false} ScanExact(probe: (nat, nat) -> Probe, i: nat, n: nat, j: nat, missing: bool)
    requires j <= n
    ensures Scan(probe, i, n, j, missing).Some? <==> forall m | j <= m < n :: probe(i, m) != Broken
    ensures Scan(probe, i, n, j, missing).Some? ==>
              (Scan(probe, i, n, j, missing).value <==> missing || exists m | j <= m < n :: probe(i, m) == Absent)
    decreases n - j
  {
    if j < n && probe(i, j) != Broken {
      ScanExact(probe, i, n, j + 1, missing || probe(i, j) == Absent);
    }
  }

  lemma {:induction false} CheckFromExact(w: CheckWorld, n: nat, resources: seq<Manifest>, i: nat, missing: bool)
    requires i <= n
    ensures CheckFrom(w, n, resources, i, missing).Checked? <==>
              && (forall m | i <= m < n :: !Blocks(w.config, resources, m))
              && (forall m, j | i <= m < n && 0 <= j < |resources| :: w.probe(m, j) != Broken)
    ensures CheckFrom(w, n, resources, i, missing).Checked? ==>
              (CheckFrom(w, n, resources, i, missing).missing <==>
                 missing || exists m, j | i <= m < n && 0 <= j < |resources| :: w.probe(m, j) == Absent)
    decreases n - i
  {
    if i < n && !Blocks(w.config, resources, i) {
      ScanExact(w.probe, i, |resources|, 0, missing);
      if ClusterClient(w.config(i)) == NilClient {
        CheckFromExact(w, n, resources, i + 1, missing);
      } else {
        var flag := Scan(w.probe, i, |resources|, 0, missing);
        if flag.Some? {
          CheckFromExact(w, n, resources, i + 1, flag.value);
        }
      }
    }
  }

  /**
   * Check comes to an end exactly if no cluster blocks and no lookup breaks, and reports "nothing missing" exactly if,
   * on top of that, every lookup finds its resource.
   */
  lemma NothingMissingExactly(w: CheckWorld, resources: seq<Manifest>)
    ensures CheckVerdict(w, resources).Checked? <==>
              && w.listing.Some?
              && (forall i | 0 <= i < |w.listing.value| :: !Blocks(w.config, resources, i))
              && (forall i, j | 0 <= i < |w.listing.value| && 0 <= j < |resources| :: w.probe(i, j) != Broken)
    ensures CheckVerdict(w, resources) == Checked(false) <==>
              && w.listing.Some?
              && (forall i | 0 <= i < |w.listing.value| :: !Blocks(w.config, resources, i))
              && (forall i, j | 0 <= i < |w.listing.value| && 0 <= j < |resources| :: w.probe(i, j) == Found)
  {
    if w.listing.Some? {
      CheckFromExact(w, |w.listing.value|, resources, 0, false);
    }
  }

  // ------------------------------------------------------------------ panics

  /** The loops get to a cluster without a client, every cluster before it having one. */
  ghost predicate ReachesNil(config: nat -> Kubeconfig, n: nat, m: nat) {
    && m < n && Valueless(config(m))
    && forall l | 0 <= l < m :: Usable(config(l))
  }

  /**
   * Apply panics exactly if there is a resource and the loop reaches a cluster without a client; refused resources do
   * not matter.
   */
  lemma ApplyPanicsExactly(w: ApplyWorld, resources: seq<Manifest>)
    ensures ApplyVerdict(w, resources) == ApplyPanicked <==>
              w.listing.Some? && resources != [] && exists m: nat :: ReachesNil(w.config, |w.listing.value|, m)
  {
    if w.listing.Some? && resources != [] {
      var n := |w.listing.value|;
      var stop := FirstBlocked(w.config, resources, n, 0);
      forall m: nat | ReachesNil(w.config, n, m)
        ensures m == stop
      {
        assert Blocks(w.config, resources, m);
        assert stop <= m && Blocks(w.config, resources, stop);
      }
      if ApplyVerdict(w, resources) == ApplyPanicked {
        forall l | 0 <= l < stop
          ensures Usable(w.config(l))
        {
          assert !Blocks(w.config, resources, l);
        }
        assert ReachesNil(w.config, n, stop);
      }
    }
  }

  /** No lookup breaks on the clusters from i up to m. */
  ghost predicate NothingBreaks(w: CheckWorld, resources: seq<Manifest>, i: nat, m: nat) {
    forall l, j | i <= l < m && 0 <= j < |resources| :: w.probe(l, j) != Broken
  }

  lemma {:induction false} CheckFromPanics(w: CheckWorld, n: nat, resources: seq<Manifest>, i: nat, missing: bool,
          m: nat)
    requires i <= m && resources != [] && ReachesNil(w.config, n, m)
    ensures CheckFrom(w, n, resources, i, missing) == CheckPanicked <==> NothingBreaks(w, resources, i, m)
    decreases n - i
  {
    if i < m {
      ScanExact(w.probe, i, |resources|, 0, missing);
      var flag := Scan(w.probe, i, |resources|, 0, missing);
      if flag.Some? {
        CheckFromPanics(w, n, resources, i + 1, flag.value, m);
        assert NothingBreaks(w, resources, i, m) <==> NothingBreaks(w, resources, i + 1, m);
      }
    }
  }

  lemma {:induction false} CheckFromSurvives(w: CheckWorld, n: nat, resources: seq<Manifest>, i: nat, missing: bool)
    requires CheckFrom(w, n, resources, i, missing) == CheckPanicked
    requires forall l | 0 <= l < i :: Usable(w.config(l))
    ensures resources != [] && exists m: nat :: ReachesNil(w.config, n, m)
    decreases n - i
  {
    if ClusterClient(w.config(i)) == Connected {
      CheckFromSurvives(w, n, resources, i + 1, Scan(w.probe, i, |resources|, 0, missing).value);
    } else if resources == [] {
      NothingToLookUp(w, n, i, missing);
    } else {
      assert ReachesNil(w.config, n, i);
    }
  }

  lemma {:induction false} NothingToLookUp(w: CheckWorld, n: nat, i: nat, missing: bool)
    ensures CheckFrom(w, n, [], i, missing) != CheckPanicked
    decreases n - i
  {
    if i < n && ClusterClient(w.config(i)) != Unreachable {
      NothingToLookUp(w, n, i + 1, missing);
    }
  }

  /** Check panics exactly if Apply would and no lookup on the clusters before breaks. */
  lemma CheckPanicsExactly(w: CheckWorld, resources: seq<Manifest>)
    ensures CheckVerdict(w, resources) == CheckPanicked <==>
              w.listing.Some? && resources != [] &&
              exists m: nat :: ReachesNil(w.config, |w.listing.value|, m) && NothingBreaks(w, resources, 0, m)
  {
    if w.listing.Some? {
      var n := |w.listing.value|;
      if CheckVerdict(w, resources) == CheckPanicked {
        CheckFromSurvives(w, n, resources, 0, false);
        var m: nat :| ReachesNil(w.config, n, m);
        CheckFromPanics(w, n, resources, 0, false, m);
      } else if resources != [] {
        forall m: nat | ReachesNil(w.config, n, m)
          ensures !NothingBreaks(w, resources, 0, m)
        {
          CheckFromPanics(w, n, resources, 0, false, m);
        }
      }
    }
  }

  /**
   * A kubeconfig secret without a "value" entry, and a resource: both passes panic. Behind an unreachable cluster,
   * neither does.
   */
  lemma NilClientPanics(c: Key, d: Key, m: Manifest, accepts: (nat, nat) -> bool, probe: (nat, nat) -> Probe)
    ensures var empty, gone := Kubeconfig(true, None, true, true), Kubeconfig(false, None, true, true);
            && ApplyVerdict(ApplyWorld(Some([c]), _ => empty, accepts), [m]) == ApplyPanicked
            && CheckVerdict(CheckWorld(Some([c]), _ => empty, probe), [m]) == CheckPanicked
            && (var mixed := (i: nat) => if i == 0 then gone else empty;
                && ApplyVerdict(ApplyWorld(Some([c, d]), mixed, accepts), [m]) == Applied
                && CheckVerdict(CheckWorld(Some([c, d]), mixed, probe), [m]) == CheckFailed)
  {
    var empty, gone := Kubeconfig(true, None, true, true), Kubeconfig(false, None, true, true);
    assert Blocks(_ => empty, [m], 0);
    var mixed := (i: nat) => if i == 0 then gone else empty;
    assert Blocks(mixed, [m], 0);
  }

  // --------------------------------------------------------- Apply then Check

  /** Lookups report what the clusters hold. */
  ghost predicate Truthful(world: map<Key, Contents>, items: seq<Key>, resources: seq<Manifest>, probe: (nat,
          nat) -> Probe) {
    forall i, j | 0 <= i < |items| && 0 <= j < |resources| ::
      probe(i, j) == if AddressOf(resources[j]) in At(world, items[i]) then Found else Absent
  }

  lemma {:induction false} ApplyKeeps(world: map<Key, Contents>, items: seq<Key>, resources: seq<Manifest>,
                          w: ApplyWorld, i: nat, c: Key, a: Address)
    requires i <= |items| && a in At(world, c)
    ensures a in At(ApplyFrom(world, items, resources, w, i), c)
    decreases |items| - i
  {
    if i < |items| && !Blocks(w.config, resources, i) {
      var delivered := resources[..Received(w, |resources|, i)];
      var next := Delivered(world, items[i], delivered);
      assert a in At(next, c) by {
        if c == items[i] {
          LastManifestWins(At(world, c), delivered, a);
        }
      }
      ApplyKeeps(next, items, resources, w, i + 1, c, a);
    }
  }

  lemma {:induction false} CleanApplyCovers(world: map<Key, Contents>, items: seq<Key>,
                          resources: seq<Manifest>, w: ApplyWorld, i: nat, m: nat, j: nat)
    requires i <= m < |items| && j < |resources| && Clean(w, items, resources)
    ensures AddressOf(resources[j]) in At(ApplyFrom(world, items, resources, w, i), items[m])
    decreases |items| - i
  {
    CleanReceivesAll(w, items, resources);
    assert resources[..|resources|] == resources;
    var next := Delivered(world, items[i], resources);
    assert ApplyFrom(world, items, resources, w, i) == ApplyFrom(next, items, resources, w, i + 1);
    if i == m {
      LastManifestWins(At(world, items[i]), resources, AddressOf(resources[j]));
      ApplyKeeps(next, items, resources, w, i + 1, items[m], AddressOf(resources[j]));
    } else {
      CleanApplyCovers(next, items, resources, w, i + 1, m, j);
    }
  }

  /**
   * Apply and Check agree on addresses: right after a clean Apply a truthful Check of the same clusters misses nothing.
   */
  lemma CleanApplyPassesCheck(world: map<Key, Contents>, items: seq<Key>, resources: seq<Manifest>,
                          w: ApplyWorld, check: CheckWorld)
    requires Clean(w, items, resources) && check.listing == Some(items) && check.config == w.config
    requires Truthful(ApplyFrom(world, items, resources, w, 0), items, resources, check.probe)
    ensures CheckVerdict(check, resources) == Checked(false)
  {
    forall i, j | 0 <= i < |items| && 0 <= j < |resources|
      ensures check.probe(i, j) == Found
    {
      CleanApplyCovers(world, items, resources, w, 0, i, j);
    }
    NothingMissingExactly(check, resources);
  }

  ghost predicate Present(world: map<Key, Contents>, items: seq<Key>, resources: seq<Manifest>) {
    forall i, j | 0 <= i < |items| && 0 <= j < |resources| :: AddressOf(resources[j]) in At(world, items[i])
  }

  ghost predicate Deployed(world: map<Key, Contents>, items: seq<Key>, resources: seq<Manifest>) {
    forall i, j | 0 <= i < |items| && 0 <= j < |resources| ::
      AddressOf(resources[j]) in At(world, items[i]) && At(world, items[i])[AddressOf(resources[j])] == resources[j]
  }

  ghost predicate DistinctLists(items: seq<Key>, resources: seq<Manifest>) {
    && Distinct(items)
    && (forall m, n | 0 <= m < n < |resources| :: AddressOf(resources[m]) != AddressOf(resources[n]))
  }

  /**
   * Passing the check does not mean that the manifests are deployed: Apply drops its errors, and an older object at the
   * address satisfies Check. It does mean that, whatever the clusters held before, exactly if no client or apply call
   * failed.
   */
  lemma PresenceProvesDeploymentExactly(items: seq<Key>, resources: seq<Manifest>, w: ApplyWorld)
    requires DistinctLists(items, resources) && resources != []
    ensures (forall world | Present(ApplyFrom(world, items, resources, w, 0), items, resources) ::
               Deployed(ApplyFrom(world, items, resources, w, 0), items, resources))
            <==> Clean(w, items, resources)
  {
    if Clean(w, items, resources) {
      forall world
        ensures Deployed(ApplyFrom(world, items, resources, w, 0), items, resources)
      {
        CleanApplyDeploys(world, items, resources, w);
      }
    } else {
      var world := map c | c in items :: Overlay(map[], Outdated(resources));
      FailureLeavesOutdated(items, resources, w, world);
    }
  }

  lemma CleanApplyDeploys(world: map<Key, Contents>, items: seq<Key>, resources: seq<Manifest>, w: ApplyWorld)
    requires DistinctLists(items, resources) && Clean(w, items, resources)
    ensures Deployed(ApplyFrom(world, items, resources, w, 0), items, resources)
  {
    ApplyEffect(world, items, resources, w);
    CleanReceivesAll(w, items, resources);
    assert resources[..|resources|] == resources;
    forall i, j | 0 <= i < |items| && 0 <= j < |resources|
      ensures AddressOf(resources[j]) in At(ApplyFrom(world, items, resources, w, 0), items[i])
      ensures At(ApplyFrom(world, items, resources, w, 0), items[i])[AddressOf(resources[j])] == resources[j]
    {
      LastManifestWins(At(world, items[i]), resources, AddressOf(resources[j]));
      LastIsLast(resources, j);
    }
  }

  function Outdated(resources: seq<Manifest>): (r: seq<Manifest>)
    ensures |r| == |resources|
    ensures forall j | 0 <= j < |r| :: AddressOf(r[j]) == AddressOf(resources[j]) && r[j] != resources[j]
  {
    if resources == [] then []
    else
      var m := resources[0];
      assert |m.body + "-"| != |m.body|;
      [m.(body := m.body + "-")] + Outdated(resources[1..])
  }

  lemma OutdatedStaysAt(items: seq<Key>, resources: seq<Manifest>, w: ApplyWorld, world: map<Key, Contents>, c: Key,
                        j: nat)
    requires DistinctLists(items, resources) && j < |resources|
    requires At(world, c) == Overlay(map[], Outdated(resources))
    ensures AddressOf(resources[j]) in At(ApplyFrom(world, items, resources, w, 0), c)
  {
    StaleIsOld(resources, j);
    ApplyKeeps(world, items, resources, w, 0, c, AddressOf(resources[j]));
  }

  lemma NotDeployedAt(world: map<Key, Contents>, items: seq<Key>, resources: seq<Manifest>, i: nat, j: nat)
    requires i < |items| && j < |resources|
    requires AddressOf(resources[j]) in At(world, items[i]) ==>
               At(world, items[i])[AddressOf(resources[j])] != resources[j]
    ensures !Deployed(world, items, resources)
  {
  }

  lemma FailureLeavesOutdated(items: seq<Key>, resources: seq<Manifest>, w: ApplyWorld, world: map<Key, Contents>)
    requires DistinctLists(items, resources) && resources != [] && !Clean(w, items, resources)
    requires forall c | c in items :: At(world, c) == Overlay(map[], Outdated(resources))
    ensures Present(ApplyFrom(world, items, resources, w, 0), items, resources)
    ensures !Deployed(ApplyFrom(world, items, resources, w, 0), items, resources)
  {
    forall i, j | 0 <= i < |items| && 0 <= j < |resources|
      ensures AddressOf(resources[j]) in At(ApplyFrom(world, items, resources, w, 0), items[i])
    {
      OutdatedStaysAt(items, resources, w, world, items[i], j);
    }
    var i, j := FirstFailure(w, items, resources);
    FailureKeepsOutdated(items, resources, w, world, i, j);
    NotDeployedAt(ApplyFrom(world, items, resources, w, 0), items, resources, i, j);
  }

  /** No earlier resource has the address of a later one. */
  lemma NotAmongEarlier(resources: seq<Manifest>, n: nat, j: nat)
    requires n <= j < |resources|
    requires forall m, l | 0 <= m < l < |resources| :: AddressOf(resources[m]) != AddressOf(resources[l])
    ensures LastAt(resources[..n], AddressOf(resources[j])) == None
  {
    assert forall l | 0 <= l < n :: resources[..n][l] == resources[l];
  }

  lemma StaleIsOld(resources: seq<Manifest>, j: nat)
    requires j < |resources|
    requires forall m, l | 0 <= m < l < |resources| :: AddressOf(resources[m]) != AddressOf(resources[l])
    ensures var outdated, a := Overlay(map[], Outdated(resources)), AddressOf(resources[j]);
            a in outdated && outdated[a] != resources[j]
  {
    var stale := Outdated(resources);
    assert AddressOf(stale[j]) == AddressOf(resources[j]);
    LastIsLast(stale, j);
    LastManifestWins(map[], stale, AddressOf(stale[j]));
  }

  lemma FailureKeepsOutdated(items: seq<Key>, resources: seq<Manifest>, w: ApplyWorld, world: map<Key,
                          Contents>, i: nat, j: nat)
    requires DistinctLists(items, resources) && i < |items| && j < |resources|
    requires i < FirstBlocked(w.config, resources, |items|, 0) ==> Received(w, |resources|, i) <= j
    requires At(world, items[i]) == Overlay(map[], Outdated(resources))
    ensures var after, a := At(ApplyFrom(world, items, resources, w, 0), items[i]), AddressOf(resources[j]);
            a in after && after[a] != resources[j]
  {
    var a, before := AddressOf(resources[j]), At(world, items[i]);
    StaleIsOld(resources, j);
    ApplyEffect(world, items, resources, w);
    var stop := FirstBlocked(w.config, resources, |items|, 0);
    if i < stop {
      var n := Received(w, |resources|, i);
      NotAmongEarlier(resources, n, j);
      LastManifestWins(before, resources[..n], a);
    } else {
      assert items[i] !in items[..stop];
    }
  }

  /** A cluster and a resource that this run does not bring there. */
  lemma FirstFailure(w: ApplyWorld, items: seq<Key>, resources: seq<Manifest>) returns (i: nat, j: nat)
    requires resources != [] && !Clean(w, items, resources)
    ensures i < |items| && j < |resources|
    ensures i < FirstBlocked(w.config, resources, |items|, 0) ==> Received(w, |resources|, i) <= j
  {
    if m :| 0 <= m < |items| && !Usable(w.config(m)) {
      i, j := m, 0;
    } else {
      i, j :| 0 <= i < |items| && 0 <= j < |resources| && !w.accepts(i, j);
    }
  }
}
