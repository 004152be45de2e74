/**
 * The versioned object store, after "Concurrency Control and Consistency" in the Kubernetes API Conventions:
 * one counter hands out resource versions, a write with a stale version conflicts, spec updates leave the status
 * alone and status updates leave everything else alone. A write that changes nothing keeps the version.
 */
module ApiServer {
  import opened Wrappers
  import opened Api
  import opened Admission
  import opened Clock

  datatype Server = Server(mutating: bool, clock: nat, proxies: map<Key, Proxy>, generators: map<Key, Generator>)

  datatype Reply<+T> = Accepted(stored: T) | Conflict | NotFound | AlreadyExists | Denied

  function StoreProxy(s: Server, k: Key, p: Proxy): Server {
    if k in s.proxies && s.proxies[k] == p.(version := s.proxies[k].version) then s
    else s.(clock := s.clock + 1, proxies := s.proxies[k := p.(version := s.clock + 1)])
  }

  function CreateProxy(s: Server, k: Key, p: Proxy): (Server, Reply<Proxy>) {
    if k in s.proxies then (s, AlreadyExists)
    else
      match AdmitCreate(s.mutating, p.spec)
      case Rejected => (s, Denied)
      case Admitted(spec) =>
        var s' := StoreProxy(s, k, p.(spec := spec, conditions := map[]));
        (s', Accepted(s'.proxies[k]))
  }

  function UpdateProxy(s: Server, k: Key, p: Proxy): (Server, Reply<Proxy>) {
    if k !in s.proxies then (s, NotFound)
    else if p.version != s.proxies[k].version then (s, Conflict)
    else
      match AdmitUpdate(s.mutating, s.proxies[k].spec, p.spec)
      case Rejected => (s, Denied)
      case Admitted(spec) =>
        var s' := StoreProxy(s, k, p.(spec := spec, conditions := s.proxies[k].conditions));
        (s', Accepted(s'.proxies[k]))
  }

  function UpdateProxyStatus(s: Server, k: Key, p: Proxy): (Server, Reply<Proxy>) {
    if k !in s.proxies then (s, NotFound)
    else if p.version != s.proxies[k].version then (s, Conflict)
    else
      var s' := StoreProxy(s, k, s.proxies[k].(conditions := p.conditions));
      (s', Accepted(s'.proxies[k]))
  }

  function StoreGenerator(s: Server, k: Key, g: Generator): Server {
    if k in s.generators && s.generators[k] == g.(version := s.generators[k].version) then s
    else s.(clock := s.clock + 1, generators := s.generators[k := g.(version := s.clock + 1)])
  }

  function CreateGenerator(s: Server, k: Key, g: Generator): Server {
    if k in s.generators then s else StoreGenerator(s, k, g.(lastPolled := None, conditions := map[]))
  }

  function UpdateGenerator(s: Server, k: Key, g: Generator): Server {
    if k !in s.generators || g.version != s.generators[k].version then s
    else StoreGenerator(s, k, s.generators[k].(spec := g.spec))
  }

  function UpdateGeneratorStatus(s: Server, k: Key, g: Generator): (Server, Reply<Generator>) {
    if k !in s.generators then (s, NotFound)
    else if g.version != s.generators[k].version then (s, Conflict)
    else
      var s' := StoreGenerator(s, k, s.generators[k].(lastPolled := Stored(g.lastPolled), conditions := g.conditions));
      (s', Accepted(s'.generators[k]))
  }

  /** Nothing but the object at one key differs. */
  ghost predicate ProxyOnly(s: Server, s': Server, k: Key) {
    s'.mutating == s.mutating && s'.generators == s.generators && s'.proxies - {k} == s.proxies - {k}
  }

  /** An object has a new version exactly if it has changed, and then a version that was never handed out. */
  ghost predicate Versioned(s: Server, s': Server, before: Proxy, after: Proxy) {
    if after == before.(version := after.version) then s' == s && after.version == before.version
    else s'.clock > s.clock && s.clock < after.version <= s'.clock
  }

  /** A create lands exactly if the name is free and the webhook admits it, with no status, whatever was sent. */
  lemma CreateExactly(s: Server, k: Key, p: Proxy)
    ensures var (s', reply) := CreateProxy(s, k, p);
            && (reply.Accepted? <==> k !in s.proxies && AdmitCreate(s.mutating, p.spec).Admitted?)
            && (!reply.Accepted? ==> s' == s)
            && (reply.Accepted? ==>
                  && k in s'.proxies && reply.stored == s'.proxies[k] && ProxyOnly(s, s', k)
                  && s.clock < reply.stored.version <= s'.clock
                  && reply.stored == Proxy(reply.stored.version, p.labels, p.annotations, p.owner,
                       AdmitCreate(s.mutating, p.spec).spec, map[]))
  {
  }

  /** An update lands exactly on the version that was sent, if the webhook admits it, and leaves the status alone. */
  lemma UpdateExactly(s: Server, k: Key, p: Proxy)
    ensures var (s', reply) := UpdateProxy(s, k, p);
            && (reply.Accepted? <==>
                  && k in s.proxies && s.proxies[k].version == p.version
                  && AdmitUpdate(s.mutating, s.proxies[k].spec, p.spec).Admitted?)
            && (!reply.Accepted? ==> s' == s)
            && (reply.Accepted? ==>
                  && k in s'.proxies && reply.stored == s'.proxies[k] && ProxyOnly(s, s', k)
                  && Versioned(s, s', s.proxies[k], reply.stored)
                  && reply.stored == Proxy(reply.stored.version, p.labels, p.annotations, p.owner,
                       AdmitUpdate(s.mutating, s.proxies[k].spec, p.spec).spec, s.proxies[k].conditions))
  {
  }

  /** A status update lands exactly on the version that was sent, and changes nothing but the status. */
  lemma UpdateStatusExactly(s: Server, k: Key, p: Proxy)
    ensures var (s', reply) := UpdateProxyStatus(s, k, p);
            && (reply.Accepted? <==> k in s.proxies && s.proxies[k].version == p.version)
            && (!reply.Accepted? ==> s' == s)
            && (reply.Accepted? ==>
                  && k in s'.proxies && reply.stored == s'.proxies[k] && ProxyOnly(s, s', k)
                  && Versioned(s, s', s.proxies[k], reply.stored)
                  && reply.stored == s.proxies[k].(version := reply.stored.version, conditions := p.conditions))
  {
  }

  /** Of a generator, spec updates keep the status and status updates the spec; a new one has no status. */
  lemma GeneratorWrites(s: Server, k: Key, g: Generator)
    ensures var made, changed, stamped := CreateGenerator(s, k, g), UpdateGenerator(s, k, g), UpdateGeneratorStatus(s,
              k, g).0;
            && (forall s' | s' in [made, changed, stamped] ::
                  && s'.mutating == s.mutating && s'.proxies == s.proxies
                  && s'.generators - {k} == s.generators - {k})
            && (k !in s.generators ==>
                  && made.generators[k].spec == g.spec && made.generators[k].lastPolled == None
                  && changed == s && stamped == s)
            && (k in s.generators ==> made == s)
            && (k in s.generators && s.generators[k].version != g.version ==> changed == s && stamped == s)
            && (k in s.generators && s.generators[k].version == g.version ==>
                  && changed.generators[k].spec == g.spec
                  && changed.generators[k].lastPolled == s.generators[k].lastPolled
                  && changed.generators[k].conditions == s.generators[k].conditions
                  && stamped.generators[k].spec == s.generators[k].spec
                  && stamped.generators[k].lastPolled == Stored(g.lastPolled)
                  && stamped.generators[k].conditions == g.conditions)
  {
  }

  /** Everything any client can send. */
  datatype Request =
    | Create(key: Key, proxy: Proxy)
    | Update(key: Key, proxy: Proxy)
    | UpdateStatus(key: Key, proxy: Proxy)
    | Delete(key: Key)
    | NewGenerator(key: Key, generator: Generator)
    | ChangeGenerator(key: Key, generator: Generator)
    | ChangeGeneratorStatus(key: Key, generator: Generator)
    | DeleteGenerator(key: Key)

  function Serve(s: Server, r: Request): Server {
    match r
    case Create(k, p) => CreateProxy(s, k, p).0
    case Update(k, p) => UpdateProxy(s, k, p).0
    case UpdateStatus(k, p) => UpdateProxyStatus(s, k, p).0
    case Delete(k) => s.(proxies := s.proxies - {k})
    case NewGenerator(k, g) => CreateGenerator(s, k, g)
    case ChangeGenerator(k, g) => UpdateGenerator(s, k, g)
    case ChangeGeneratorStatus(k, g) => UpdateGeneratorStatus(s, k, g).0
    case DeleteGenerator(k) => s.(generators := s.generators - {k})
  }

  function ServeAll(s: Server, rs: seq<Request>): Server
    decreases rs
  {
    if rs == [] then s else ServeAll(Serve(s, rs[0]), rs[1..])
  }

  lemma {:induction false} ServeAllConcat(s: Server, rs: seq<Request>, more: seq<Request>)
    ensures ServeAll(s, rs + more) == ServeAll(ServeAll(s, rs), more)
    decreases rs
  {
    if rs == [] {
      assert rs + more == more;
    } else {
      assert (rs + more)[0] == rs[0] && (rs + more)[1..] == rs[1..] + more;
      ServeAllConcat(Serve(s, rs[0]), rs[1..], more);
    }
  }
}
