/**
 * What a poll means, on values: filtering, naming and rendering a pull request, creating or updating its proxy,
 * and the effect of a whole list. The controller's heap-level loop is proved against these functions.
 */
module Render {
  import opened Wrappers
  import opened Text
  import opened Api
  import opened Admission
  import opened ApiServer

  const GENERATOR_LABEL := "addons.cluster.x-k8s.io/generator-name"
  const NUMBER_LABEL := "addons.cluster.x-k8s.io/pr-number"

  /** The part of a generator object that a poll reads. */
  datatype Source = Source(key: Key, spec: GeneratorSpec)

  /** Filters compare by equality, although their documentation calls them regular expressions. */
  predicate Accepts(filters: seq<string>, pr: PullRequest) {
    filters == [] || exists i | 0 <= i < |filters| :: filters[i] == "" || filters[i] == pr.baseBranch
  }

  /** No filter, the empty filter or the base branch itself: nothing else lets a pull request in. */
  lemma AcceptsExactly(filters: seq<string>, pr: PullRequest)
    ensures Accepts(filters, pr) <==> filters == [] || "" in filters || pr.baseBranch in filters
  {
  }

  function ProxyName(generator: string, number: int): string {
    generator + "-pr-" + Decimal(number)
  }

  function ProxyKey(g: Source, pr: PullRequest): Key {
    Key(g.key.namespace, ProxyName(g.key.name, pr.number))
  }

  function RenderedPath(g: GeneratorSpec, templatePath: string): string {
    if g.path != "" then g.path else if g.source.path != "" then g.source.path else templatePath
  }

  function OrBlank(git: Option<GitRepo>): GitRepo {
    match git case Some(r) => r case None => GitRepo("", "", "", "", "", "")
  }

  function RenderedGit(g: GeneratorSpec, pr: PullRequest): GitRepo {
    var base := OrBlank(g.template.spec.git);
    base.(url := g.source.url, reference := pr.branch, secretRef := g.source.secretRef,
          secretKey := g.source.secretKey, path := RenderedPath(g, base.path))
  }

  function OrEmpty(labels: Option<Labels>): Labels {
    match labels case Some(l) => l case None => map[]
  }

  function RenderedLabels(g: Source, pr: PullRequest): Labels {
    OrEmpty(g.spec.template.labels)[GENERATOR_LABEL := g.key.name][NUMBER_LABEL := Decimal(pr.number)]
  }

  function Rendered(g: Source, pr: PullRequest): Proxy {
    Proxy(0,
          RenderedLabels(g, pr),
          OrEmpty(g.spec.template.annotations),
          Some(g.key.name),
          ProxySpec(Some(RenderedGit(g.spec, pr)), g.spec.template.spec.selector),
          map[])
  }

  /** A read may fail, see the store as it is, or see anything at all (a stale cache). */
  datatype Read = ReadFails | Current | Stale(view: Option<Proxy>)

  /** A write may go through, never reach the server, or go through without its reply arriving. */
  datatype Send = Delivered | NotSent | ReplyLost

  /** What the world does while one pull request is handled; foreign requests land between its read and its write. */
  datatype Env = Env(ownerSet: bool, read: Read, foreign: seq<Request>, send: Send)

  datatype Work = Work(pr: PullRequest, env: Env)

  function Lookup<T>(m: map<Key, T>, k: Key): Option<T> {
    if k in m then Some(m[k]) else None
  }

  function Overwrite(stored: Proxy, p: Proxy): Proxy {
    stored.(spec := p.spec, labels := p.labels, annotations := p.annotations)
  }

  /** Create if the read found nothing, else overwrite spec, labels and annotations of what it found. */
  function Submission(k: Key, p: Proxy, view: Option<Proxy>): Request {
    match view
    case None => Create(k, p)
    case Some(existing) => Update(k, Overwrite(existing, p))
  }

  function Submit(s: Server, r: Request): (Server, Reply<Proxy>)
    requires r.Create? || r.Update?
  {
    if r.Create? then CreateProxy(s, r.key, r.proxy) else UpdateProxy(s, r.key, r.proxy)
  }

  function Viewed(s: Server, k: Key, read: Read): Option<Proxy>
    requires !read.ReadFails?
  {
    if read.Current? then Lookup(s.proxies, k) else read.view
  }

  /** The requests the server sees while one pull request is handled: other clients' and at most one of ours. */
  function Requests(s: Server, g: Source, w: Work): seq<Request> {
    if !Accepts(g.spec.filters, w.pr) || !w.env.ownerSet || w.env.read.ReadFails? then []
    else
      w.env.foreign +
      (if w.env.send.NotSent? then []
       else [Submission(ProxyKey(g, w.pr), Rendered(g, w.pr), Viewed(s, ProxyKey(g, w.pr), w.env.read))])
  }

  /** One write: the store it leaves, and the reply if one is read. */
  function Transmit(s: Server, r: Request, env: Env): (Server, Option<Proxy>)
    requires r.Create? || r.Update?
  {
    var s1 := ServeAll(s, env.foreign);
    if env.send.NotSent? then (s1, None)
    else
      var (s2, reply) := Submit(s1, r);
      (s2, if env.send.Delivered? && reply.Accepted? then Some(reply.stored) else None)
  }

  /** A read and the create or update it leads to: the store they leave, and the reply if one is read. */
  function Submitted(s: Server, k: Key, p: Proxy, env: Env): (Server, Option<Proxy>) {
    if env.read.ReadFails? then (s, None)
    else Transmit(s, Submission(k, p, Viewed(s, k, env.read)), env)
  }

  /** The reconciliation of one pull request: the store it leaves and whether it reports an error. */
  function ReconcilePR(s: Server, g: Source, w: Work): (Server, bool) {
    if !Accepts(g.spec.filters, w.pr) then (s, false)
    else if !w.env.ownerSet then (s, true)
    else
      var (s', reply) := Submitted(s, ProxyKey(g, w.pr), Rendered(g, w.pr), w.env);
      (s', reply.None?)
  }

  function Poll(s: Server, g: Source, works: seq<Work>): Server
    decreases works
  {
    if works == [] then s else Poll(ReconcilePR(s, g, works[0]).0, g, works[1..])
  }

  function PollRequests(s: Server, g: Source, works: seq<Work>): seq<Request>
    decreases works
  {
    if works == [] then []
    else Requests(s, g, works[0]) + PollRequests(ReconcilePR(s, g, works[0]).0, g, works[1..])
  }

  /** Seen from the server, a poll is nothing but a sequence of admitted requests, ours and other clients'. */
  lemma {:induction false} PollIsRequests(s: Server, g: Source, works: seq<Work>)
    ensures Poll(s, g, works) == ServeAll(s, PollRequests(s, g, works))
    decreases works
  {
    if works != [] {
      var w := works[0];
      var s' := ReconcilePR(s, g, w).0;
      var rs := Requests(s, g, w);
      if rs != [] && !w.env.send.NotSent? {
        ServeAllConcat(s, w.env.foreign, [rs[|rs| - 1]]);
      } else {
        assert rs != [] ==> rs == w.env.foreign;
        assert w.env.foreign + [] == w.env.foreign;
      }
      PollIsRequests(s', g, works[1..]);
      ServeAllConcat(s, rs, PollRequests(s', g, works[1..]));
    }
  }

  // ------------------------------------------------------------------ naming

  /** No two distinct (generator, number) pairs of a namespace share a proxy, whatever dashes their names contain. */
  lemma ProxyNameInjective(a: string, m: int, b: string, n: int)
    requires ProxyName(a, m) == ProxyName(b, n)
    ensures a == b && m == n
  {
    if |Decimal(m)| <= |Decimal(n)| {
      TailsAgree(a, m, b, n);
    } else {
      TailsAgree(b, n, a, m);
    }
  }

  lemma TailsAgree(a: string, m: int, b: string, n: int)
    requires ProxyName(a, m) == ProxyName(b, n) && |Decimal(m)| <= |Decimal(n)|
    ensures a == b && m == n
  {
    var s, d, e := ProxyName(a, m), Decimal(m), Decimal(n);
    DecimalDash(n);
    assert s[|a| + 3] == '-' && s[|a| + 2] == 'r';
    assert s[|b| + 3] == '-';
    assert |a| + |d| == |b| + |e|;
    // Were d shorter, the dash before it would lie in e, hence start it, and the 'r' before that would be a dash.
    assert forall i | 0 <= i < |e| :: e[i] == s[|b| + 4 + i];
    assert s[|a| + 4..] == d && s[|b| + 4..] == e;
    assert s[..|a|] == a && s[..|b|] == b;
    DecimalInjective(m, n);
  }

  lemma ProxyKeyInjective(g: Source, pr: PullRequest, h: Source, qr: PullRequest)
    requires ProxyKey(g, pr) == ProxyKey(h, qr)
    ensures g.key == h.key && pr.number == qr.number
  {
    ProxyNameInjective(g.key.name, pr.number, h.key.name, qr.number);
  }

  // ------------------------------------------------------- a poll by its effects

  /** Nobody else writes and no read is stale; failures of every kind remain possible. */
  predicate Undisturbed(w: Work) {
    w.env.foreign == [] && !w.env.read.Stale?
  }

  /** None of the requests is about this proxy. */
  predicate Spares(rs: seq<Request>, k: Key) {
    forall r | r in rs && (r.Create? || r.Update? || r.UpdateStatus? || r.Delete?) :: r.key != k
  }

  /**
   * Nobody else writes this proxy meanwhile, and its own pull request does not read it stale. Every other pull request
   * may read anything, conflict and be interfered with.
   */
  predicate CalmAt(g: Source, w: Work, k: Key) {
    Spares(w.env.foreign, k) && (ProxyKey(g, w.pr) == k ==> !w.env.read.Stale?)
  }

  /** The write of this pull request reaches the server. */
  predicate Effective(g: Source, w: Work) {
    Accepts(g.spec.filters, w.pr) && w.env.ownerSet && w.env.read.Current? && !w.env.send.NotSent?
  }

  predicate DistinctNumbers(works: seq<Work>) {
    forall i, j | 0 <= i < j < |works| :: works[i].pr.number != works[j].pr.number
  }

  /** A stored proxy without its version. */
  function Content(p: Option<Proxy>): Option<Proxy> {
    match p case None => None case Some(v) => Some(v.(version := 0))
  }

  /** What must be stored for a pull request, given what was stored: this mentions neither versions nor other keys. */
  function Landed(mutating: bool, before: Option<Proxy>, g: Source, pr: PullRequest): Option<Proxy> {
    LandedAs(mutating, before, Rendered(g, pr))
  }

  function LandedAs(mutating: bool, before: Option<Proxy>, p: Proxy): Option<Proxy> {
    match before
    case None =>
      (match AdmitCreate(mutating, p.spec)
       case Rejected => None
       case Admitted(spec) => Some(p.(spec := spec)))
    case Some(stored) =>
      match AdmitUpdate(mutating, stored.spec, p.spec)
      case Rejected => Some(stored)
      case Admitted(spec) => Some(stored.(spec := spec, labels := p.labels, annotations := p.annotations))
  }

  /** Path precedence: generator over source over template, then the webhook's default. */
  function Landing(mutating: bool, g: GeneratorSpec): string {
    if g.path != "" then g.path
    else if g.source.path != "" then g.source.path
    else if g.template.spec.git.Some? && g.template.spec.git.value.path != "" then g.template.spec.git.value.path
    else if mutating then "." else ""
  }

  /** What one create or update does to one key; at its own key this is exact only if its read was up to date. */
  lemma SubmissionEffect(s: Server, key: Key, p: Proxy, view: Option<Proxy>, k: Key)
    requires p.version == 0 && p.conditions == map[]
    ensures var s' := Submit(s, Submission(key, p, view)).0;
            && s'.mutating == s.mutating
            && (key == k && view == Lookup(s.proxies, k) ==>
                  Content(Lookup(s'.proxies, k)) == LandedAs(s.mutating, Content(Lookup(s.proxies, k)), p))
            && (key != k ==> Lookup(s'.proxies, k) == Lookup(s.proxies, k))
  {
  }

  lemma {:induction false} ServeAllSpares(s: Server, rs: seq<Request>, k: Key)
    requires Spares(rs, k)
    ensures ServeAll(s, rs).mutating == s.mutating
    ensures Lookup(ServeAll(s, rs).proxies, k) == Lookup(s.proxies, k)
    decreases rs
  {
    if rs != [] {
      assert rs[0] in rs;
      ServeAllSpares(Serve(s, rs[0]), rs[1..], k);
    }
  }

  lemma StepEffect(s: Server, g: Source, w: Work, k: Key)
    requires CalmAt(g, w, k)
    ensures var s' := ReconcilePR(s, g, w).0;
            && s'.mutating == s.mutating
            && (if Effective(g, w) && k == ProxyKey(g, w.pr)
                then Content(Lookup(s'.proxies, k)) == Landed(s.mutating, Content(Lookup(s.proxies, k)), g, w.pr)
                else Lookup(s'.proxies, k) == Lookup(s.proxies, k))
  {
    if Accepts(g.spec.filters, w.pr) && w.env.ownerSet && !w.env.read.ReadFails? {
      ServeAllSpares(s, w.env.foreign, k);
      if !w.env.send.NotSent? {
        var key := ProxyKey(g, w.pr);
        SubmissionEffect(ServeAll(s, w.env.foreign), key, Rendered(g, w.pr), Viewed(s, key, w.env.read), k);
      }
    }
  }

  /**
   * A poll writes the landed rendering of the effective pull request a key belongs to, and touches no other key, not
   * even its version; only that key must be calm.
   */
  lemma {:induction false} PollEffect(s: Server, g: Source, works: seq<Work>, k: Key)
    requires DistinctNumbers(works) && forall w | w in works :: CalmAt(g, w, k)
    ensures Poll(s, g, works).mutating == s.mutating
    ensures forall w | w in works && Effective(g, w) && ProxyKey(g, w.pr) == k ::
              Content(Lookup(Poll(s, g, works).proxies, k)) ==
                  Landed(s.mutating, Content(Lookup(s.proxies, k)), g, w.pr)
    ensures (forall w | w in works && Effective(g, w) :: ProxyKey(g, w.pr) != k) ==>
              Lookup(Poll(s, g, works).proxies, k) == Lookup(s.proxies, k)
    decreases works
  {
    if works != [] {
      var w0, rest := works[0], works[1..];
      var s' := ReconcilePR(s, g, w0).0;
      assert w0 in works;
      StepEffect(s, g, w0, k);
      RestIsDistinct(works);
      PollEffect(s', g, rest, k);
      if Effective(g, w0) && ProxyKey(g, w0.pr) == k {
        forall w | w in rest
          ensures ProxyKey(g, w.pr) != k
        {
          var i :| 0 <= i < |rest| && rest[i] == w;
          assert works[0].pr.number != works[i + 1].pr.number;
          if ProxyKey(g, w.pr) == k {
            ProxyKeyInjective(g, w.pr, g, w0.pr);
          }
        }
      }
    }
  }

  lemma RestIsDistinct(works: seq<Work>)
    requires works != [] && DistinctNumbers(works)
    ensures DistinctNumbers(works[1..])
  {
    assert forall i, j | 0 <= i < j < |works| - 1 :: works[1..][i] == works[i + 1] && works[1..][j] == works[j + 1];
  }

  /** A proxy is stored as the pure rendering of the template, after the webhook. */
  predicate StoredAsRendered(mutating: bool, stored: Option<Proxy>, g: Source, pr: PullRequest) {
    && stored.Some?
    && stored.value.spec == Mutate(mutating, Rendered(g, pr).spec)
    && stored.value.labels == Rendered(g, pr).labels
    && stored.value.annotations == Rendered(g, pr).annotations
  }

  /**
   * After a poll, a pull request that got through is stored as rendered exactly if there was nothing to store over, or
   * what was there has the source's URL. Otherwise the old proxy stays as it was: changing the URL of a generator's
   * source freezes all its proxies.
   */
  lemma PollStoresRendering(s: Server, g: Source, works: seq<Work>, w: Work)
    requires w in works && Effective(g, w) && DistinctNumbers(works)
    requires forall v | v in works :: CalmAt(g, v, ProxyKey(g, w.pr))
    requires var before := Lookup(s.proxies, ProxyKey(g, w.pr)); before.Some? ==> Sound(s.mutating, before.value.spec)
    ensures var k := ProxyKey(g, w.pr);
            var before, after := Lookup(s.proxies, k), Lookup(Poll(s, g, works).proxies, k);
            && (StoredAsRendered(s.mutating, after, g, w.pr) <==>
                  match before
                  case None => g.spec.source.url != ""
                  case Some(p) => p.spec.git.value.url == g.spec.source.url)
            && (!StoredAsRendered(s.mutating, after, g, w.pr) ==> Content(after) == Content(before))
  {
    var k := ProxyKey(g, w.pr);
    PollEffect(s, g, works, k);
    assert Content(Lookup(Poll(s, g, works).proxies, k)) == Landed(s.mutating, Content(Lookup(s.proxies, k)), g, w.pr);
  }

  /**
   * What a rendered repository says: the path by precedence, and a known-hosts key that is the template's, never the
   * source's.
   */
  lemma RenderedRepository(mutating: bool, g: Source, pr: PullRequest)
    ensures var spec := Mutate(mutating, Rendered(g, pr).spec);
            && spec.git.Some?
            && spec.git.value.path == Landing(mutating, g.spec)
            && (g.spec.path != "" ==> spec.git.value.path == g.spec.path)
            && (g.spec.path == "" && g.spec.source.path != "" ==> spec.git.value.path == g.spec.source.path)
            && (g.spec.path == "" && g.spec.source.path == "" ==>
                  var path := OrBlank(g.spec.template.spec.git).path;
                  spec.git.value.path == if path == "" && mutating then "." else path)
            && spec.git.value.url == g.spec.source.url
            && spec.git.value.reference == (if pr.branch == "" && mutating then "main" else pr.branch)
            && spec.git.value.secretRef == g.spec.source.secretRef &&
                spec.git.value.secretKey == g.spec.source.secretKey
            && spec.git.value.knownHostsKey == OrBlank(g.spec.template.spec.git).knownHostsKey
            && spec.selector == g.spec.template.spec.selector
  {
  }

  /**
   * What a rendered proxy is called and how it is marked: by the generator's name and the number in base ten, on top of
   * what the template says.
   */
  lemma RenderedObject(g: Source, pr: PullRequest)
    ensures var p, k := Rendered(g, pr), ProxyKey(g, pr);
            var templates := OrEmpty(g.spec.template.labels);
            var number := "addons.cluster.x-k8s.io/pr-number";
            && k.namespace == g.key.namespace && k.name == g.key.name + "-pr-" + p.labels[number]
            && (pr.number >= 0 ==> Numeral(p.labels[number]) && Reading(p.labels[number]) == pr.number)
            && p.labels == templates["addons.cluster.x-k8s.io/generator-name" := g.key.name][number := p.labels[number]]
            && p.annotations == OrEmpty(g.spec.template.annotations)
            && p.owner == Some(g.key.name) && p.version == 0 && p.conditions == map[]
  {
    DecimalReadsBack(pr.number);
  }

  /**
   * The same for one write under interference, whatever the read returned and whoever else wrote: if the server accepts
   * it, what it stores is the pure rendering after the webhook, and no other object changes with it.
   */
  lemma AcceptedWriteIsRendering(s: Server, g: Source, w: Work)
    requires Accepts(g.spec.filters, w.pr) && w.env.ownerSet && !w.env.read.ReadFails? && !w.env.send.NotSent?
    ensures var k, p, before := ProxyKey(g, w.pr), Rendered(g, w.pr), ServeAll(s, w.env.foreign);
            var after := ReconcilePR(s, g, w).0;
            Submit(before, Submission(k, p, Viewed(s, k, w.env.read))).1.Accepted? ==>
              && StoredAsRendered(before.mutating, Lookup(after.proxies, k), g, w.pr)
              && (k in before.proxies ==> after.proxies[k].conditions == before.proxies[k].conditions)
              && after.proxies - {k} == before.proxies - {k} && after.generators == before.generators
  {
  }

  /** An error is reported exactly for an accepted pull request whose proxy was not stored or not confirmed. */
  lemma TroubleIsReported(s: Server, g: Source, w: Work)
    ensures ReconcilePR(s, g, w).1 <==>
              && (g.spec.filters == [] || "" in g.spec.filters || w.pr.baseBranch in g.spec.filters)
              && (|| !w.env.ownerSet || w.env.read.ReadFails? || !w.env.send.Delivered?
                  || !Submit(ServeAll(s, w.env.foreign), Submission(ProxyKey(g, w.pr), Rendered(g, w.pr),
                         Viewed(s, ProxyKey(g, w.pr), w.env.read))).1.Accepted?)
  {
    AcceptsExactly(g.spec.filters, w.pr);
  }

  /** The order in which the pull requests are listed does not matter (versions aside) to any key that is calm. */
  lemma PollOrderIrrelevant(s: Server, g: Source, works: seq<Work>, shuffled: seq<Work>, k: Key)
    requires multiset(works) == multiset(shuffled)
    requires DistinctNumbers(works) && DistinctNumbers(shuffled)
    requires forall w | w in works :: CalmAt(g, w, k)
    ensures Content(Lookup(Poll(s, g, works).proxies, k)) == Content(Lookup(Poll(s, g, shuffled).proxies, k))
  {
    assert forall w :: w in works <==> w in multiset(works);
    assert forall w :: w in shuffled <==> w in multiset(shuffled);
    PollEffect(s, g, works, k);
    PollEffect(s, g, shuffled, k);
  }

  /**
   * Whatever goes wrong with one pull request (a stale read, a conflict, a lost reply, a foreign write between its read
   * and its write), every other pull request's proxy is stored as if it had not.
   */
  lemma PollFailureIsolated(s: Server, g: Source, works: seq<Work>, i: nat, trouble: Env, k: Key)
    requires i < |works| && DistinctNumbers(works)
    requires forall w | w in works :: CalmAt(g, w, k)
    requires k != ProxyKey(g, works[i].pr) && Spares(trouble.foreign, k)
    ensures Content(Lookup(Poll(s, g, works[i := Work(works[i].pr, trouble)]).proxies, k))
         == Content(Lookup(Poll(s, g, works).proxies, k))
  {
    var works' := works[i := Work(works[i].pr, trouble)];
    assert forall w | w in works' :: w == works'[i] || w in works;
    assert forall j | 0 <= j < |works| && j != i :: works'[j] == works[j] && works'[j] in works' && works[j] in works;
    PollEffect(s, g, works, k);
    PollEffect(s, g, works', k);
  }

  // ------------------------------------------------------------- re-polling

  /** Handling this pull request again would change nothing, not even a version. */
  ghost predicate Settled(s: Server, g: Source, w: Work) {
    ReconcilePR(s, g, w).0 == s
  }

  /** Once a proxy says what it is to say, saying it again changes nothing. */
  lemma SaidAlready(s: Server, k: Key, p: Proxy)
    requires k in s.proxies && AdmitUpdate(s.mutating, s.proxies[k].spec, p.spec) == Admitted(s.proxies[k].spec)
    requires s.proxies[k].labels == p.labels && s.proxies[k].annotations == p.annotations
    ensures UpdateProxy(s, k, Overwrite(s.proxies[k], p)).0 == s
  {
    var q := s.proxies[k];
    assert Overwrite(q, p).(spec := q.spec, conditions := q.conditions) == q;
  }

  /** An up-to-date submission repeated changes nothing. */
  lemma SubmissionSettles(s: Server, k: Key, p: Proxy)
    requires p.version == 0 && p.conditions == map[]
    ensures var s' := Submit(s, Submission(k, p, Lookup(s.proxies, k))).0;
            Submit(s', Submission(k, p, Lookup(s'.proxies, k))).0 == s'
  {
    if k in s.proxies {
      UpdateSettles(s, k, p);
    } else {
      CreateSettles(s, k, p);
    }
  }

  lemma UpdateSettles(s: Server, k: Key, p: Proxy)
    requires k in s.proxies
    ensures var s' := UpdateProxy(s, k, Overwrite(s.proxies[k], p)).0;
            k in s'.proxies && UpdateProxy(s', k, Overwrite(s'.proxies[k], p)).0 == s'
  {
    var s' := UpdateProxy(s, k, Overwrite(s.proxies[k], p)).0;
    if AdmitUpdate(s.mutating, s.proxies[k].spec, p.spec).Admitted? {
      assert AdmitUpdate(s'.mutating, s'.proxies[k].spec, p.spec) == Admitted(s'.proxies[k].spec);
      SaidAlready(s', k, p);
    }
  }

  lemma CreateSettles(s: Server, k: Key, p: Proxy)
    requires k !in s.proxies && p.version == 0 && p.conditions == map[]
    ensures var s' := CreateProxy(s, k, p).0;
            Submit(s', Submission(k, p, Lookup(s'.proxies, k))).0 == s'
  {
    var s' := CreateProxy(s, k, p).0;
    if k in s'.proxies {
      assert AdmitUpdate(s'.mutating, s'.proxies[k].spec, p.spec) == Admitted(s'.proxies[k].spec);
      SaidAlready(s', k, p);
    }
  }

  lemma StepSettles(s: Server, g: Source, w: Work)
    requires Undisturbed(w)
    ensures Settled(ReconcilePR(s, g, w).0, g, w)
  {
    if Effective(g, w) {
      SubmissionSettles(s, ProxyKey(g, w.pr), Rendered(g, w.pr));
    }
  }

  lemma StepKeepsSettled(s: Server, g: Source, w: Work, other: Work)
    requires Undisturbed(w) && Undisturbed(other) && w.pr.number != other.pr.number && Settled(s, g, other)
    ensures Settled(ReconcilePR(s, g, w).0, g, other)
  {
    if ProxyKey(g, w.pr) == ProxyKey(g, other.pr) {
      ProxyKeyInjective(g, w.pr, g, other.pr);
    }
    var s' := ReconcilePR(s, g, w).0;
    StepEffect(s, g, w, ProxyKey(g, other.pr));
    SettledIsLocal(s, s', g, other);
  }

  lemma SettledIsLocal(s: Server, s': Server, g: Source, w: Work)
    requires Undisturbed(w) && Settled(s, g, w) && s'.mutating == s.mutating
    requires Lookup(s'.proxies, ProxyKey(g, w.pr)) == Lookup(s.proxies, ProxyKey(g, w.pr))
    ensures Settled(s', g, w)
  {
    if Effective(g, w) {
      var k, p := ProxyKey(g, w.pr), Rendered(g, w.pr);
      if k in s.proxies {
        var q := Overwrite(s.proxies[k], p);
        assert UpdateProxy(s, k, q).0 == s;
        if AdmitUpdate(s.mutating, s.proxies[k].spec, q.spec).Admitted? {
          assert UpdateProxy(s, k, q).0.clock == s.clock;
        }
      } else {
        assert CreateProxy(s, k, p).0 == s;
      }
    }
  }

  lemma {:induction false} PollSettles(s: Server, g: Source, works: seq<Work>, w: Work)
    requires DistinctNumbers(works) && (forall v | v in works :: Undisturbed(v)) && Undisturbed(w)
    requires w in works || (Settled(s, g, w) && forall v | v in works :: v.pr.number != w.pr.number)
    ensures Settled(Poll(s, g, works), g, w)
    decreases works
  {
    if works != [] {
      var v, rest := works[0], works[1..];
      RestIsDistinct(works);
      if v == w {
        StepSettles(s, g, w);
        assert forall u | u in rest :: u.pr.number != w.pr.number by {
          assert forall i | 0 <= i < |rest| :: rest[i] == works[i + 1] && works[0].pr.number != works[i + 1].pr.number;
        }
      } else if w !in rest {
        StepKeepsSettled(s, g, v, w);
      }
      PollSettles(ReconcilePR(s, g, v).0, g, rest, w);
    }
  }

  lemma {:induction false} PollOfSettled(s: Server, g: Source, works: seq<Work>)
    requires forall w | w in works :: Settled(s, g, w)
    ensures Poll(s, g, works) == s
  {
    if works != [] {
      assert works[0] in works;
      PollOfSettled(s, g, works[1..]);
    }
  }

  /** Polling an unchanged list again leaves the server exactly as it was, versions included. */
  lemma PollFixedPoint(s: Server, g: Source, works: seq<Work>)
    requires DistinctNumbers(works) && forall w | w in works :: Undisturbed(w)
    ensures Poll(Poll(s, g, works), g, works) == Poll(s, g, works)
  {
    forall w | w in works
      ensures Settled(Poll(s, g, works), g, w)
    {
      PollSettles(s, g, works, w);
    }
    PollOfSettled(Poll(s, g, works), g, works);
  }

  /** Landing a rendering twice is landing it once. */
  lemma LandedIsAFixedPoint(mutating: bool, before: Option<Proxy>, g: Source, pr: PullRequest)
    requires before.Some? ==> before.value.version == 0
    ensures var landed := Landed(mutating, before, g, pr); Landed(mutating, landed, g, pr) == landed
  {
  }

  /**
   * The same at one calm key, whatever trouble either poll has elsewhere and however it differs: if the pull request
   * the key belongs to got through in the first poll in case it gets through in the second, the second changes
   * nothing there.
   */
  lemma PollAgainAt(s: Server, g: Source, works: seq<Work>, again: seq<Work>, k: Key)
    requires DistinctNumbers(works) && DistinctNumbers(again)
    requires (forall w | w in works :: CalmAt(g, w, k)) && (forall v | v in again :: CalmAt(g, v, k))
    requires forall v | v in again && Effective(g, v) && ProxyKey(g, v.pr) == k ::
               exists w :: w in works && Effective(g, w) && w.pr == v.pr
    ensures var once := Poll(s, g, works);
            Content(Lookup(Poll(once, g, again).proxies, k)) == Content(Lookup(once.proxies, k))
  {
    var once := Poll(s, g, works);
    PollEffect(s, g, works, k);
    PollEffect(once, g, again, k);
    if v :| v in again && Effective(g, v) && ProxyKey(g, v.pr) == k {
      var w :| w in works && Effective(g, w) && w.pr == v.pr;
      LandedIsAFixedPoint(s.mutating, Content(Lookup(s.proxies, k)), g, v.pr);
    }
  }
}
