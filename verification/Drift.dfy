/**
 * How far the generator object a poll works on may drift from the spec it was read with, because rendered proxies and
 * server replies are written through objects shared with its template, and why the server cannot tell.
 */
module Drift {
  import opened Wrappers
  import opened Api
  import opened Admission
  import opened ApiServer
  import opened Render
  import opened Objects

  /**
   * The shared label map may differ in the two labels every rendering overwrites, the shared GitRepository in
   * everything a rendering overwrites and, where no path overrides it, in an empty path that a reply filled in.
   */
  ghost predicate Tracks(mutating: bool, value: GeneratorSpec, pristine: GeneratorSpec) {
    && value == pristine.(template := value.template)
    && value.template.annotations == pristine.template.annotations
    && value.template.spec.selector == pristine.template.spec.selector
    && LabelsTrack(value.template.labels, pristine.template.labels)
    && GitTracks(mutating, value.template.spec.git, pristine)
  }

  ghost predicate LabelsTrack(labels: Option<Labels>, pristine: Option<Labels>) {
    && (labels.Some? <==> pristine.Some?)
    && (labels.Some? ==>
          labels.value - {GENERATOR_LABEL, NUMBER_LABEL} == pristine.value - {GENERATOR_LABEL, NUMBER_LABEL})
  }

  ghost predicate GitTracks(mutating: bool, git: Option<GitRepo>, pristine: GeneratorSpec) {
    var original := pristine.template.spec.git;
    && (git.Some? <==> original.Some?)
    && (git.Some? ==>
          && git.value.knownHostsKey == original.value.knownHostsKey
          && (pristine.path != "" || pristine.source.path != "" || PathTracks(mutating, git.value.path,
              original.value.path)))
  }

  ghost predicate PathTracks(mutating: bool, path: string, original: string) {
    path == original || (mutating && original == "" && path == ".")
  }

  /** Equal but for a spec that the webhook makes equal. */
  ghost predicate Resembles(mutating: bool, p: Proxy, q: Proxy) {
    && q == p.(spec := q.spec)
    && p.spec.git.Some? && q.spec.git.Some?
    && Mutate(mutating, p.spec) == Mutate(mutating, q.spec)
  }

  /** Rendering a drifted spec gives what rendering the pristine one gives, as far as the server can tell. */
  lemma DriftedRendering(mutating: bool, key: Key, value: GeneratorSpec, pristine: GeneratorSpec, pr: PullRequest)
    requires Tracks(mutating, value, pristine)
    ensures Resembles(mutating, Rendered(Source(key, value), pr), Rendered(Source(key, pristine), pr))
  {
    var p, q := Rendered(Source(key, value), pr), Rendered(Source(key, pristine), pr);
    assert p.labels == q.labels by {
      var l, m := OrEmpty(value.template.labels), OrEmpty(pristine.template.labels);
      assert l - {GENERATOR_LABEL, NUMBER_LABEL} == m - {GENERATOR_LABEL, NUMBER_LABEL};
      forall k
        ensures k in p.labels <==> k in q.labels
        ensures k in p.labels ==> p.labels[k] == q.labels[k]
      {
        assert k in l - {GENERATOR_LABEL, NUMBER_LABEL} <==> k in m - {GENERATOR_LABEL, NUMBER_LABEL};
      }
    }
  }

  /** The spec in memory after a rendering wrote through its shared label map, through both shared objects ... */
  function LabelsWritten(g: Source, pr: PullRequest): GeneratorSpec {
    var t := g.spec.template;
    g.spec.(template := t.(labels := if t.labels.Some? then Some(RenderedLabels(g, pr)) else None))
  }

  function Written(g: Source, pr: PullRequest): GeneratorSpec {
    var value, t := LabelsWritten(g, pr), g.spec.template;
    value.(template := value.template.(
      spec := t.spec.(git := if t.spec.git.Some? then Some(RenderedGit(g.spec, pr)) else None)))
  }

  /** ... and after a reply was read back into its shared GitRepository. */
  function ReadBack(value: GeneratorSpec, reply: Option<Proxy>): GeneratorSpec {
    var spec := value.template.spec;
    if reply.None? || reply.value.spec.git.None? || spec.git.None? then value
    else value.(template := value.template.(spec := spec.(git := Some(Overwritten(spec.git.value,
        reply.value.spec.git.value)))))
  }

  lemma WritingKeepsTrack(mutating: bool, key: Key, value: GeneratorSpec, pristine: GeneratorSpec, pr: PullRequest)
    requires Tracks(mutating, value, pristine)
    ensures Tracks(mutating, Written(Source(key, value), pr), pristine)
    ensures Tracks(mutating, LabelsWritten(Source(key, value), pr), pristine)
  {
    var labels := value.template.labels;
    if labels.Some? {
      assert RenderedLabels(Source(key, value), pr) - {GENERATOR_LABEL, NUMBER_LABEL}
          == labels.value - {GENERATOR_LABEL, NUMBER_LABEL};
    }
  }

  lemma ReadingBackKeepsTrack(mutating: bool, key: Key, value: GeneratorSpec, pristine: GeneratorSpec,
                          pr: PullRequest, reply: Option<Proxy>)
    requires Tracks(mutating, value, pristine)
    requires reply.Some? ==> reply.value.spec == Mutate(mutating, Rendered(Source(key, value), pr).spec)
    ensures Tracks(mutating, ReadBack(Written(Source(key, value), pr), reply), pristine)
  {
    WritingKeepsTrack(mutating, key, value, pristine, pr);
  }

  /** The server cannot tell two specs apart that its webhook maps to the same one. */
  lemma SameOnceMutated(s: Server, k: Key, p: Proxy, q: Proxy, env: Env)
    requires Resembles(s.mutating, p, q)
    ensures Submitted(s, k, p, env) == Submitted(s, k, q, env)
  {
    ServeAllKeepsWebhook(s, env.foreign);
  }

  lemma {:induction false} ServeAllKeepsWebhook(s: Server, rs: seq<Request>)
    ensures ServeAll(s, rs).mutating == s.mutating
    decreases rs
  {
    if rs != [] {
      ServeAllKeepsWebhook(Serve(s, rs[0]), rs[1..]);
    }
  }

  /** A reply differs from what was sent by the webhook's defaults only. */
  lemma ReplyIsMutated(s: Server, k: Key, p: Proxy, env: Env)
    ensures var (_, reply) := Submitted(s, k, p, env);
            reply.Some? ==> p.spec.git.Some? && reply.value.spec == Mutate(s.mutating, p.spec)
    ensures Submitted(s, k, p, env).0.mutating == s.mutating
  {
    ServeAllKeepsWebhook(s, env.foreign);
  }

  /** What handling one pull request leaves of the spec in memory. */
  function Drifted(s: Server, g: Source, w: Work): GeneratorSpec {
    if !Accepts(g.spec.filters, w.pr) then g.spec
    else if !w.env.ownerSet then LabelsWritten(g, w.pr)
    else ReadBack(Written(g, w.pr), Submitted(s, ProxyKey(g, w.pr), Rendered(g, w.pr), w.env).1)
  }

  /** Working from a drifted spec has the effect of working from the pristine one, and keeps the drift in bounds. */
  lemma DriftIsHarmless(s: Server, key: Key, value: GeneratorSpec, pristine: GeneratorSpec, w: Work)
    requires Tracks(s.mutating, value, pristine)
    ensures ReconcilePR(s, Source(key, value), w) == ReconcilePR(s, Source(key, pristine), w)
    ensures Tracks(ReconcilePR(s, Source(key, value), w).0.mutating, Drifted(s, Source(key, value), w), pristine)
  {
    var k, sent := ProxyKey(Source(key, value), w.pr), Rendered(Source(key, value), w.pr);
    WritingKeepsTrack(s.mutating, key, value, pristine, w.pr);
    DriftedRendering(s.mutating, key, value, pristine, w.pr);
    SameOnceMutated(s, k, sent, Rendered(Source(key, pristine), w.pr), w.env);
    ReplyIsMutated(s, k, sent, w.env);
    ReadingBackKeepsTrack(s.mutating, key, value, pristine, w.pr, Submitted(s, k, sent, w.env).1);
  }
}
