/** Both controllers together: what a ready proxy of a pull request was deployed from. */
module Preview {
  import opened Wrappers
  import opened Api
  import opened Admission
  import opened Render
  import opened ProxyRun
  import opened Synthesizer
  import opened Workdir
  import opened Interleaving
  import opened Isolation

  /**
   * If, when the write of a ready run is accepted, its proxy is stored as the generator renders a pull request, then
   * what was applied to the clusters the template selects is what the source's repository and the pull request's
   * branch synthesized to, at the path of highest precedence.
   */
  lemma PullRequestIsDeployed(mutating: bool, steps: seq<Step>, load: Workload, id: nat, g: Source, pr: PullRequest)
    requires Queued(Init(mutating), steps, load) && Apart(load)
    requires AcceptedReady(Exec(Init(mutating), steps), id)
    requires var s := Exec(Init(mutating), steps);
             s.runs[id].key == ProxyKey(g, pr) &&
                 StoredAsRendered(mutating, Lookup(s.server.proxies, ProxyKey(g, pr)), g, pr)
    ensures var r := Exec(Init(mutating), steps).runs[id];
            var branch := if pr.branch == "" && mutating then "main" else pr.branch;
            var job := Job(ProxyKey(g, pr), branch, Landing(mutating, g.spec));
            && r.cloned.Some? && r.cloned.value.url == g.spec.source.url && r.cloned.value.branch == branch
            && Inside(job) && SynthesisOf(r.cloned.value.tree(Relative(job))) == Parsed(r.resources)
            && AppliedTo(g.spec.template.spec.selector, r.resources) in r.acts
            && CheckedOn(g.spec.template.spec.selector, r.resources) in r.acts
  {
    ReadyIsDeployed(mutating, steps, load, id);
    RenderedRepository(mutating, g, pr);
    var r := Exec(Init(mutating), steps).runs[id];
    assert r.acts[2] == AppliedTo(r.read.spec.selector, r.resources) &&
        r.acts[3] == CheckedOn(r.read.spec.selector, r.resources);
  }
}
