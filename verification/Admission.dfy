/** The admission webhook: what it fills in and which writes it lets through. */
module Admission {
  import opened Wrappers
  import opened Api

  /** Rejected also stands for a handler that dereferenced a nil GitRepository: the write does not land. */
  datatype Verdict = Admitted(spec: ProxySpec) | Rejected

  function Defaulted(git: GitRepo): (d: GitRepo)
    ensures d.reference != "" && d.path != ""
    ensures d == git.(reference := d.reference, path := d.path)
    ensures d.reference == if git.reference != "" then git.reference else "main"
    ensures d.path == if git.path != "" then git.path else "."
  {
    git.(reference := if git.reference == "" then "main" else git.reference,
         path := if git.path == "" then "." else git.path)
  }

  /** Whether the mutating half of the webhook is registered is a choice of the deployment. */
  function Mutate(mutating: bool, spec: ProxySpec): ProxySpec
    requires spec.git.Some?
  {
    if mutating then spec.(git := Some(Defaulted(spec.git.value))) else spec
  }

  function AdmitCreate(mutating: bool, spec: ProxySpec): Verdict {
    if spec.git.None? then Rejected
    else
      var mutated := Mutate(mutating, spec);
      if mutated.git.value.url == "" then Rejected else Admitted(mutated)
  }

  function AdmitUpdate(mutating: bool, before: ProxySpec, spec: ProxySpec): Verdict {
    if spec.git.None? || before.git.None? then Rejected
    else
      var mutated := Mutate(mutating, spec);
      if mutated.git.value.url != before.git.value.url then Rejected else Admitted(mutated)
  }

  /** What the proxy controller relies on when it dereferences a stored spec. */
  predicate Sound(mutating: bool, spec: ProxySpec) {
    && spec.git.Some?
    && spec.git.value.url != ""
    && (mutating ==> spec.git.value.reference != "" && spec.git.value.path != "")
  }

  /**
   * A create lands exactly when a repository with a URL is named; what lands is sound and changes nothing that was set.
   */
  lemma CreateVerdict(mutating: bool, spec: ProxySpec)
    ensures AdmitCreate(mutating, spec).Admitted? <==> spec.git.Some? && spec.git.value.url != ""
    ensures AdmitCreate(mutating, spec).Admitted? ==>
              var landed := AdmitCreate(mutating, spec).spec;
              && Sound(mutating, landed)
              && landed.selector == spec.selector
              && landed.git.value.url == spec.git.value.url
              && (spec.git.value.reference != "" ==> landed.git.value.reference == spec.git.value.reference)
              && (spec.git.value.path != "" ==> landed.git.value.path == spec.git.value.path)
              && AdmitCreate(mutating, landed) == Admitted(landed)
  {
  }

  /** An update of a sound object lands exactly when it keeps the URL, and leaves the object sound. */
  lemma UpdateVerdict(mutating: bool, before: ProxySpec, spec: ProxySpec)
    requires Sound(mutating, before)
    ensures AdmitUpdate(mutating, before, spec).Admitted? <==>
              spec.git.Some? && spec.git.value.url == before.git.value.url
    ensures AdmitUpdate(mutating, before, spec).Admitted? ==>
              var landed := AdmitUpdate(mutating, before, spec).spec;
              && Sound(mutating, landed)
              && landed.git.value.url == before.git.value.url
              && AdmitUpdate(mutating, landed, spec) == Admitted(landed)
              && AdmitCreate(mutating, spec) == Admitted(landed)
  {
  }
}
