/**
 * The API objects as the controllers hold them in memory: structs that share label maps and GitRepository objects
 * by pointer, their generated deep copies, the defaulting webhook and the way a server reply is read back.
 */
module Objects {
  import opened Wrappers
  import opened Api
  import opened Admission

  class GitRepository {
    var url: string
    var reference: string
    var path: string
    var secretRef: string
    var secretKey: string
    var knownHostsKey: string

    function Value(): GitRepo
      reads this
    {
      GitRepo(url, reference, path, secretRef, secretKey, knownHostsKey)
    }

    constructor (v: GitRepo)
      ensures Value() == v
    {
      url, reference, path := v.url, v.reference, v.path;
      secretRef, secretKey, knownHostsKey := v.secretRef, v.secretKey, v.knownHostsKey;
    }

    /** The defaulting webhook, on the object it is handed. */
    method Default()
      modifies this
      ensures Value() == Defaulted(old(Value()))
    {
      if reference == "" {
        reference := "main";
      }
      if path == "" {
        path := ".";
      }
    }

    /** Decoding a reply into an existing object: a field the reply omits because it is empty keeps its value. */
    method ReadReply(reply: GitRepo)
      modifies this
      ensures Value() == Overwritten(old(Value()), reply)
      ensures url == if reply.url != "" then reply.url else old(url)
      ensures reference == if reply.reference != "" then reply.reference else old(reference)
      ensures path == if reply.path != "" then reply.path else old(path)
      ensures secretRef == if reply.secretRef != "" then reply.secretRef else old(secretRef)
      ensures secretKey == if reply.secretKey != "" then reply.secretKey else old(secretKey)
      ensures knownHostsKey == if reply.knownHostsKey != "" then reply.knownHostsKey else old(knownHostsKey)
    {
      url := Kept(url, reply.url);
      reference := Kept(reference, reply.reference);
      path := Kept(path, reply.path);
      secretRef := Kept(secretRef, reply.secretRef);
      secretKey := Kept(secretKey, reply.secretKey);
      knownHostsKey := Kept(knownHostsKey, reply.knownHostsKey);
    }
  }

  function Kept(field: string, reply: string): string {
    if reply == "" then field else reply
  }

  function Overwritten(git: GitRepo, reply: GitRepo): GitRepo {
    GitRepo(Kept(git.url, reply.url), Kept(git.reference, reply.reference), Kept(git.path, reply.path),
            Kept(git.secretRef, reply.secretRef), Kept(git.secretKey, reply.secretKey),
            Kept(git.knownHostsKey, reply.knownHostsKey))
  }

  class StringMap {
    var entries: Labels

    constructor (entries: Labels)
      ensures this.entries == entries
    {
      this.entries := entries;
    }
  }

  function MapValue(m: StringMap?): Option<Labels>
    reads m
  {
    if m == null then None else Some(m.entries)
  }

  class ProxySpecStruct {
    var git: GitRepository?
    var selector: Selector

    constructor (git: GitRepository?, selector: Selector)
      ensures this.git == git && this.selector == selector
    {
      this.git, this.selector := git, selector;
    }

    function Value(): ProxySpec
      reads this, git
    {
      ProxySpec(if git == null then None else Some(git.Value()), selector)
    }

    method DeepCopyInto(out: ProxySpecStruct)
      requires out != this
      modifies out
      ensures out.Value() == Value()
      ensures out.git != null ==> fresh(out.git)
    {
      out.git, out.selector := git, selector;
      if git != null {
        out.git := new GitRepository(git.Value());
      }
    }
  }

  class TemplateStruct {
    var labels: StringMap?
    var annotations: StringMap?
    const spec: ProxySpecStruct

    constructor ()
      ensures fresh(spec) && labels == null && annotations == null
    {
      labels, annotations := null, null;
      spec := new ProxySpecStruct(null, Selector(map[], []));
    }

    /** Two maps of one object are never the same map. */
    predicate Valid()
      reads this
    {
      labels == null || labels != annotations
    }

    function Value(): Template
      reads this, labels, annotations, spec, spec.git
    {
      Template(MapValue(labels), MapValue(annotations), spec.Value())
    }

    method DeepCopyInto(out: TemplateStruct)
      requires Valid() && out != this && out.spec != spec
      modifies out, out.spec
      ensures out.Valid() && out.Value() == Value()
      ensures out.labels != null ==> fresh(out.labels)
      ensures out.annotations != null ==> fresh(out.annotations)
      ensures out.spec.git != null ==> fresh(out.spec.git)
    {
      out.labels, out.annotations := labels, annotations;
      if labels != null {
        out.labels := new StringMap(labels.entries);
      }
      if annotations != null {
        out.annotations := new StringMap(annotations.entries);
      }
      spec.DeepCopyInto(out.spec);
    }
  }

  /** A new array with the same elements. */
  method CopyOf<T>(a: array<T>, zero: T) returns (copy: array<T>)
    ensures fresh(copy) && copy[..] == a[..]
  {
    copy := new T[a.Length](_ => zero);
    for i := 0 to a.Length
      modifies copy
      invariant copy[..i] == a[..i]
    {
      copy[i] := a[i];
    }
    assert copy[..] == copy[..a.Length] == a[..a.Length] == a[..];
  }

  class Duration {
    var nanoseconds: int

    constructor (n: int)
      ensures nanoseconds == n
    {
      nanoseconds := n;
    }
  }

  class GeneratorSpecStruct {
    var source: GitRepo
    var filters: array?<string>
    const template: TemplateStruct
    var path: string
    var pollInterval: Duration?

    constructor (source: GitRepo)
      ensures fresh(template) && fresh(template.spec) && template.Valid()
      ensures filters == null && pollInterval == null
    {
      this.source, filters, path, pollInterval := source, null, "", null;
      template := new TemplateStruct();
    }

    function Value(): GeneratorSpec
      reads this, filters, pollInterval
      reads template, template.labels, template.annotations, template.spec, template.spec.git
    {
      GeneratorSpec(source, if filters == null then [] else filters[..], template.Value(), path,
                    if pollInterval == null then None else Some(pollInterval.nanoseconds))
    }

    /** The copy reads the same and shares no object that can be written through. */
    method DeepCopyInto(out: GeneratorSpecStruct)
      requires template.Valid()
      requires out != this && out.template != template && out.template.spec != template.spec
      modifies out, out.template, out.template.spec
      ensures out.template.Valid() && out.Value() == Value()
      ensures out.filters != null ==> fresh(out.filters)
      ensures out.pollInterval != null ==> fresh(out.pollInterval)
      ensures out.template.labels != null ==> fresh(out.template.labels)
      ensures out.template.annotations != null ==> fresh(out.template.annotations)
      ensures out.template.spec.git != null ==> fresh(out.template.spec.git)
    {
      out.source, out.filters, out.path, out.pollInterval := source, filters, path, pollInterval;
      if filters != null {
        out.filters := CopyOf(filters, "");
      }
      template.DeepCopyInto(out.template);
      if pollInterval != null {
        out.pollInterval := new Duration(pollInterval.nanoseconds);
      }
      assert out.template.Value() == template.Value();
    }

    method DeepCopy() returns (out: GeneratorSpecStruct)
      requires template.Valid()
      ensures out.template.Valid() && out.Value() == Value()
      ensures fresh(out) && fresh(out.template) && fresh(out.template.spec)
      ensures out.filters != null ==> fresh(out.filters)
      ensures out.pollInterval != null ==> fresh(out.pollInterval)
      ensures out.template.labels != null ==> fresh(out.template.labels)
      ensures out.template.annotations != null ==> fresh(out.template.annotations)
      ensures out.template.spec.git != null ==> fresh(out.template.spec.git)
    {
      out := new GeneratorSpecStruct(source);
      DeepCopyInto(out);
    }
  }

  class Time {
    var nanoseconds: int

    constructor (n: int)
      ensures nanoseconds == n
    {
      nanoseconds := n;
    }
  }

  class GeneratorStatusStruct {
    var conditions: array?<Condition>
    var lastPolledTime: Time?

    /** The copy reads the same and shares neither the conditions slice nor the time. */
    method DeepCopyInto(out: GeneratorStatusStruct)
      requires out != this
      modifies out
      ensures out.conditions == null <==> conditions == null
      ensures conditions != null ==> fresh(out.conditions) && out.conditions[..] == conditions[..]
      ensures out.lastPolledTime == null <==> lastPolledTime == null
      ensures lastPolledTime != null ==>
                fresh(out.lastPolledTime) && out.lastPolledTime.nanoseconds == lastPolledTime.nanoseconds
    {
      out.conditions, out.lastPolledTime := conditions, lastPolledTime;
      if conditions != null {
        out.conditions := CopyOf(conditions, Condition(false, "", ""));
      }
      if lastPolledTime != null {
        out.lastPolledTime := new Time(lastPolledTime.nanoseconds);
      }
    }
  }

  class ProxyStruct {
    const key: Key
    var version: nat
    var labels: StringMap?
    var annotations: StringMap?
    var owner: Option<string>
    const spec: ProxySpecStruct
    var conditions: map<string, Condition>

    constructor (key: Key, labels: StringMap?, annotations: StringMap?)
      ensures this.key == key && this.labels == labels && this.annotations == annotations
      ensures version == 0 && owner == None && conditions == map[]
      ensures fresh(spec) && spec.git == null
    {
      this.key, this.labels, this.annotations := key, labels, annotations;
      version, owner, conditions := 0, None, map[];
      spec := new ProxySpecStruct(null, Selector(map[], []));
    }

    constructor Decoded(key: Key, p: Proxy)
      ensures this.key == key && Wire() == p && (labels == null || labels != annotations)
      ensures fresh(spec) && (spec.git == null || fresh(spec.git))
      ensures (labels == null || fresh(labels)) && (annotations == null || fresh(annotations))
    {
      this.key, version, owner, conditions := key, p.version, p.owner, p.conditions;
      labels := new StringMap(p.labels);
      annotations := new StringMap(p.annotations);
      if p.spec.git.Some? {
        var git := new GitRepository(p.spec.git.value);
        spec := new ProxySpecStruct(git, p.spec.selector);
      } else {
        spec := new ProxySpecStruct(null, p.spec.selector);
      }
    }

    predicate Valid()
      reads this
    {
      labels == null || labels != annotations
    }

    /** What is sent: absent and empty maps look the same. */
    function Wire(): Proxy
      reads this, labels, annotations, spec, spec.git
    {
      Proxy(version, if labels == null then map[] else labels.entries,
            if annotations == null then map[] else annotations.entries, owner, spec.Value(), conditions)
    }

    /** The reply is decoded into the object that was sent, hence into whatever that object shares. */
    method ReadReply(reply: Proxy)
      requires Valid() && spec.git != null && reply.spec.git.Some?
      requires reply.labels == Wire().labels && reply.annotations == Wire().annotations
      modifies this, labels, annotations, spec, spec.git
      ensures labels == old(labels) && annotations == old(annotations) && spec.git == old(spec.git)
      ensures labels != null ==> labels.entries == old(labels.entries)
      ensures annotations != null ==> annotations.entries == old(annotations.entries)
      ensures spec.git.Value() == Overwritten(old(spec.git.Value()), reply.spec.git.value)
      ensures version == reply.version && owner == reply.owner && conditions == reply.conditions
      ensures spec.selector == reply.spec.selector
    {
      version, owner, conditions := reply.version, reply.owner, reply.conditions;
      if labels != null {
        labels.entries := labels.entries + reply.labels;
      }
      if annotations != null {
        annotations.entries := annotations.entries + reply.annotations;
      }
      spec.git.ReadReply(reply.spec.git.value);
      spec.selector := reply.spec.selector;
    }
  }
}
