/**
 * The API types of the add-on provider, as values. A nil pointer, slice or map that the code tells apart from an empty
 * one is an Option.
 */
module Api {
  import opened Wrappers

  type Labels = map<string, string>

  datatype Key = Key(namespace: string, name: string)

  datatype GitRepo = GitRepo(url: string, reference: string, path: string,
                             secretRef: string, secretKey: string, knownHostsKey: string)

  datatype Operator = In | NotIn | Exists | DoesNotExist | Unknown

  datatype Requirement = Requirement(key: string, operator: Operator, values: seq<string>)

  datatype Selector = Selector(matchLabels: Labels, matchExpressions: seq<Requirement>)

  datatype ProxySpec = ProxySpec(git: Option<GitRepo>, selector: Selector)

  datatype Condition = Condition(holds: bool, reason: string, message: string)

  /** A stored Cdk8sAppProxy; its conditions are keyed by their type. */
  datatype Proxy = Proxy(version: nat, labels: Labels, annotations: Labels, owner: Option<string>,
                         spec: ProxySpec, conditions: map<string, Condition>)

  datatype Template = Template(labels: Option<Labels>, annotations: Option<Labels>, spec: ProxySpec)

  datatype GeneratorSpec = GeneratorSpec(source: GitRepo, filters: seq<string>, template: Template,
                                         path: string, pollInterval: Option<int>)

  /** A stored Cdk8sAppProxyGenerator; times are nanoseconds. */
  datatype Generator = Generator(version: nat, spec: GeneratorSpec, lastPolled: Option<int>,
                                 conditions: map<string, Condition>)

  datatype PullRequest = PullRequest(number: int, branch: string, baseBranch: string)
}
