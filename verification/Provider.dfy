/** Choosing a Git provider from a repository URL and building its "list open pull requests" request. */
module Provider {
  import opened Wrappers
  import opened Text
  import opened RepoUrl

  datatype Kind = GitHub | GitLab | Bitbucket | Unsupported

  datatype Client = Client(provider: Kind, host: string, allowNested: bool)

  datatype ApiRequest = ApiRequest(url: string, headers: map<string, string>)

  function HostOf(provider: Kind): string {
    match provider
    case GitHub => "github.com"
    case GitLab => "gitlab.com"
    case Bitbucket => "bitbucket.org"
    case Unsupported => ""
  }

  function ApiRoot(provider: Kind): string {
    match provider
    case GitHub => "https://api.github.com/"
    case GitLab => "https://gitlab.com/"
    case Bitbucket => "https://api.bitbucket.org/"
    case Unsupported => ""
  }

  function DetectProvider(url: string): Kind {
    var lower := ToLower(url);
    if Contains(lower, "github.com") then GitHub
    else if Contains(lower, "gitlab.com") then GitLab
    else if Contains(lower, "bitbucket.org") then Bitbucket
    else Unsupported
  }

  function NewProviderClient(url: string): Client {
    var provider := DetectProvider(url);
    match provider
    case GitHub => Client(provider, "github.com", false)
    case GitLab => Client(provider, "gitlab.com", true)
    case Bitbucket => Client(provider, "bitbucket.org", false)
    case Unsupported => Client(provider, "", false)
  }

  function ListingURL(provider: Kind, repo: Repo): string {
    match provider
    case GitHub => "https://api.github.com/repos/" + (repo.owner + "/" + repo.name + "/pulls?state=open")
    case GitLab => "https://gitlab.com/api/v4/projects/" + (UrlPathEscape(repo.owner + "/" + repo.name) +
        "/merge_requests?state=opened")
    case Bitbucket => "https://api.bitbucket.org/2.0/repositories/" + (repo.owner + "/" + repo.name +
        "/pullrequests?state=OPEN")
    case Unsupported => ""
  }

  /** The address a client asks about a URL's repository, if it asks. */
  function AskedBy(c: Client, url: string): Option<string> {
    if c.provider == Unsupported then None
    else match ParseRepoURL(url, c.host, c.allowNested)
      case None => None
      case Some(repo) => Some(ListingURL(c.provider, repo))
  }

  /**
   * Builds the request that lists the open pull requests. A request exists exactly when the client has a
   * supported provider and the URL parses for the client's host; it goes to the address the client asks, and the
   * credential travels in that provider's own header if there is one, and nowhere if there is none.
   */
  method ListPullRequests(c: Client, repoURL: string, secret: string) returns (request: Option<ApiRequest>)
    ensures request.Some? <==> c.provider != Unsupported && ParseRepoURL(repoURL, c.host, c.allowNested).Some?
    ensures request.Some? ==> AskedBy(c, repoURL) == Some(request.value.url)
    ensures request.Some? && c.provider == GitHub ==>
              request.value.headers == map["Accept" := "application/vnd.github.v3+json"] +
                  if secret != "" then map["Authorization" := "token " + secret] else map[]
    ensures request.Some? && c.provider == GitLab ==>
              request.value.headers == if secret != "" then map["Private-Token" := secret] else map[]
    ensures request.Some? && c.provider == Bitbucket ==>
              request.value.headers == if secret != "" then map["Authorization" := "Bearer " + secret] else map[]
  {
    var parsed := ParseRepoURL(repoURL, c.host, c.allowNested);
    if parsed.None? {
      return None;
    }
    var repo := parsed.value;
    var headers: map<string, string> := map[];
    match c.provider {
      case GitHub =>
        headers := headers["Accept" := "application/vnd.github.v3+json"];
        if |secret| > 0 {
          headers := headers["Authorization" := "token " + secret];
        }
      case GitLab =>
        if |secret| > 0 {
          headers := headers["Private-Token" := secret];
        }
      case Bitbucket =>
        if |secret| > 0 {
          headers := headers["Authorization" := "Bearer " + secret];
        }
      case Unsupported =>
        return None;
    }
    request := Some(ApiRequest(ListingURL(c.provider, repo), headers));
  }

  /** What NewProviderClient and ListPullRequests together decide about a URL. */
  ghost predicate RequestBuilt(url: string) {
    var c := NewProviderClient(url);
    c.provider != Unsupported && ParseRepoURL(url, c.host, c.allowNested).Some?
  }

  /** Soundness: a request only ever leaves for the API of the host the URL itself names. */
  lemma DispatchSound(url: string)
    ensures RequestBuilt(url) ==>
              var c := NewProviderClient(url);
              && (exists ssh :: HasPrefix(url, UrlPrefix(HostOf(c.provider), ssh)))
              && HasPrefix(ListingURL(c.provider, ParseRepoURL(url, c.host, c.allowNested).value), ApiRoot(c.provider))
  {
    if RequestBuilt(url) {
      var c := NewProviderClient(url);
      assert c.host == HostOf(c.provider);
      ParsedUrlHasHostPrefix(url, c.host, c.allowNested);
      ListingGoesToApi(c.provider, ParseRepoURL(url, c.host, c.allowNested).value);
    }
  }

  lemma ListingGoesToApi(provider: Kind, repo: Repo)
    ensures HasPrefix(ListingURL(provider, repo), ApiRoot(provider))
  {
    assert "https://api.github.com/repos/" == "https://api.github.com/" + "repos/";
    assert "https://gitlab.com/api/v4/projects/" == "https://gitlab.com/" + "api/v4/projects/";
    assert "https://api.bitbucket.org/2.0/repositories/" == "https://api.bitbucket.org/" + "2.0/repositories/";
  }

  predicate TestedEarlier(q: Kind, p: Kind) {
    (q == GitHub && (p == GitLab || p == Bitbucket)) || (q == GitLab && p == Bitbucket)
  }

  /** Where the pull requests of a URL's repository are listed: the address of the request, if one is built. */
  function ListingFor(url: string): Option<string> {
    AskedBy(NewProviderClient(url), url)
  }

  /** A URL printed with or without ".git" parses as what was printed. */
  lemma PrintedParses(p: Kind, ssh: bool, repo: Repo, dotGit: bool, nested: bool)
    requires '/' !in repo.owner && '/' !in repo.name && (dotGit || !HasSuffix(repo.name, ".git"))
    ensures ParseRepoURL(RepoURL(HostOf(p), ssh, repo) + (if dotGit then ".git" else ""), HostOf(p), nested)
         == Some(repo)
  {
    if dotGit {
      RoundTripDotGit(HostOf(p), ssh, repo, nested);
    } else {
      RoundTripUnsuffixed(HostOf(p), ssh, repo, nested);
      assert RepoURL(HostOf(p), ssh, repo) + "" == RepoURL(HostOf(p), ssh, repo);
    }
  }

  /**
   * Completeness, with its exact condition: a well-formed URL of a supported host is dispatched (to its own
   * provider) unless its path mentions a host name that is tested earlier, and then no request is built at all.
   */
  lemma DispatchComplete(p: Kind, ssh: bool, path: string)
    requires p != Unsupported && '/' in path
    ensures var url := UrlPrefix(HostOf(p), ssh) + path;
            && (RequestBuilt(url) <==> forall q | TestedEarlier(q, p) :: !Contains(ToLower(path), HostOf(q)))
            && (RequestBuilt(url) ==> NewProviderClient(url).provider == p)
  {
    var url := UrlPrefix(HostOf(p), ssh) + path;
    DetectsHost(p, ssh, path);
    var c := NewProviderClient(url);
    assert c.host == HostOf(c.provider);
    if c.provider == p {
      ParsePrefixed(c.host, ssh, path, c.allowNested);
    } else if ParseRepoURL(url, c.host, c.allowNested).Some? {
      ParsedUrlHasHostPrefix(url, c.host, c.allowNested);
      var other :| HasPrefix(url, UrlPrefix(c.host, other));
      PrefixDeterminesHost(p, ssh, c.provider, other, url);
    }
  }

  lemma DetectsHost(p: Kind, ssh: bool, path: string)
    requires p != Unsupported
    ensures var q := DetectProvider(UrlPrefix(HostOf(p), ssh) + path);
            && q != Unsupported
            && (q == p <==> forall e | TestedEarlier(e, p) :: !Contains(ToLower(path), HostOf(e)))
  {
    var lower := UrlPrefix(HostOf(p), ssh) + ToLower(path);
    LowerPrefixed(p, ssh, path);
    MentionsSplit(p, ssh, ToLower(path), GitHub);
    MentionsSplit(p, ssh, ToLower(path), GitLab);
    MentionsSplit(p, ssh, ToLower(path), Bitbucket);
    assert TestedEarlier(GitHub, GitLab) && TestedEarlier(GitHub, Bitbucket) && TestedEarlier(GitLab, Bitbucket);
  }

  lemma MentionsSplit(p: Kind, ssh: bool, path: string, q: Kind)
    requires p != Unsupported && q != Unsupported
    ensures Contains(UrlPrefix(HostOf(p), ssh) + path, HostOf(q)) <==> p == q || Contains(path, HostOf(q))
  {
    ContainsSplit(UrlPrefix(HostOf(p), ssh), path, HostOf(q));
    PrefixMentions(p, ssh, q);
  }

  predicate NoCapitals(s: string) {
    forall c | c in s :: !('A' <= c <= 'Z')
  }

  lemma PrefixHasNoCapitals(host: string, ssh: bool)
    requires NoCapitals(host)
    ensures NoCapitals(UrlPrefix(host, ssh))
  {
    assert NoCapitals("git@") && NoCapitals(":") && NoCapitals("https://") && NoCapitals("/");
  }

  lemma LowerBehind(prefix: string, path: string)
    requires NoCapitals(prefix)
    ensures ToLower(prefix + path) == prefix + ToLower(path)
  {
    assert forall i | 0 <= i < |prefix| :: prefix[i] in prefix;
  }

  lemma LowerPrefixed(p: Kind, ssh: bool, path: string)
    ensures ToLower(UrlPrefix(HostOf(p), ssh) + path) == UrlPrefix(HostOf(p), ssh) + ToLower(path)
  {
    PrefixHasNoCapitals(HostOf(p), ssh);
    LowerBehind(UrlPrefix(HostOf(p), ssh), path);
  }

  lemma NeedleInHaystack(s: string, needle: string, c: char)
    requires c in needle && Contains(s, needle)
    ensures c in s
  {
    var j :| 0 <= j < |needle| && needle[j] == c;
    var i :| 0 <= i <= |s| && OccursAt(s, needle, i);
    assert s[i..i + |needle|][j] == s[i + j];
  }

  /** A character of q's host name that p's prefix does not have. */
  function Tell(p: Kind, q: Kind): char {
    match q
    case GitHub => if p == GitLab then 'u' else 'm'
    case GitLab => 'l'
    case _ => 'k'
  }

  lemma TellTells(p: Kind, q: Kind)
    requires p != Unsupported && q != Unsupported && p != q
    ensures Tell(p, q) in HostOf(q) && Tell(p, q) !in HostOf(p) && Tell(p, q) !in "git@:https/"
  {
    assert HostOf(GitHub)[4] == 'u' && HostOf(GitHub)[9] == 'm' && HostOf(GitLab)[3] == 'l' &&
        HostOf(Bitbucket)[6] == 'k';
  }

  lemma PrefixMentions(p: Kind, ssh: bool, q: Kind)
    requires p != Unsupported && q != Unsupported
    ensures Contains(UrlPrefix(HostOf(p), ssh), HostOf(q)) <==> p == q
  {
    if p == q {
      PrefixNamesHost(HostOf(p), ssh);
    } else {
      TellTells(p, q);
      if Contains(UrlPrefix(HostOf(p), ssh), HostOf(q)) {
        NeedleInHaystack(UrlPrefix(HostOf(p), ssh), HostOf(q), Tell(p, q));
        PrefixChars(HostOf(p), ssh, Tell(p, q));
      }
    }
  }

  lemma PrefixNamesHost(host: string, ssh: bool)
    ensures Contains(UrlPrefix(host, ssh), host)
  {
    var at := if ssh then 4 else 8;
    assert UrlPrefix(host, ssh)[at..at + |host|] == host;
    assert OccursAt(UrlPrefix(host, ssh), host, at);
  }

  lemma PrefixChars(host: string, ssh: bool, c: char)
    requires c !in "git@:https/" && c in UrlPrefix(host, ssh)
    ensures c in host
  {
    assert forall d | d in "git@" || d in ":" || d in "https://" || d in "/" :: d in "git@:https/";
  }

  /** Where a URL says which host it is for. */
  lemma HostAt(host: string, ssh: bool, url: string, i: nat)
    requires HasPrefix(url, UrlPrefix(host, ssh)) && i < |host|
    ensures var at := if ssh then 4 else 8;
            at + i < |url| && url[at + i] == host[i] && url[0] == if ssh then 'g' else 'h'
  {
    var at := if ssh then 4 else 8;
    assert UrlPrefix(host, ssh)[at + i] == host[i];
  }

  /** No URL carries the prefixes of two different hosts. */
  lemma PrefixDeterminesHost(p: Kind, ssh: bool, q: Kind, other: bool, url: string)
    requires p != Unsupported && q != Unsupported
    requires HasPrefix(url, UrlPrefix(HostOf(p), ssh)) && HasPrefix(url, UrlPrefix(HostOf(q), other))
    ensures p == q
  {
    HostAt(HostOf(p), ssh, url, 0);
    HostAt(HostOf(q), other, url, 0);
    HostAt(HostOf(p), ssh, url, 3);
    HostAt(HostOf(q), other, url, 3);
  }

  lemma ClientOf(url: string)
    ensures var p := DetectProvider(url); NewProviderClient(url) == Client(p, HostOf(p), p == GitLab)
  {
  }

  lemma ListingIs(p: Kind, url: string, repo: Repo)
    requires p != Unsupported && DetectProvider(url) == p
    requires ParseRepoURL(url, HostOf(p), p == GitLab) == Some(repo)
    ensures ListingFor(url) == Some(ListingURL(p, repo))
  {
    ClientOf(url);
    AskedIs(p, HostOf(p), url, repo);
  }

  lemma AskedIs(p: Kind, host: string, url: string, repo: Repo)
    requires p != Unsupported && ParseRepoURL(url, host, p == GitLab) == Some(repo)
    ensures AskedBy(Client(p, host, p == GitLab), url) == Some(ListingURL(p, repo))
  {
  }

  lemma NoListing(url: string)
    requires !RequestBuilt(url)
    ensures ListingFor(url) == None
  {
  }

  /** Unless its path mentions a host that is looked for earlier, a URL leads to its own host's list. */
  lemma PrefixedListing(p: Kind, ssh: bool, path: string, repo: Repo)
    requires p != Unsupported && '/' in path
    requires ParseRepoURL(UrlPrefix(HostOf(p), ssh) + path, HostOf(p), p == GitLab) == Some(repo)
    ensures ListingFor(UrlPrefix(HostOf(p), ssh) + path) ==
              if exists q :: TestedEarlier(q, p) && Contains(ToLower(path), HostOf(q)) then None
              else Some(ListingURL(p, repo))
  {
    var url := UrlPrefix(HostOf(p), ssh) + path;
    DispatchComplete(p, ssh, path);
    if RequestBuilt(url) {
      ListingIs(p, url, repo);
    } else {
      NoListing(url);
    }
  }

  function PathOf(owner: string, name: string, dotGit: bool): string {
    owner + "/" + name + (if dotGit then ".git" else "")
  }

  lemma PrintedIs(host: string, ssh: bool, repo: Repo, ending: string)
    ensures UrlPrefix(host, ssh) + (repo.owner + "/" + repo.name + ending) == RepoURL(host, ssh, repo) + ending
    ensures '/' in repo.owner + "/" + repo.name + ending
  {
    var path := repo.owner + "/" + repo.name + ending;
    assert path[|repo.owner|] == '/';
  }

  lemma PrintedListing(p: Kind, ssh: bool, repo: Repo, dotGit: bool)
    requires p != Unsupported
    requires '/' !in repo.owner && '/' !in repo.name && (dotGit || !HasSuffix(repo.name, ".git"))
    ensures var path := PathOf(repo.owner, repo.name, dotGit);
            ListingFor(UrlPrefix(HostOf(p), ssh) + path) ==
              if exists q :: TestedEarlier(q, p) && Contains(ToLower(path), HostOf(q)) then None
              else Some(ListingURL(p, repo))
  {
    PrintedParses(p, ssh, repo, dotGit, p == GitLab);
    PrintedIs(HostOf(p), ssh, repo, if dotGit then ".git" else "");
    PrefixedListing(p, ssh, PathOf(repo.owner, repo.name, dotGit), repo);
  }

  /** The prefix that a host's URLs have. */
  lemma PrefixInFull(p: Kind, ssh: bool)
    ensures p == GitHub ==> UrlPrefix(HostOf(p), ssh) == if ssh then "git@github.com:" else "https://github.com/"
    ensures p == GitLab ==> UrlPrefix(HostOf(p), ssh) == if ssh then "git@gitlab.com:" else "https://gitlab.com/"
    ensures p == Bitbucket ==>
              UrlPrefix(HostOf(p), ssh) == if ssh then "git@bitbucket.org:" else "https://bitbucket.org/"
  {
    match (p, ssh)
    case (GitHub, true) => assert "git@" + "github.com" + ":" == "git@github.com:";
    case (GitHub, false) => assert "https://" + "github.com" + "/" == "https://github.com/";
    case (GitLab, true) => assert "git@" + "gitlab.com" + ":" == "git@gitlab.com:";
    case (GitLab, false) => assert "https://" + "gitlab.com" + "/" == "https://gitlab.com/";
    case (Bitbucket, true) => assert "git@" + "bitbucket.org" + ":" == "git@bitbucket.org:";
    case (Bitbucket, false) => assert "https://" + "bitbucket.org" + "/" == "https://bitbucket.org/";
    case (Unsupported, _) =>
  }

  /** On GitHub: the repository's own list, whichever way its URL is written. */
  lemma GitHubListing(ssh: bool, owner: string, name: string, dotGit: bool)
    requires '/' !in owner && '/' !in name && (dotGit || !HasSuffix(name, ".git"))
    ensures var path := PathOf(owner, name, dotGit);
            ListingFor((if ssh then "git@github.com:" else "https://github.com/") + path)
            == Some("https://api.github.com/repos/" + (owner + "/" + name + "/pulls?state=open"))
  {
    PrefixInFull(GitHub, ssh);
    PrintedListing(GitHub, ssh, Repo(owner, name), dotGit);
  }

  /** On Bitbucket: the same, unless the path mentions one of the other two hosts, and then there is no request. */
  lemma BitbucketListing(ssh: bool, owner: string, name: string, dotGit: bool)
    requires '/' !in owner && '/' !in name && (dotGit || !HasSuffix(name, ".git"))
    ensures var path := PathOf(owner, name, dotGit);
            ListingFor((if ssh then "git@bitbucket.org:" else "https://bitbucket.org/") + path)
            == if Contains(ToLower(path), "github.com") || Contains(ToLower(path), "gitlab.com") then None
               else Some("https://api.bitbucket.org/2.0/repositories/" +
                   (owner + "/" + name + "/pullrequests?state=OPEN"))
  {
    PrefixInFull(Bitbucket, ssh);
    PrintedListing(Bitbucket, ssh, Repo(owner, name), dotGit);
    assert TestedEarlier(GitHub, Bitbucket) && TestedEarlier(GitLab, Bitbucket);
  }

  /** On GitLab: the project whose id decodes to the whole path, however many groups it has. */
  lemma GitLabListing(ssh: bool, path: string) returns (id: string)
    requires '/' in path
    ensures ListingFor((if ssh then "git@gitlab.com:" else "https://gitlab.com/") + path)
         == if Contains(ToLower(path), "github.com") then None
            else Some("https://gitlab.com/api/v4/projects/" + (id + "/merge_requests?state=opened"))
    ensures '/' !in id
    ensures PercentDecode(id) == Some(TrimSuffix(path, ".git")) <==> '%' !in TrimSuffix(path, ".git")
  {
    var whole := TrimSuffix(path, ".git");
    id := UrlPathEscape(whole);
    PrefixInFull(GitLab, ssh);
    EscapedHasNoSlash(whole);
    ProjectIdDecodes(whole);
    NestedKeepsWholePath("gitlab.com", ssh, path);
    var repo := ParseRepoURL(UrlPrefix("gitlab.com", ssh) + path, "gitlab.com", true).value;
    PrefixedListing(GitLab, ssh, path, repo);
    assert TestedEarlier(GitHub, GitLab);
  }

  /** A host that is none of the three never yields a request. */
  lemma UnsupportedHostRejected(url: string)
    requires forall p, ssh | p != Unsupported :: !HasPrefix(url, UrlPrefix(HostOf(p), ssh))
    ensures !RequestBuilt(url)
  {
    DispatchSound(url);
  }
}
