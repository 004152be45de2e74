/** Repository URLs: how owner and name are cut out of them and how a nested path is escaped for an API call. */
module RepoUrl {
  import opened Wrappers
  import opened Text

  datatype Repo = Repo(owner: string, name: string)

  /** The two spellings under which a host's repositories are recognised. */
  function UrlPrefix(host: string, ssh: bool): string {
    if ssh then "git@" + host + ":" else "https://" + host + "/"
  }

  function ParseRepoPath(path: string, nested: bool): Option<Repo> {
    var parts := Split(path, '/');
    if |parts| < 2 then None
    else Some(Repo(parts[0], if nested then Join(parts[1..], '/') else parts[1]))
  }

  function ParseAfter(url: string, prefix: string, nested: bool): Option<Repo> {
    if HasPrefix(url, prefix) then ParseRepoPath(url[|prefix|..], nested) else None
  }

  function ParseRepoURL(url: string, host: string, nested: bool): Option<Repo> {
    var trimmed := TrimSuffix(url, ".git");
    var https := ParseAfter(trimmed, UrlPrefix(host, false), nested);
    if https.Some? then https else ParseAfter(trimmed, UrlPrefix(host, true), nested)
  }

  /** The only URLs that parse carry the host's own prefix. */
  lemma ParsedUrlHasHostPrefix(url: string, host: string, nested: bool)
    requires ParseRepoURL(url, host, nested).Some?
    ensures exists ssh :: HasPrefix(url, UrlPrefix(host, ssh))
  {
    var trimmed := TrimSuffix(url, ".git");
    assert forall prefix: string {:trigger HasPrefix(trimmed, prefix)} | HasPrefix(trimmed, prefix) :: HasPrefix(url,
        prefix);
    if ParseAfter(trimmed, UrlPrefix(host, false), nested).Some? {
      assert HasPrefix(url, UrlPrefix(host, false));
    } else {
      assert HasPrefix(url, UrlPrefix(host, true));
    }
  }

  /** A suffix cannot reach back over a character it does not contain. */
  lemma SuffixLocal(left: string, right: string, suffix: string, i: int)
    requires 0 <= i < |right| && right[i] !in suffix
    ensures HasSuffix(left + right, suffix) <==> HasSuffix(right, suffix)
    ensures HasSuffix(right, suffix) ==> i < |right| - |suffix|
  {
    var s := left + right;
    if HasSuffix(s, suffix) {
      assert forall j | |s| - |suffix| <= j < |s| :: s[j] in suffix by {
        assert forall j | |s| - |suffix| <= j < |s| :: s[j] == suffix[j - (|s| - |suffix|)];
      }
      assert s[|left| + i] !in suffix;
      assert s[|s| - |suffix|..] == right[|right| - |suffix|..];
    }
    if HasSuffix(right, suffix) {
      assert forall j | |right| - |suffix| <= j < |right| :: right[j] in suffix by {
        assert forall j | |right| - |suffix| <= j < |right| :: right[j] == suffix[j - (|right| - |suffix|)];
      }
      assert s[|s| - |suffix|..] == right[|right| - |suffix|..];
    }
  }

  /** Trimming ".git" never reaches into the host part of a URL whose path has a slash. */
  lemma TrimKeepsPrefix(prefix: string, path: string)
    requires '/' in path
    ensures TrimSuffix(prefix + path, ".git") == prefix + TrimSuffix(path, ".git")
    ensures '/' in TrimSuffix(path, ".git")
  {
    var i :| 0 <= i < |path| && path[i] == '/';
    SuffixLocal(prefix, path, ".git", i);
    if HasSuffix(path, ".git") {
      assert path[..|path| - 4][i] == '/';
    }
  }

  /** A host's prefix followed by any path with a slash parses exactly as that path does. */
  lemma ParsePrefixed(host: string, ssh: bool, path: string, nested: bool)
    requires '/' in path
    ensures ParseRepoURL(UrlPrefix(host, ssh) + path, host, nested)
         == ParseRepoPath(TrimSuffix(path, ".git"), nested)
    ensures ParseRepoPath(TrimSuffix(path, ".git"), nested).Some?
  {
    var prefix := UrlPrefix(host, ssh);
    TrimKeepsPrefix(prefix, path);
    var trimmed := TrimSuffix(path, ".git");
    SplitCount(trimmed, '/');
    assert (prefix + trimmed)[|prefix|..] == trimmed;
    if ssh {
      assert (prefix + trimmed)[0] == 'g' && UrlPrefix(host, false)[0] == 'h';
    }
  }

  function RepoURL(host: string, ssh: bool, repo: Repo): string {
    UrlPrefix(host, ssh) + repo.owner + "/" + repo.name
  }

  lemma PathParses(repo: Repo, nested: bool)
    requires '/' !in repo.owner && '/' !in repo.name
    ensures ParseRepoPath(repo.owner + "/" + repo.name, nested) == Some(repo)
  {
    SplitFirst(repo.owner, repo.name, '/');
    SplitWhole(repo.name, '/');
  }

  /** Printing then parsing gives the repository back when ".git" is appended ... */
  lemma RoundTripDotGit(host: string, ssh: bool, repo: Repo, nested: bool)
    requires '/' !in repo.owner && '/' !in repo.name
    ensures ParseRepoURL(RepoURL(host, ssh, repo) + ".git", host, nested) == Some(repo)
  {
    var path := repo.owner + "/" + repo.name;
    assert (path + ".git")[..|path|] == path && (path + ".git")[|path|..] == ".git";
    assert RepoURL(host, ssh, repo) + ".git" == UrlPrefix(host, ssh) + (path + ".git");
    assert (path + ".git")[|repo.owner|] == '/';
    ParsePrefixed(host, ssh, path + ".git", nested);
    PathParses(repo, nested);
  }

  /** ... and, when nothing is appended, exactly if the name does not itself end in ".git". */
  lemma RoundTripPlain(host: string, ssh: bool, repo: Repo, nested: bool)
    requires '/' !in repo.owner && '/' !in repo.name
    ensures ParseRepoURL(RepoURL(host, ssh, repo), host, nested) == Some(repo) <==> !HasSuffix(repo.name, ".git")
  {
    if HasSuffix(repo.name, ".git") {
      var stem := Repo(repo.owner, repo.name[..|repo.name| - 4]);
      assert stem.name + ".git" == repo.name;
      assert RepoURL(host, ssh, repo) == RepoURL(host, ssh, stem) + ".git";
      RoundTripDotGit(host, ssh, stem, nested);
    } else {
      RoundTripUnsuffixed(host, ssh, repo, nested);
    }
  }

  lemma RoundTripUnsuffixed(host: string, ssh: bool, repo: Repo, nested: bool)
    requires '/' !in repo.owner && '/' !in repo.name && !HasSuffix(repo.name, ".git")
    ensures ParseRepoURL(RepoURL(host, ssh, repo), host, nested) == Some(repo)
  {
    var path := repo.owner + "/" + repo.name;
    assert RepoURL(host, ssh, repo) == UrlPrefix(host, ssh) + path;
    assert path[|repo.owner|] == '/';
    assert path == repo.owner + ("/" + repo.name);
    SlashThenName(repo.name);
    SuffixLocal(repo.owner, "/" + repo.name, ".git", 0);
    ParsePrefixed(host, ssh, path, nested);
    PathParses(repo, nested);
  }

  lemma SlashThenName(name: string)
    ensures HasSuffix("/" + name, ".git") <==> HasSuffix(name, ".git")
  {
    if |name| >= 4 {
      assert ("/" + name)[|name| - 3..] == name[|name| - 4..];
    } else if |name| == 3 {
      assert ("/" + name)[0] != ".git"[0];
    }
  }

  /** In nested mode nothing of the path is lost, however many groups it has. */
  lemma NestedKeepsWholePath(host: string, ssh: bool, path: string)
    requires '/' in path
    ensures var r := ParseRepoURL(UrlPrefix(host, ssh) + path, host, true);
            r.Some? && '/' !in r.value.owner && r.value.owner + "/" + r.value.name == TrimSuffix(path, ".git")
  {
    ParsePrefixed(host, ssh, path, true);
    var trimmed := TrimSuffix(path, ".git");
    var parts := Split(trimmed, '/');
    JoinSplit(trimmed, '/');
    FirstPartHasNoSeparator(trimmed, '/');
  }

  lemma {:induction false} FirstPartHasNoSeparator(s: string, sep: char)
    ensures sep !in Split(s, sep)[0]
  {
    if s != "" {
      FirstPartHasNoSeparator(s[1..], sep);
    }
  }

  /** strings.ReplaceAll(s, "/", "%2F"). */
  function UrlPathEscape(s: string): string {
    if s == "" then ""
    else (if s[0] == '/' then "%2F" else [s[0]]) + UrlPathEscape(s[1..])
  }

  predicate IsHex(c: char) {
    '0' <= c <= '9' || 'a' <= c <= 'f' || 'A' <= c <= 'F'
  }

  function HexValue(c: char): (v: int)
    requires IsHex(c)
    ensures 0 <= v < 16
  {
    if c <= '9' then c as int - '0' as int
    else if c <= 'F' then c as int - 'A' as int + 10
    else c as int - 'a' as int + 10
  }

  /** Percent-decoding as in section 2.1 of RFC 3986; a stray percent sign is an error. */
  function PercentDecode(s: string): Option<string> {
    if s == "" then Some("")
    else if s[0] != '%' then
      match PercentDecode(s[1..])
      case Some(rest) => Some([s[0]] + rest)
      case None => None
    else if |s| < 3 || !IsHex(s[1]) || !IsHex(s[2]) then None
    else
      match PercentDecode(s[3..])
      case Some(rest) => Some([(HexValue(s[1]) * 16 + HexValue(s[2])) as char] + rest)
      case None => None
  }

  lemma {:induction false} EscapedHasNoSlash(s: string)
    ensures '/' !in UrlPathEscape(s)
  {
    if s != "" {
      EscapedHasNoSlash(s[1..]);
    }
  }

  lemma {:induction false} EscapeSlash(s: string)
    requires s != "" && s[0] == '/'
    ensures PercentDecode(UrlPathEscape(s)) == (match PercentDecode(UrlPathEscape(s[1..]))
                                                case Some(rest) => Some("/" + rest)
                                                case None => None)
  {
    var e := UrlPathEscape(s);
    assert e[3..] == UrlPathEscape(s[1..]);
    assert e[0] == '%' && e[1] == '2' && e[2] == 'F';
    assert (HexValue('2') * 16 + HexValue('F')) as char == '/';
  }

  /** Decoding an escaped path shrinks it by two characters for every percent sign the path had. */
  lemma {:induction false} DecodedLength(s: string)
    ensures var d := PercentDecode(UrlPathEscape(s));
            d.Some? ==> |d.value| <= |s| && ('%' in s ==> |d.value| < |s|)
  {
    if s != "" {
      var e := UrlPathEscape(s);
      if s[0] == '/' {
        EscapeSlash(s);
        DecodedLength(s[1..]);
      } else if s[0] != '%' {
        assert e[1..] == UrlPathEscape(s[1..]);
        DecodedLength(s[1..]);
      } else if |e| >= 3 && IsHex(e[1]) && IsHex(e[2]) {
        var e1 := UrlPathEscape(s[1..]);
        assert e[1] == e1[0] && e[2] == e1[1] && s[1] == e1[0];
        var e2 := UrlPathEscape(s[2..]);
        assert s[1..][1..] == s[2..] && e1[1..] == e2;
        assert s[2] == e2[0] && s[2..][1..] == s[3..];
        assert e[3..] == UrlPathEscape(s[3..]);
        DecodedLength(s[3..]);
      }
    }
  }

  lemma {:induction false} DecodeEscapeClean(s: string)
    requires '%' !in s
    ensures PercentDecode(UrlPathEscape(s)) == Some(s)
  {
    if s != "" {
      DecodeEscapeClean(s[1..]);
      if s[0] == '/' {
        EscapeSlash(s);
      } else {
        assert UrlPathEscape(s)[1..] == UrlPathEscape(s[1..]);
      }
      assert [s[0]] + s[1..] == s;
    }
  }

  /** The escaped project id denotes the original path exactly when that path has no percent sign. */
  lemma ProjectIdDecodes(path: string)
    ensures PercentDecode(UrlPathEscape(path)) == Some(path) <==> '%' !in path
  {
    if '%' in path {
      DecodedLength(path);
    } else {
      DecodeEscapeClean(path);
    }
  }
}
