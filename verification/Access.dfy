/** Repository credentials: fetching them, matching them to a URL, checking access and cloning. */
module Access {
  import opened Wrappers
  import opened Text
  import opened Api

  datatype Scheme = Http | Ssh | Unrecognised

  /** The credential a git transport presents. */
  datatype Auth = Token(username: string, password: string) | PrivateKey(user: string, pem: string)

  datatype Call = List(url: string, auth: Option<Auth>) | Clone(url: string, auth: Option<Auth>, branch: string)

  /** The secrets of the management cluster, and whether reading them works at all. */
  datatype Secrets = Secrets(reachable: bool, data: map<Key, map<string, string>>)

  function SecretValue(secrets: Secrets, namespace: string, name: string, field: string): Option<string> {
    var k := Key(namespace, name);
    if secrets.reachable && k in secrets.data && field in secrets.data[k] then Some(secrets.data[k][field]) else None
  }

  /** Whether a secret has an entry that can be read. */
  predicate HasEntry(secrets: Secrets, namespace: string, name: string, field: string) {
    secrets.reachable && Key(namespace, name) in secrets.data && field in secrets.data[Key(namespace, name)]
  }

  /** The entry the repository refers to; a repository without a secret reference is an error, public or not. */
  function FetchSecret(secrets: Secrets, namespace: string, git: GitRepo): (secret: Option<string>)
    ensures secret.Some? <==> git.secretRef != "" && HasEntry(secrets, namespace, git.secretRef, git.secretKey)
    ensures secret.Some? ==> secret.value == secrets.data[Key(namespace, git.secretRef)][git.secretKey]
  {
    if git.secretRef == "" then None else SecretValue(secrets, namespace, git.secretRef, git.secretKey)
  }

  /** Success with no known_hosts entry exactly when none is configured; else the entry, which must be there. */
  function FetchKnownHosts(secrets: Secrets, namespace: string, git: GitRepo): (hosts: Option<string>)
    ensures var configured := git.secretRef != "" && git.knownHostsKey != "";
            && (hosts.Some? <==> !configured || HasEntry(secrets, namespace, git.secretRef, git.knownHostsKey))
            && (hosts.Some? ==>
                  hosts.value == if configured then secrets.data[Key(namespace,
                      git.secretRef)][git.knownHostsKey] else "")
  {
    if git.secretRef == "" || git.knownHostsKey == "" then Some("")
    else SecretValue(secrets, namespace, git.secretRef, git.knownHostsKey)
  }

  predicate LooksLikePrivateKey(secret: string) {
    Contains(secret, "PRIVATE KEY-----")
  }

  function SchemeOf(url: string): Scheme {
    if HasPrefix(url, "http://") || HasPrefix(url, "https://") then Http
    else if HasPrefix(url, "ssh://") then Ssh
    else if '@' in url && ':' in url && !HasPrefix(url, "http") then Ssh
    else Unrecognised
  }

  /** Outcomes of the foreign calls: listing without and with credentials, parsing a key, finding host keys, cloning. */
  datatype Remote = Remote(anonymous: bool, authenticated: bool, keyParses: bool, hostsKnown: bool, directory: bool,
          clones: bool)

  /** The kind of a credential is the one its URL calls for, and it is the secret itself that is presented. */
  predicate Fits(url: string, secret: string, auth: Auth) {
    match auth
    case Token(_, password) => SchemeOf(url) == Http && password == secret && !LooksLikePrivateKey(secret)
    case PrivateKey(_, pem) => SchemeOf(url) == Ssh && pem == secret && LooksLikePrivateKey(secret)
  }

  /** No URL of an HTTP transport names the ssh transport. */
  lemma SchemesDiffer(url: string)
    ensures "http://" <= url || "https://" <= url ==> "http" <= url && !("ssh://" <= url)
  {
    if "http://" <= url || "https://" <= url {
      assert url[0] == 'h' && url[1] == 't' && url[2] == 't' && url[3] == 'p';
      assert "ssh://"[0] == 's';
    }
  }

  /**
   * A credential exists exactly for a non-empty secret of the kind the URL calls for (whose key and host keys load).
   */
  method GetAuth(url: string, secret: string, remote: Remote) returns (auth: Option<Auth>)
    ensures auth == AuthFor(url, secret, remote)
    ensures "http://" <= url || "https://" <= url ==>
              auth == if secret != "" && !Contains(secret, "PRIVATE KEY-----") then Some(Token("oauth2",
                  secret)) else None
    ensures "ssh://" <= url || ('@' in url && ':' in url && !("http" <= url)) ==>
              auth == if Contains(secret, "PRIVATE KEY-----") && remote.keyParses && remote.hostsKnown
                      then Some(PrivateKey("git", secret)) else None
    ensures auth.Some? ==>
              "http://" <= url || "https://" <= url || "ssh://" <= url ||
                  ('@' in url && ':' in url && !("http" <= url))
    ensures auth.Some? ==> secret != "" && Fits(url, secret, auth.value)
    ensures auth.None? <==>
              || secret == "" || SchemeOf(url) == Unrecognised
              || (SchemeOf(url) == Http <==> LooksLikePrivateKey(secret))
              || (SchemeOf(url) == Ssh && (!remote.keyParses || !remote.hostsKnown))
  {
    SchemesDiffer(url);
    if |secret| == 0 {
      return None;
    }
    match SchemeOf(url) {
      case Http =>
        if LooksLikePrivateKey(secret) {
          return None;
        }
        return Some(Token("oauth2", secret));
      case Ssh =>
        if !LooksLikePrivateKey(secret) {
          return None;
        }
        if !remote.keyParses {
          return None;
        }
        if !remote.hostsKnown {
          return None;
        }
        return Some(PrivateKey("git", secret));
      case Unrecognised =>
        return None;
    }
  }

  function AuthFor(url: string, secret: string, remote: Remote): Option<Auth> {
    if secret == "" then None
    else if SchemeOf(url) == Http && !LooksLikePrivateKey(secret) then Some(Token("oauth2", secret))
    else if SchemeOf(url) == Ssh && LooksLikePrivateKey(secret) && remote.keyParses && remote.hostsKnown then
      Some(PrivateKey("git", secret))
    else None
  }

  /**
   * The check reports no error exactly when the repository is accessible, and then asks for authentication exactly
   * when the anonymous listing failed, in which case the secret is not empty. So the two branches with which both
   * controllers follow it up ("requires a secret but has none", "not accessible") can never be taken.
   */
  method CheckAccess(url: string, secret: string, remote: Remote)
    returns (accessible: bool, requiresAuth: bool, err: bool, calls: seq<Call>)
    ensures !err <==> accessible
    ensures accessible <==> remote.anonymous || (AuthFor(url, secret, remote).Some? && remote.authenticated)
    ensures !remote.anonymous && ("http://" <= url || "https://" <= url) ==>
              && (accessible <==> secret != "" && !Contains(secret, "PRIVATE KEY-----") && remote.authenticated)
              && (accessible ==> calls == [List(url, None), List(url, Some(Token("oauth2", secret)))])
    ensures !remote.anonymous && ("ssh://" <= url || ('@' in url && ':' in url && !("http" <= url))) ==>
              && (accessible <==>
                    Contains(secret, "PRIVATE KEY-----") && remote.keyParses && remote.hostsKnown &&
                        remote.authenticated)
              && (accessible ==> calls == [List(url, None), List(url, Some(PrivateKey("git", secret)))])
    ensures !remote.anonymous && accessible ==>
              "http://" <= url || "https://" <= url || "ssh://" <= url ||
                  ('@' in url && ':' in url && !("http" <= url))
    ensures accessible ==> (requiresAuth <==> !remote.anonymous) && (requiresAuth ==> secret != "")
    ensures remote.anonymous ==> calls == [List(url, None)]
    ensures forall c | c in calls :: c.List?
    ensures forall c | c in calls && c.auth.Some? :: c.url == url && Fits(url, secret, c.auth.value)
  {
    SchemesDiffer(url);
    calls := [List(url, None)];
    accessible, requiresAuth := false, false;
    if remote.anonymous {
      return true, false, false, calls;
    }
    var auth := GetAuth(url, secret, remote);
    if auth.None? {
      return false, true, true, calls;
    }
    calls := calls + [List(url, auth)];
    if remote.authenticated {
      return true, true, false, calls;
    }
    err := true;
  }
}
