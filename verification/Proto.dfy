/** What client and server agree on: tunnels, protocols, subdomain labels and public host names. */
module Proto {
  import opened Text
  import opened NetAddr

  const TCP := "tcp"
  const TCP4 := "tcp4"
  const TCP6 := "tcp6"
  const HTTP := "http"

  predicate IsTcp(protocol: string) {
    protocol == TCP || protocol == TCP4 || protocol == TCP6
  }

  /** A tunnel as the client requests it from the server (proto.Tunnel). */
  datatype Tunnel = Tunnel(protocol: string, host: string, addr: string)

  predicate IsAlnum(c: char) { IsLower(c) || IsDigit(c) }

  /** `ValidSubdomainLabel`: the regular expression ^[a-z0-9]([a-z0-9-]{0,61}[a-z0-9])?$ */
  predicate ValidSubdomainLabel(s: string) {
    && 1 <= |s| <= 63
    && IsAlnum(s[0]) && IsAlnum(s[|s| - 1])
    && forall i :: 0 <= i < |s| ==> IsAlnum(s[i]) || s[i] == '-'
  }

  /** The class [a-z0-9] of the regular expression. */
  predicate Outer(c: char) { 'a' <= c <= 'z' || '0' <= c <= '9' }

  /** The texts that the regular expression matches: one character, or two with up to 61 between them. */
  ghost predicate Matches(s: string) {
    || (|s| == 1 && Outer(s[0]))
    || exists c, mid, d :: s == [c] + mid + [d] && MatchedBy(c, mid, d)
  }

  ghost predicate MatchedBy(c: char, mid: string, d: char) {
    Outer(c) && Outer(d) && |mid| <= 61 && forall i :: 0 <= i < |mid| ==> Outer(mid[i]) || mid[i] == '-'
  }

  lemma LabelExactly(s: string)
    ensures ValidSubdomainLabel(s) <==> Matches(s)
  {
    if ValidSubdomainLabel(s) && |s| > 1 {
      var mid := s[1..|s| - 1];
      assert s == [s[0]] + mid + [s[|s| - 1]];
      assert MatchedBy(s[0], mid, s[|s| - 1]);
    }
    if c, mid, d :| s == [c] + mid + [d] && MatchedBy(c, mid, d) {
      forall i | 0 <= i < |s| ensures IsAlnum(s[i]) || s[i] == '-' {
        assert 0 < i < |s| - 1 ==> s[i] == mid[i - 1];
      }
    }
  }

  lemma LabelIsPlain(s: string)
    requires ValidSubdomainLabel(s)
    ensures Plain(s) && s != "" && ToLower(s) == s && '.' !in s
  {
  }

  /** `httpFullHost` */
  function FullHost(base: string, slug: string): string {
    slug + "." + base
  }

  /** `httpSlugFromHost` */
  function SlugFromHost(base: string, fullHost: string): string {
    TrimSuffix(fullHost, "." + base)
  }

  /** Recovering the slug undoes composing the host, for every base domain and slug. */
  lemma SlugOfFullHost(base: string, slug: string)
    ensures SlugFromHost(base, FullHost(base, slug)) == slug
  {
    var full, suffix := FullHost(base, slug), "." + base;
    assert full == slug + suffix;
    assert full[|full| - |suffix|..] == suffix;
  }

  /** A host that is not under the base domain is its own slug. */
  lemma SlugOfOther(base: string, host: string)
    requires !exists slug :: host == FullHost(base, slug)
    ensures SlugFromHost(base, host) == host
  {
    var suffix := "." + base;
    if |suffix| <= |host| && host[|host| - |suffix|..] == suffix {
      UnderBase(base, host);
    }
  }

  lemma UnderBase(base: string, host: string)
    requires |base| + 1 <= |host| && host[|host| - |base| - 1..] == "." + base
    ensures exists slug :: host == FullHost(base, slug)
  {
    var slug := host[..|host| - |base| - 1];
    assert host == slug + "." + base;
    assert host == FullHost(base, slug);
  }

  /** Composing the host undoes recovering the slug only from a name under the base domain. */
  lemma FullHostOfSlug(base: string, host: string)
    ensures FullHost(base, SlugFromHost(base, host)) == host <==> exists slug :: host == FullHost(base, slug)
  {
    var suffix := "." + base;
    if slug :| host == FullHost(base, slug) {
      SlugOfFullHost(base, slug);
    }
    if FullHost(base, SlugFromHost(base, host)) == host {
      assert host == FullHost(base, SlugFromHost(base, host));
    }
  }
}
