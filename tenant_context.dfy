/**
 * The tenant-isolation filter: a request whose path matches one of the
 * configured patterns must carry a non-blank X-Org-Id, or it is refused with
 * 403. Patterns follow Ant-style path matching: `*` and `?` inside one path
 * segment, `**` for any number of whole segments.
 */
module TenantContext {
  import opened Wrappers
  import opened Text
  import opened Http

  /** The non-empty pieces of `s` between '/' separators, in order. */
  function Tokens(s: string): (r: seq<string>)
    ensures forall i :: 0 <= i < |r| ==> r[i] != [] && '/' !in r[i]
    decreases |s|
  {
    if s == [] then []
    else if s[0] == '/' then Tokens(s[1..])
    else var t := Before(s, '/'); [t] + Tokens(s[|t|..])
  }

  /** One segment against one pattern segment: `*` is any run of characters, `?` any one character. */
  function GlobMatch(p: string, s: string): bool
    decreases |p| + |s|
  {
    if p == [] then s == []
    else if p[0] == '*' then GlobMatch(p[1..], s) || (s != [] && GlobMatch(p, s[1..]))
    else s != [] && (p[0] == '?' || p[0] == s[0]) && GlobMatch(p[1..], s[1..])
  }

  /** Segments against pattern segments, where a `**` segment stands for zero or more segments. */
  function SegMatch(pt: seq<string>, ph: seq<string>): bool
    decreases |pt| + |ph|
  {
    if pt == [] then ph == []
    else if pt[0] == "**" then SegMatch(pt[1..], ph) || (ph != [] && SegMatch(pt, ph[1..]))
    else ph != [] && GlobMatch(pt[0], ph[0]) && SegMatch(pt[1..], ph[1..])
  }

  predicate EndsWithSlash(s: string) { s != [] && s[|s| - 1] == '/' }

  /**
   * The one case where a pattern matches a path with fewer segments: the
   * path ends in '/' and the pattern has exactly one more segment, `*`.
   */
  predicate OpenDirectoryMatch(pt: seq<string>, ph: seq<string>, path: string)
  {
    |pt| == |ph| + 1 && pt[|ph|] == "*" && EndsWithSlash(path)
    && forall i :: 0 <= i < |ph| ==> pt[i] != "**" && GlobMatch(pt[i], ph[i])
  }

  /** `AntPathMatcher.match(pattern, path)`. */
  predicate AntMatch(pattern: string, path: string)
  {
    var pt, ph := Tokens(pattern), Tokens(path);
    StartsWith(path, "/") == StartsWith(pattern, "/")
    && ((SegMatch(pt, ph) && (pt == [] || pt[|pt| - 1] != "**" ==> EndsWithSlash(pattern) == EndsWithSlash(path)))
        || OpenDirectoryMatch(pt, ph, path))
  }

  /** Whether any configured pattern, trimmed, matches the path. */
  predicate RequiresTenantContext(patterns: seq<string>, path: string)
  {
    patterns != [] && (AntMatch(JavaTrim(patterns[0]), path) || RequiresTenantContext(patterns[1..], path))
  }

  predicate OrgIdMissing(request: Request)
  {
    var org := request.Header(X_ORG_ID);
    org.None? || IsJavaBlank(org.value)
  }

  /** A `**` segment matches any run of segments. */
  lemma {:induction false} DoubleStarMatchesAll(ph: seq<string>)
    ensures SegMatch(["**"], ph)
    decreases |ph|
  {
    if ph != [] {
      DoubleStarMatchesAll(ph[1..]);
    }
  }

  /** A pattern `p` followed by a `**` segment matches every path that starts with segments matching `p`. */
  lemma {:induction false} PrefixDoubleStar(pt: seq<string>, ph: seq<string>, rest: seq<string>)
    requires |pt| == |ph|
    requires forall i :: 0 <= i < |pt| ==> pt[i] != "**" && GlobMatch(pt[i], ph[i])
    ensures SegMatch(pt + ["**"], ph + rest)
    decreases |pt|
  {
    if pt == [] {
      assert pt + ["**"] == ["**"] && ph + rest == rest;
      DoubleStarMatchesAll(rest);
    } else {
      PrefixDoubleStar(pt[1..], ph[1..], rest);
      assert (pt + ["**"])[1..] == pt[1..] + ["**"];
      assert (ph + rest)[1..] == ph[1..] + rest;
    }
  }

  /** A segment without wildcards matches itself. */
  lemma {:induction false} GlobMatchLiteral(s: string)
    requires '*' !in s && '?' !in s
    ensures GlobMatch(s, s)
    decreases |s|
  {
    if s != [] {
      GlobMatchLiteral(s[1..]);
    }
  }

  /** The absolute path with the given segments, `/s1/s2/...`. */
  function Join(segs: seq<string>): string
  {
    if segs == [] then "" else "/" + segs[0] + Join(segs[1..])
  }

  lemma {:induction false} BeforeSegment(seg: string, rest: string)
    requires '/' !in seg
    ensures Before(seg + rest, '/') == seg || (rest != [] && rest[0] != '/')
    ensures rest != [] && rest[0] == '/' ==> Before(seg + rest, '/') == seg
    ensures rest == [] ==> Before(seg + rest, '/') == seg
    decreases |seg|
  {
    if seg != [] {
      BeforeSegment(seg[1..], rest);
      assert (seg + rest)[1..] == seg[1..] + rest;
    }
  }

  /** Splitting a joined path gives its segments back. */
  lemma {:induction false} TokensJoin(segs: seq<string>)
    requires forall i :: 0 <= i < |segs| ==> segs[i] != [] && '/' !in segs[i]
    ensures Tokens(Join(segs)) == segs
  {
    if segs != [] {
      var seg, rest := segs[0], Join(segs[1..]);
      assert Join(segs) == "/" + (seg + rest);
      assert Join(segs)[1..] == seg + rest;
      assert rest == [] || rest[0] == '/';
      BeforeSegment(seg, rest);
      assert (seg + rest)[|seg|..] == rest;
      TokensJoin(segs[1..]);
    }
  }

  predicate IsLiteralSegment(seg: string)
  {
    seg != [] && '/' !in seg && '*' !in seg && '?' !in seg
  }

  /** A segment without wildcards matches exactly itself. */
  lemma {:induction false} GlobMatchLiteralExact(p: string, s: string)
    requires '*' !in p && '?' !in p
    ensures GlobMatch(p, s) <==> p == s
    decreases |p|
  {
    if p != [] && s != [] {
      GlobMatchLiteralExact(p[1..], s[1..]);
      if p[0] == s[0] && p[1..] == s[1..] {
        assert p == [p[0]] + p[1..] && s == [s[0]] + s[1..];
      }
    }
  }

  /** Literal segments followed by a `**` segment cover every path below those segments. */
  lemma DoubleStarCoversSubtree(prefix: seq<string>, rest: seq<string>)
    requires prefix != []
    requires forall i :: 0 <= i < |prefix| ==> IsLiteralSegment(prefix[i])
    requires forall i :: 0 <= i < |rest| ==> rest[i] != [] && '/' !in rest[i]
    ensures AntMatch(Join(prefix + ["**"]), Join(prefix + rest))
  {
    var pt, ph := prefix + ["**"], prefix + rest;
    TokensJoin(pt);
    TokensJoin(ph);
    forall i | 0 <= i < |prefix| ensures GlobMatch(prefix[i], prefix[i]) {
      GlobMatchLiteral(prefix[i]);
    }
    PrefixDoubleStar(prefix, prefix, rest);
    assert Join(pt)[0] == '/' && Join(ph)[0] == '/';
  }

  /** The pattern with segments a, b, `**` does not match the path a, c, d when b and c differ. */
  lemma SiblingNotCovered(a: string, b: string, c: string, d: string)
    requires IsLiteralSegment(a) && IsLiteralSegment(b) && c != [] && '/' !in c && d != [] && '/' !in d
    requires b != c && b != "**"
    ensures !AntMatch(Join([a, b, "**"]), Join([a, c, d]))
  {
    TokensJoin([a, b, "**"]);
    TokensJoin([a, c, d]);
    GlobMatchLiteralExact(b, c);
    assert !SegMatch([b, "**"], [c, d]);
    assert a != "**";
  }

  lemma TestMatches()
    ensures AntMatch(Join(["api", "clients", "**"]), Join(["api", "clients", "123"]))
    ensures AntMatch(Join(["api", "invoices", "**"]), Join(["api", "invoices", "123", "pdf"]))
  {
    DoubleStarCoversSubtree(["api", "clients"], ["123"]);
    assert ["api", "clients"] + ["**"] == ["api", "clients", "**"];
    assert ["api", "clients"] + ["123"] == ["api", "clients", "123"];
    DoubleStarCoversSubtree(["api", "invoices"], ["123", "pdf"]);
    assert ["api", "invoices"] + ["**"] == ["api", "invoices", "**"];
    assert ["api", "invoices"] + ["123", "pdf"] == ["api", "invoices", "123", "pdf"];
  }

  lemma TestMismatches()
    ensures !AntMatch(Join(["api", "clients", "**"]), Join(["api", "users", "profile"]))
    ensures !AntMatch(Join(["api", "invoices", "**"]), Join(["api", "users", "profile"]))
    ensures !AntMatch(Join(["api", "transactions", "**"]), Join(["api", "users", "profile"]))
  {
    ApiSiblingNotCovered("clients");
    ApiSiblingNotCovered("invoices");
    ApiSiblingNotCovered("transactions");
  }

  /** The subtree pattern under `api` of any other literal segment leaves the user profile path out. */
  lemma ApiSiblingNotCovered(b: string)
    requires IsLiteralSegment(b) && b != "users"
    ensures !AntMatch(Join(["api", b, "**"]), Join(["api", "users", "profile"]))
  {
    SiblingNotCovered("api", b, "users", "profile");
  }

  /** The tenant filter's own test configuration: the client, invoice and transaction subtree patterns. */
  predicate IsTestConfiguration(patterns: seq<string>)
  {
    patterns == [Join(["api", "clients", "**"]), Join(["api", "invoices", "**"]), Join(["api", "transactions", "**"])]
  }

  /** A joined path whose last segment ends in a printable character is unchanged by `trim`. */
  lemma {:induction false} JoinTrimmed(segs: seq<string>)
    requires segs != [] && var last := segs[|segs| - 1]; last != [] && !IsJavaTrimmed(last[|last| - 1])
    ensures JavaTrim(Join(segs)) == Join(segs)
  {
    JoinLastChar(segs);
    StripNoop(Join(segs), IsJavaTrimmed);
  }

  lemma {:induction false} JoinLastChar(segs: seq<string>)
    requires segs != [] && segs[|segs| - 1] != []
    ensures var j, last := Join(segs), segs[|segs| - 1]; j != [] && j[0] == '/' && j[|j| - 1] == last[|last| - 1]
  {
    if |segs| > 1 {
      JoinLastChar(segs[1..]);
    }
  }

  lemma TestConfigurationTrimmed(patterns: seq<string>)
    requires IsTestConfiguration(patterns)
    ensures JavaTrim(patterns[0]) == patterns[0]
    ensures JavaTrim(patterns[1]) == patterns[1]
    ensures JavaTrim(patterns[2]) == patterns[2]
  {
    JoinTrimmed(["api", "clients", "**"]);
    JoinTrimmed(["api", "invoices", "**"]);
    JoinTrimmed(["api", "transactions", "**"]);
  }

  /** Under the test configuration a client path and an invoice PDF path need a tenant. */
  lemma TestTenantPaths(patterns: seq<string>)
    requires IsTestConfiguration(patterns)
    ensures RequiresTenantContext(patterns, Join(["api", "clients", "123"]))
    ensures RequiresTenantContext(patterns, Join(["api", "invoices", "123", "pdf"]))
  {
    TestConfigurationTrimmed(patterns);
    TestMatches();
  }

  /** Under the test configuration the user profile path needs no tenant. */
  lemma TestUserPathIsFree(patterns: seq<string>)
    requires IsTestConfiguration(patterns)
    ensures !RequiresTenantContext(patterns, Join(["api", "users", "profile"]))
  {
    TestConfigurationTrimmed(patterns);
    TestMismatches();
    var path := Join(["api", "users", "profile"]);
    assert patterns[1..][1..][1..] == [];
    assert !RequiresTenantContext(patterns[1..][1..], path);
    assert !RequiresTenantContext(patterns[1..], path);
  }

  /** The filter: passes everything when enforcement is off, refuses tenant paths without an organisation. */
  method Filter(enforce: bool, requiredPaths: seq<string>, ex: Exchange) returns (next: Next)
    modifies ex
    ensures next == Completed <==> enforce && RequiresTenantContext(requiredPaths, ex.request.path) && OrgIdMissing(ex.request)
    ensures next == Completed ==> ex.status == Some(FORBIDDEN) && ex.completed
    ensures next != Completed ==> next == Forward(ex.request) && unchanged(ex)
    ensures ex.responseHeaders == old(ex.responseHeaders) && ex.attributes == old(ex.attributes)
  {
    if !enforce {
      return Forward(ex.request);
    }
    if RequiresTenantContext(requiredPaths, ex.request.path) && OrgIdMissing(ex.request) {
      ex.Reject(FORBIDDEN);
      return Completed;
    }
    return Forward(ex.request);
  }
}
