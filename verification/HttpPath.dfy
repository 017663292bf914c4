/** The string parts of httpx/middleware_http_metrics.go: which paths are health checks, and which
    route a request is counted under. */
module HttpPath {

  /** Go's path.Base. */
  function Base(p: string): string {
    if p == "" then "."
    else
      var q := TrimSlashes(p);
      if q == "" then "/" else AfterSlash(q)
  }

  function TrimSlashes(p: string): (q: string)
    ensures q <= p && (q != "" ==> q[|q| - 1] != '/')
  {
    if p != "" && p[|p| - 1] == '/' then TrimSlashes(p[..|p| - 1]) else p
  }

  /** What follows the last slash. */
  function AfterSlash(p: string): (q: string)
    ensures |q| <= |p| && q == p[|p| - |q|..] && '/' !in q
    ensures |q| < |p| ==> p[|p| - |q| - 1] == '/'
  {
    if p == "" || p[|p| - 1] == '/' then "" else AfterSlash(p[..|p| - 1]) + [p[|p| - 1]]
  }

  predicate HealthcheckPath(p: string) { Base(p) == "livez" || Base(p) == "readyz" }

  predicate Slashes(s: string) { forall i | 0 <= i < |s| :: s[i] == '/' }

  lemma {:induction false} TrimmedSlashes(p: string)
    ensures Slashes(p[|TrimSlashes(p)|..])
  {
    if p != "" && p[|p| - 1] == '/' { TrimmedSlashes(p[..|p| - 1]); }
  }

  lemma {:induction false} TrimKeeps(q: string, tail: string)
    requires Slashes(tail) && (q != "" ==> q[|q| - 1] != '/')
    ensures TrimSlashes(q + tail) == q
  {
    if tail == "" {
      assert q + tail == q;
    } else {
      assert (q + tail)[..|q + tail| - 1] == q + tail[..|tail| - 1];
      TrimKeeps(q, tail[..|tail| - 1]);
    }
  }

  lemma {:induction false} AfterSlashOf(prefix: string, name: string)
    requires '/' !in name && (prefix != "" ==> prefix[|prefix| - 1] == '/')
    ensures AfterSlash(prefix + name) == name
  {
    if name == "" {
      assert prefix + name == prefix;
    } else {
      assert (prefix + name)[..|prefix + name| - 1] == prefix + name[..|name| - 1];
      AfterSlashOf(prefix, name[..|name| - 1]);
    }
  }

  /** `p` is `prefix`, `name` and any number of slashes, and `name` is a whole segment. */
  predicate Splits(p: string, prefix: string, name: string, tail: string) {
    p == prefix + name + tail && (prefix != "" ==> prefix[|prefix| - 1] == '/') && Slashes(tail)
  }

  lemma CutAtSlash(q: string) returns (prefix: string)
    ensures q == prefix + AfterSlash(q) && (prefix != "" ==> prefix[|prefix| - 1] == '/')
  {
    prefix := q[..|q| - |AfterSlash(q)|];
  }

  lemma Join(p: string, q: string, prefix: string, name: string)
    requires q <= p && Slashes(p[|q|..]) && q == prefix + name && (prefix != "" ==> prefix[|prefix| - 1] == '/')
    ensures Splits(p, prefix, name, p[|q|..])
  {
    assert p == q + p[|q|..];
  }

  lemma BaseSplits(p: string, name: string)
    requires Base(p) == name && name != "." && '/' !in name
    ensures exists prefix, tail :: Splits(p, prefix, name, tail)
  {
    var q := TrimSlashes(p);
    assert AfterSlash(q) == name by { assert '/' in "/"; }
    hide *;
    TrimmedSlashes(p);
    var prefix := CutAtSlash(q);
    Join(p, q, prefix, name);
  }

  lemma SplitBase(p: string, prefix: string, name: string, tail: string)
    requires Splits(p, prefix, name, tail) && name != "" && '/' !in name
    ensures Base(p) == name
  {
    hide TrimSlashes, AfterSlash;
    var q := prefix + name;
    assert q[|q| - 1] == name[|name| - 1];
    TrimKeeps(q, tail);
    AfterSlashOf(prefix, name);
  }

  /** The base of a path is `name` exactly when `name` is its last segment. */
  lemma BaseIsLastSegment(p: string, name: string)
    requires name != "" && name != "." && '/' !in name
    ensures Base(p) == name <==> exists prefix, tail :: Splits(p, prefix, name, tail)
  {
    hide Base, Splits;
    if Base(p) == name { BaseSplits(p, name); }
    if prefix, tail :| Splits(p, prefix, name, tail) { SplitBase(p, prefix, name, tail); }
  }

  /** Health checks are the paths whose last segment is livez or readyz. */
  lemma HealthcheckIff(p: string)
    ensures HealthcheckPath(p) <==>
              exists prefix, tail :: Splits(p, prefix, "livez", tail) || Splits(p, prefix, "readyz", tail)
  {
    hide Base, Splits;
    BaseIsLastSegment(p, "livez");
    BaseIsLastSegment(p, "readyz");
    if HealthcheckPath(p) {
      if Base(p) == "livez" {
        var prefix, tail :| Splits(p, prefix, "livez", tail);
      } else {
        var prefix, tail :| Splits(p, prefix, "readyz", tail);
      }
    }
  }

  /** The index of the first space, or the length. */
  function FirstSpace(p: string): (n: nat)
    ensures n <= |p| && (n < |p| ==> p[n] == ' ') && ' ' !in p[..n]
  {
    if p == "" || p[0] == ' ' then 0 else 1 + FirstSpace(p[1..])
  }

  /** RoutePattern, given the pattern that the mux matched. */
  function RoutePattern(pattern: string): string {
    var n := FirstSpace(pattern);
    if pattern == "" then "unknown"
    else if n + 1 < |pattern| then pattern[n + 1..]
    else pattern
  }

  /** The HTTP method in front of a pattern is dropped, and nothing else is. */
  lemma RouteDropsVerb(verb: string, path: string)
    requires ' ' !in verb
    ensures path != "" ==> RoutePattern(verb + " " + path) == path
    ensures verb != "" ==> RoutePattern(verb) == verb
    ensures RoutePattern(verb + " ") == verb + " "
    ensures RoutePattern("") == "unknown"
  {
    FirstSpaceOf(verb, " " + path);
    FirstSpaceOf(verb, " ");
    FirstSpaceOf(verb, "");
    assert verb + (" " + path) == verb + " " + path && verb + "" == verb;
  }

  lemma {:induction false} FirstSpaceOf(a: string, b: string)
    requires ' ' !in a && (b != "" ==> b[0] == ' ')
    ensures FirstSpace(a + b) == |a|
  {
    if a == "" {
      assert a + b == b;
    } else {
      assert (a + b)[1..] == a[1..] + b;
      FirstSpaceOf(a[1..], b);
    }
  }
}
