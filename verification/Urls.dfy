/** URL keys. A link is pushed under the text of its normalised form; a worker completes under the text of
    the normalised form of the key it popped. Escaping is not modelled. */
module Urls {
  import opened Basics

  /** An absolute URL, scheme://user@host/path?query#fragment. */
  datatype Address = Address(
    scheme: string, user: Option<string>, host: string, path: string, query: Option<string>, fragment: Option<string>)

  /** Position of the first c, or the length. */
  function IndexOf(s: string, c: char): (i: nat)
    ensures i <= |s| && forall k :: 0 <= k < i ==> s[k] != c
    ensures i < |s| ==> s[i] == c
  {
    if s == "" || s[0] == c then 0
    else
      assert forall k :: 0 < k < |s| ==> s[k] == s[1..][k - 1];
      IndexOf(s[1..], c) + 1
  }

  /** The part before the first c and, if there is a c, the part after it. */
  function Cut(s: string, c: char): (string, Option<string>) {
    var i := IndexOf(s, c);
    if i == |s| then (s, None) else (s[..i], Some(s[i + 1..]))
  }

  /** The part after the last c, or everything. */
  function AfterLast(s: string, c: char): (r: string)
    ensures c !in r
    ensures c !in s ==> r == s
    ensures forall x :: x in r ==> x in s
    decreases |s|
  {
    var i := IndexOf(s, c);
    if i == |s| then s else AfterLast(s[i + 1..], c)
  }

  lemma Split(s: string, c: char, t: string)
    requires c !in s
    ensures IndexOf(s + [c] + t, c) == |s|
    ensures Cut(s + [c] + t, c) == (s, Some(t))
  {
    var whole := s + [c] + t;
    assert forall k :: 0 <= k < |s| ==> whole[k] == s[k] && s[k] in s;
    assert whole[|s|] == c;
    assert whole[..|s|] == s && whole[|s| + 1..] == t;
  }

  /** url.Parse on absolute URLs; user information ends at the last @ of the authority and is kept. */
  function Parse(raw: string): Option<Address> {
    var (beforeFragment, fragment) := Cut(raw, '#');
    var (hierarchy, query) := Cut(beforeFragment, '?');
    Hierarchy(hierarchy, query, fragment)
  }

  function Hierarchy(h: string, query: Option<string>, fragment: Option<string>): Option<Address> {
    var (scheme, rest) := Cut(h, ':');
    if rest.None? || scheme == "" || |rest.value| < 2 || rest.value[0] != '/' || rest.value[1] != '/' then None
    else Some(Authority(scheme, rest.value[2..], query, fragment))
  }

  function Authority(scheme: string, body: string, query: Option<string>, fragment: Option<string>): Address {
    var slash := IndexOf(body, '/');
    var authority := body[..slash];
    var host := AfterLast(authority, '@');
    var user := if |host| < |authority| then Some(authority[..|authority| - |host| - 1]) else None;
    Address(scheme, user, host, body[slash..], query, fragment)
  }

  function Print(a: Address): string {
    a.scheme + [':'] + (['/', '/'] + (if a.user.Some? then a.user.value + ['@'] else "") + a.host + a.path +
    (if a.query.Some? then ['?'] + a.query.value else "") +
    (if a.fragment.Some? then ['#'] + a.fragment.value else ""))
  }

  predicate NoDelimiter(s: string) {
    '/' !in s && '?' !in s && '#' !in s
  }

  /** What printing relies on. */
  predicate WellFormed(a: Address) {
    && a.scheme != "" && NoDelimiter(a.scheme) && ':' !in a.scheme
    && NoDelimiter(a.host) && '@' !in a.host
    && (a.path == "" || a.path[0] == '/') && '?' !in a.path && '#' !in a.path
  }

  function LowerChar(c: char): char {
    if 'A' <= c <= 'Z' then (c as int + 32) as char else c
  }

  function ToLower(s: string): (r: string)
    ensures |r| == |s| && forall i :: 0 <= i < |s| ==> r[i] == LowerChar(s[i])
  {
    seq(|s|, i requires 0 <= i < |s| => LowerChar(s[i]))
  }

  function TrimSlashes(s: string): (r: string)
    ensures |r| <= |s| && r == s[..|r|]
    ensures r == "" || r[|r| - 1] != '/'
    ensures forall i :: |r| <= i < |s| ==> s[i] == '/'
  {
    if s == "" || s[|s| - 1] != '/' then s else TrimSlashes(s[..|s| - 1])
  }

  function Normalize(a: Address): Address {
    Address(a.scheme, None, ToLower(a.host), TrimSlashes(a.path), None, None)
  }

  /** ToDomainURL then String: the text under which a worker completes a popped key. */
  function CompletionKey(key: string): Option<string> {
    match Parse(key)
    case None => None
    case Some(a) => Some(Print(Normalize(a)))
  }

  lemma LowerKeeps(s: string, c: char)
    requires c !in s && !('a' <= c <= 'z')
    ensures c !in ToLower(s)
  {
    forall i | 0 <= i < |s| ensures ToLower(s)[i] != c {
      assert s[i] in s;
    }
  }

  lemma NormalizeWellFormed(a: Address)
    requires WellFormed(a)
    ensures WellFormed(Normalize(a))
  {
    LowerKeeps(a.host, '/');
    LowerKeeps(a.host, '?');
    LowerKeeps(a.host, '#');
    LowerKeeps(a.host, '@');
    assert forall c :: c in TrimSlashes(a.path) ==> c in a.path;
  }

  lemma NormalizeTwice(a: Address)
    ensures Normalize(Normalize(a)) == Normalize(a)
  {
    assert ToLower(ToLower(a.host)) == ToLower(a.host);
  }

  predicate Plain(a: Address) {
    a.user.None? && a.query.None? && a.fragment.None?
  }

  lemma PrintPlain(a: Address)
    requires WellFormed(a) && Plain(a)
    ensures Print(a) == a.scheme + [':'] + (['/', '/'] + (a.host + a.path))
    ensures '#' !in Print(a) && '?' !in Print(a)
  {
  }

  lemma AuthorityPlain(a: Address)
    requires WellFormed(a) && Plain(a)
    ensures Authority(a.scheme, a.host + a.path, None, None) == a
  {
    var body := a.host + a.path;
    if a.path == "" {
      assert body == a.host;
      assert forall k :: 0 <= k < |body| ==> body[k] in a.host;
    } else {
      assert body == a.host + ['/'] + a.path[1..];
      Split(a.host, '/', a.path[1..]);
    }
    assert body[..|a.host|] == a.host && body[|a.host|..] == a.path;
  }

  lemma CutAbsent(s: string, c: char)
    requires c !in s
    ensures Cut(s, c) == (s, None)
  {
  }

  /** Parsing the text of a well-formed address without user, query and fragment gives it back. */
  lemma ParsePrint(a: Address)
    requires WellFormed(a) && Plain(a)
    ensures Parse(Print(a)) == Some(a)
  {
    PrintPlain(a);
    AuthorityPlain(a);
    CutAbsent(Print(a), '#');
    CutAbsent(Print(a), '?');
    HierarchyOf(a.scheme, a.host + a.path, None, None);
  }

  /** The worker completes a link under exactly the key it was pushed under. */
  lemma LinkKeyRoundTrip(a: Address)
    requires WellFormed(a)
    ensures CompletionKey(Print(Normalize(a))) == Some(Print(Normalize(a)))
  {
    NormalizeWellFormed(a);
    ParsePrint(Normalize(a));
    NormalizeTwice(a);
  }

  // ----- seeds -----

  const HTTP := ['h', 't', 't', 'p']
  const HTTPS := ['h', 't', 't', 'p', 's']
  const AUTHORITY := [':', '/', '/']

  /** A seed without a scheme gets https. */
  function WithScheme(raw: string): string {
    if HTTP + AUTHORITY <= raw || HTTPS + AUTHORITY <= raw then raw else HTTPS + AUTHORITY + raw
  }

  /** NormalizeStartURL: the scheme and host of the seed, as written. */
  function StartKey(raw: string): Option<string> {
    match Parse(WithScheme(raw))
    case None => None
    case Some(a) => if a.host == "" then None else Some(Print(Address(a.scheme, None, a.host, "", None, None)))
  }

  lemma CutParts(s: string, c: char, p: string)
    requires p <= s && c !in p
    ensures p <= Cut(s, c).0 && c !in Cut(s, c).0 && forall x :: x in Cut(s, c).0 ==> x in s
  {
    assert forall k :: 0 <= k < |p| ==> s[k] == p[k] && p[k] in p;
  }

  lemma AuthorityClean(scheme: string, body: string, query: Option<string>, fragment: Option<string>)
    requires '?' !in body && '#' !in body
    ensures var a := Authority(scheme, body, query, fragment); NoDelimiter(a.host) && '@' !in a.host
  {
    var authority := body[..IndexOf(body, '/')];
    assert '/' !in authority && forall x :: x in authority ==> x in body;
  }

  lemma HierarchyOf(scheme: string, body: string, query: Option<string>, fragment: Option<string>)
    requires scheme != "" && ':' !in scheme
    ensures Hierarchy(scheme + [':'] + (['/', '/'] + body), query, fragment) ==
            Some(Authority(scheme, body, query, fragment))
  {
    Split(scheme, ':', ['/', '/'] + body);
    assert (['/', '/'] + body)[2..] == body;
  }

  lemma HierarchyClean(scheme: string, h: string, query: Option<string>, fragment: Option<string>)
    requires scheme != "" && ':' !in scheme && scheme + AUTHORITY <= h && '?' !in h && '#' !in h
    ensures var r := Hierarchy(h, query, fragment);
            r.Some? && r.value.scheme == scheme && NoDelimiter(r.value.host) && '@' !in r.value.host
  {
    var body := h[|scheme| + 3..];
    assert h == scheme + [':'] + (['/', '/'] + body);
    assert forall x :: x in body ==> x in h;
    HierarchyOf(scheme, body, query, fragment);
    AuthorityClean(scheme, body, query, fragment);
  }

  lemma ParseClean(url: string, scheme: string)
    requires scheme != "" && NoDelimiter(scheme) && ':' !in scheme && scheme + AUTHORITY <= url
    ensures Parse(url).Some? && Parse(url).value.scheme == scheme
    ensures NoDelimiter(Parse(url).value.host) && '@' !in Parse(url).value.host
  {
    var p := scheme + AUTHORITY;
    CutParts(url, '#', p);
    var (b, fragment) := Cut(url, '#');
    CutParts(b, '?', p);
    var (h, query) := Cut(b, '?');
    assert '#' !in h;
    HierarchyClean(scheme, h, query, fragment);
  }

  lemma SchemesClean(raw: string) returns (scheme: string)
    ensures scheme == HTTP || scheme == HTTPS
    ensures scheme != "" && NoDelimiter(scheme) && ':' !in scheme && scheme + AUTHORITY <= WithScheme(raw)
  {
    scheme := if HTTP + AUTHORITY <= raw then HTTP else HTTPS;
  }

  predicate NoUpperCase(s: string) {
    forall c :: c in s ==> !('A' <= c <= 'Z')
  }

  lemma LowerFixed(s: string)
    ensures ToLower(s) == s <==> NoUpperCase(s)
  {
    if ToLower(s) == s {
      forall c | c in s ensures !('A' <= c <= 'Z') {
        var i :| 0 <= i < |s| && s[i] == c;
        assert ToLower(s)[i] == LowerChar(c);
      }
    } else {
      var i :| 0 <= i < |s| && ToLower(s)[i] != s[i];
      assert s[i] in s;
    }
  }

  lemma SeedHost(scheme: string, host: string)
    requires scheme != "" && NoDelimiter(scheme) && ':' !in scheme && NoDelimiter(host) && '@' !in host
    ensures var a := Address(scheme, None, host, "", None, None);
            && Parse(Print(a)) == Some(a)
            && CompletionKey(Print(a)) == Some(Print(a.(host := ToLower(host))))
            && (CompletionKey(Print(a)) == Some(Print(a)) <==> NoUpperCase(host))
  {
    var a := Address(scheme, None, host, "", None, None);
    var b := Normalize(a);
    ParsePrint(a);
    NormalizeWellFormed(a);
    ParsePrint(b);
    LowerFixed(host);
    assert b == a.(host := ToLower(host));
    if Print(b) == Print(a) {
      assert Parse(Print(b)) == Parse(Print(a));
    }
  }

  /** Which seeds their worker can complete: the key is the completion key exactly when the host has no
      upper-case letter. For any other seed the completion names another key. */
  lemma SeedKeyRoundTrip(raw: string)
    ensures StartKey(raw).Some? ==>
              && Parse(WithScheme(raw)).Some?
              && Parse(StartKey(raw).value).Some?
              && Parse(StartKey(raw).value).value.host == Parse(WithScheme(raw)).value.host
              && CompletionKey(StartKey(raw).value).Some?
              && (CompletionKey(StartKey(raw).value) == StartKey(raw) <==>
                    NoUpperCase(Parse(WithScheme(raw)).value.host))
  {
    if StartKey(raw).Some? {
      var scheme := SchemesClean(raw);
      ParseClean(WithScheme(raw), scheme);
      SeedHost(scheme, Parse(WithScheme(raw)).value.host);
    }
  }

  /** The host of a link key has no upper-case letter. */
  lemma LinkHost(a: Address)
    requires WellFormed(a)
    ensures Parse(Print(Normalize(a))) == Some(Normalize(a)) && NoUpperCase(Normalize(a).host)
  {
    NormalizeWellFormed(a);
    ParsePrint(Normalize(a));
    NormalizeTwice(a);
    LowerFixed(Normalize(a).host);
  }

  lemma KeyNotEmpty(key: string)
    ensures CompletionKey(key).Some? ==> CompletionKey(key).value != ""
  {
  }

  // ----- which addresses share a key -----

  /** The same letter, in either case, or the same character. */
  predicate SameLetter(c: char, d: char) {
    || c == d
    || ('A' <= c <= 'Z' && d as int == c as int + 32)
    || ('A' <= d <= 'Z' && c as int == d as int + 32)
  }

  predicate SameHost(g: string, h: string) {
    |g| == |h| && forall i :: 0 <= i < |g| ==> SameLetter(g[i], h[i])
  }

  /** Only slashes follow position n. */
  predicate SlashesFrom(p: string, n: nat) {
    n <= |p| && forall i :: n <= i < |p| ==> p[i] == '/'
  }

  /** The paths agree up to some position, and from there on both are slashes. */
  ghost predicate SamePath(p: string, q: string) {
    exists n: nat :: SlashesFrom(p, n) && SlashesFrom(q, n) && p[..n] == q[..n]
  }

  lemma SameHostIff(g: string, h: string)
    ensures ToLower(g) == ToLower(h) <==> SameHost(g, h)
  {
    if ToLower(g) == ToLower(h) {
      forall i | 0 <= i < |g| ensures SameLetter(g[i], h[i]) {
        assert LowerChar(g[i]) == ToLower(g)[i] == ToLower(h)[i] == LowerChar(h[i]);
      }
    }
  }

  lemma TrimmedAt(p: string)
    ensures SlashesFrom(p, |TrimSlashes(p)|) && TrimSlashes(p) == p[..|TrimSlashes(p)|]
  {
  }

  /** Trimming goes at least as far back as any run of slashes. */
  lemma TrimmedBefore(p: string, n: nat)
    requires SlashesFrom(p, n)
    ensures |TrimSlashes(p)| <= n
  {
    var m := |TrimSlashes(p)|;
    if n < m {
      assert TrimSlashes(p)[m - 1] == p[m - 1];
    }
  }

  lemma SamePathIff(p: string, q: string)
    ensures TrimSlashes(p) == TrimSlashes(q) <==> SamePath(p, q)
  {
    var m, k := |TrimSlashes(p)|, |TrimSlashes(q)|;
    TrimmedAt(p);
    TrimmedAt(q);
    if TrimSlashes(p) == TrimSlashes(q) {
      assert SlashesFrom(p, m) && SlashesFrom(q, m) && p[..m] == q[..m];
    }
    if n: nat :| SlashesFrom(p, n) && SlashesFrom(q, n) && p[..n] == q[..n] {
      TrimmedBefore(p, n);
      TrimmedBefore(q, n);
      SlashesBack(p, q, n, m);
      SlashesBack(q, p, n, k);
      TrimmedBefore(p, k);
      TrimmedBefore(q, m);
      assert p[..n][..m] == q[..n][..m];
    }
  }

  lemma SlashesBack(p: string, q: string, n: nat, m: nat)
    requires SlashesFrom(p, m) && m <= n && SlashesFrom(q, n) && n <= |p| && p[..n] == q[..n]
    ensures SlashesFrom(q, m)
  {
    forall i | m <= i < |q| ensures q[i] == '/' {
      if i < n {
        assert q[i] == q[..n][i] == p[..n][i] == p[i];
      }
    }
  }

  /** Two addresses have the same key if and only if their schemes are equal, their hosts agree up to the case of
      letters, and their paths agree up to trailing slashes. User, query and fragment never tell keys apart, and two
      pages of a host never share a key. */
  lemma SameKeyIff(a: Address, b: Address)
    requires WellFormed(a) && WellFormed(b)
    ensures Print(Normalize(a)) == Print(Normalize(b)) <==>
              a.scheme == b.scheme && SameHost(a.host, b.host) && SamePath(a.path, b.path)
  {
    NormalizeWellFormed(a);
    NormalizeWellFormed(b);
    ParsePrint(Normalize(a));
    ParsePrint(Normalize(b));
    SameHostIff(a.host, b.host);
    SamePathIff(a.path, b.path);
  }

  // ----- parsing whole addresses, and seeds -----

  /** What parsing relies on when user, query and fragment may be there. */
  predicate Parsable(a: Address) {
    && WellFormed(a)
    && (a.user.Some? ==> NoDelimiter(a.user.value))
    && (a.query.Some? ==> '#' !in a.query.value)
  }

  function Whom(a: Address): string {
    (if a.user.Some? then a.user.value + ['@'] else "") + a.host
  }

  lemma {:induction false} AfterLastOf(user: string, host: string)
    requires '@' !in host
    ensures AfterLast(user + ['@'] + host, '@') == host
    decreases |user|
  {
    var s := user + ['@'] + host;
    var i := IndexOf(s, '@');
    assert s[|user|] == '@';
    if i < |user| {
      assert s[i + 1..] == user[i + 1..] + ['@'] + host;
      AfterLastOf(user[i + 1..], host);
    } else {
      assert i == |user| && s[i + 1..] == host;
    }
  }

  lemma SlashAfter(whom: string, path: string)
    requires '/' !in whom && (path == "" || path[0] == '/')
    ensures IndexOf(whom + path, '/') == |whom|
    ensures (whom + path)[..|whom|] == whom && (whom + path)[|whom|..] == path
  {
    if path == "" {
      CutAbsent(whom, '/');
      assert whom + path == whom;
    } else {
      assert whom + path == whom + ['/'] + path[1..];
      Split(whom, '/', path[1..]);
    }
  }

  lemma WhomParts(a: Address)
    requires '@' !in a.host
    ensures AfterLast(Whom(a), '@') == a.host
    ensures a.user.Some? ==> |Whom(a)| > |a.host| && Whom(a)[..|Whom(a)| - |a.host| - 1] == a.user.value
    ensures a.user.None? ==> Whom(a) == a.host
  {
    if a.user.Some? {
      AfterLastOf(a.user.value, a.host);
      assert Whom(a) == a.user.value + ['@'] + a.host;
    } else {
      assert Whom(a) == a.host;
    }
  }

  lemma AuthorityOf(a: Address)
    requires Parsable(a)
    ensures Authority(a.scheme, Whom(a) + a.path, a.query, a.fragment) == a
  {
    assert '/' !in Whom(a);
    SlashAfter(Whom(a), a.path);
    WhomParts(a);
  }

  lemma CutTail(s: string, c: char, tail: Option<string>)
    requires c !in s
    ensures Cut(s + (if tail.Some? then [c] + tail.value else ""), c) == (s, tail)
  {
    if tail.Some? {
      assert s + ([c] + tail.value) == s + [c] + tail.value;
      Split(s, c, tail.value);
    } else {
      assert s + "" == s;
      CutAbsent(s, c);
    }
  }

  function Front(a: Address): string {
    a.scheme + [':'] + (['/', '/'] + (Whom(a) + a.path))
  }

  lemma PrintParts(a: Address)
    ensures Print(a) == Front(a) + (if a.query.Some? then ['?'] + a.query.value else "") +
                        (if a.fragment.Some? then ['#'] + a.fragment.value else "")
  {
    var q := if a.query.Some? then ['?'] + a.query.value else "";
    var f := if a.fragment.Some? then ['#'] + a.fragment.value else "";
    assert Print(a) == a.scheme + [':'] + (['/', '/'] + (Whom(a) + a.path) + q + f);
  }

  lemma FrontClean(a: Address)
    requires Parsable(a)
    ensures '?' !in Front(a) && '#' !in Front(a)
  {
  }

  /** Parsing the text of any address finds its parts again. */
  lemma ParsePrintAll(a: Address)
    requires Parsable(a)
    ensures Parse(Print(a)) == Some(a)
  {
    var beforeFragment := Front(a) + if a.query.Some? then ['?'] + a.query.value else "";
    PrintParts(a);
    FrontClean(a);
    CutTail(beforeFragment, '#', a.fragment);
    CutTail(Front(a), '?', a.query);
    HierarchyOf(a.scheme, Whom(a) + a.path, a.query, a.fragment);
    AuthorityOf(a);
  }

  lemma BarePrint(scheme: string, host: string)
    ensures Print(Address(scheme, None, host, "", None, None)) == scheme + AUTHORITY + host
  {
  }

  lemma PrintStarts(a: Address)
    ensures a.scheme + AUTHORITY <= Print(a)
  {
    PrintParts(a);
    var front := Front(a);
    assert front[..|a.scheme| + 3] == a.scheme + AUTHORITY;
  }

  lemma SchemeKept(url: string, scheme: string)
    requires (scheme == HTTP || scheme == HTTPS) && scheme + AUTHORITY <= url
    ensures WithScheme(url) == url
  {
  }

  lemma StartKeyFrom(raw: string, a: Address)
    requires Parse(WithScheme(raw)) == Some(a) && a.host != ""
    ensures StartKey(raw) == Some(a.scheme + AUTHORITY + a.host)
  {
    BarePrint(a.scheme, a.host);
  }

  /** The crawl endpoint keeps the scheme and host of a web address as they are written, and nothing else. */
  lemma StartKeyOf(a: Address)
    requires Parsable(a) && (a.scheme == HTTP || a.scheme == HTTPS) && a.host != ""
    ensures StartKey(Print(a)) == Some(a.scheme + AUTHORITY + a.host)
  {
    ParsePrintAll(a);
    PrintStarts(a);
    SchemeKept(Print(a), a.scheme);
    StartKeyFrom(Print(a), a);
  }

  lemma SchemeAdded(raw: string)
    requires !(HTTP + AUTHORITY <= raw) && !(HTTPS + AUTHORITY <= raw)
    ensures WithScheme(raw) == HTTPS + AUTHORITY + raw
  {
  }

  /** A seed without a scheme is taken for https. */
  lemma SchemelessSeed(a: Address, raw: string)
    requires Parsable(a) && a.scheme == HTTPS && a.host != "" && Print(a) == HTTPS + AUTHORITY + raw
    requires !(HTTP + AUTHORITY <= raw) && !(HTTPS + AUTHORITY <= raw)
    ensures StartKey(raw) == Some(HTTPS + AUTHORITY + a.host)
  {
    ParsePrintAll(a);
    SchemeAdded(raw);
    StartKeyFrom(raw, a);
  }

  /** The text of scheme and host alone. */
  predicate Bare(a: Address) {
    WellFormed(a) && Plain(a) && a.path == ""
  }

  /** Whatever the endpoint pushes is the text of a scheme and a host, that of the seed as it was given. */
  lemma StartKeyBare(raw: string)
    ensures StartKey(raw).Some? ==>
              && Parse(WithScheme(raw)).Some?
              && exists a :: Bare(a) && StartKey(raw) == Some(Print(a)) && a.host == Parse(WithScheme(raw)).value.host
  {
    if StartKey(raw).Some? {
      var scheme := SchemesClean(raw);
      ParseClean(WithScheme(raw), scheme);
      assert Bare(Address(scheme, None, Parse(WithScheme(raw)).value.host, "", None, None));
    }
  }
}
