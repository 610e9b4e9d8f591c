/**
 Cookies, matching and the two orders in which a managed jar lists them (src/contexts/cookies.rs).
 Domain and path matching follow sections 5.1.3 and 5.1.4 of RFC 6265.  Text is a sequence of bytes.

 A jar is the pair of cookie stores as one table, keyed by domain, path, name and store.  A store has
 no iteration order of its own, so whatever walks it is given an arbitrary listing.
 */
module Cookies {
  import opened Wrappers
  import opened Collections
  import opened Ordering

  const NANOS_PER_MS: int := 1_000_000
  const MAX_NANOS: int := 253_402_300_799_999_999_999

  /** An instant in nanoseconds since 1970; calendar dates end with the year 9999. */
  type Instant = n: int | n <= MAX_NANOS witness 0

  datatype Url = Url(https: bool, host: string, path: string)

  datatype Domain = HostOnly(text: string) | Suffix(text: string)

  datatype SameSite = Strict | Lax | Unrestricted

  datatype Cookie = Cookie(
    name: string,
    value: string,
    domain: Domain,
    path: string,
    secure: bool,
    httpOnly: bool,
    partitioned: bool,
    sameSite: Option<SameSite>,
    expires: Option<Instant>)

  datatype Record = Record(
    name: string,
    value: string,
    domain: string,
    path: string,
    secure: bool,
    httpOnly: bool,
    hostOnly: bool,
    partitioned: bool,
    sameSite: Option<SameSite>,
    expiresMs: Option<nat>)

  datatype Key = Key(domain: string, path: string, name: string, partitioned: bool)

  type Jar = map<Key, Cookie>

  function KeyOf(c: Cookie): Key {
    Key(c.domain.text, c.path, c.name, c.partitioned)
  }

  predicate Expired(c: Cookie, now: int) {
    c.expires.Some? && c.expires.value <= now
  }

  /** What a snapshot or a reply says about a cookie; expiry is rounded down to milliseconds. */
  function ToRecord(c: Cookie): Record {
    Record(c.name, c.value, c.domain.text, c.path, c.secure, c.httpOnly, c.domain.HostOnly?, c.partitioned, c.sameSite,
           match c.expires
           case None => None
           case Some(at) => Some(if at < 0 then 0 else at / NANOS_PER_MS))
  }

  ghost predicate Keyed(jar: Jar) {
    forall k :: k in jar ==> KeyOf(jar[k]) == k
  }

  predicate Has(jar: Jar, c: Cookie) {
    KeyOf(c) in jar && jar[KeyOf(c)] == c
  }

  ghost predicate Lists(jar: Jar, listing: seq<Cookie>) {
    NoDup(listing) && forall c :: c in listing <==> Has(jar, c)
  }

  // ----- matching -----

  /** Facts about hosts that the jar asks of its libraries. */
  datatype Hosts = Hosts(address: string -> bool, local: string -> bool, publicSuffix: string -> bool)

  predicate SuffixMatch(host: string, domain: string) {
    |domain| < |host| && host[|host| - |domain|..] == domain && host[|host| - |domain| - 1] == '.'
  }

  predicate DomainMatch(hosts: Hosts, d: Domain, host: string) {
    host == d.text || (d.Suffix? && !hosts.address(host) && SuffixMatch(host, d.text))
  }

  predicate PathMatch(path: string, request: string) {
    || path == request
    || (path <= request && |path| < |request| && (request[|path|] == '/' || (path != "" && path[|path| - 1] == '/')))
  }

  predicate Matches(hosts: Hosts, c: Cookie, url: Url, now: int) {
    && !Expired(c, now)
    && DomainMatch(hosts, c.domain, url.host)
    && PathMatch(c.path, url.path)
    && (c.secure ==> url.https || hosts.local(url.host))
  }

  function Chosen(hosts: Hosts, listing: seq<Cookie>, url: Url, now: int): seq<Cookie> {
    if listing == [] then []
    else
      var rest := Chosen(hosts, listing[1..], url, now);
      if Matches(hosts, listing[0], url, now) then [listing[0]] + rest else rest
  }

  function LiveOf(listing: seq<Cookie>, now: int): seq<Cookie> {
    if listing == [] then []
    else if Expired(listing[0], now) then LiveOf(listing[1..], now)
    else [listing[0]] + LiveOf(listing[1..], now)
  }

  function Live(jar: Jar, now: int): Jar {
    map k | k in jar && !Expired(jar[k], now) :: jar[k]
  }

  // ----- the two orders -----

  predicate DomainLess(a: Domain, b: Domain) {
    (a.HostOnly? && b.Suffix?) || (a.HostOnly? == b.HostOnly? && Less(a.text, b.text))
  }

  /** Longest path first, then name, domain and store. */
  predicate Precedes(a: Cookie, b: Cookie) {
    || |a.path| > |b.path|
    || (|a.path| == |b.path|
        && (Less(a.name, b.name)
            || (a.name == b.name
                && (DomainLess(a.domain, b.domain) || (a.domain == b.domain && !a.partitioned && b.partitioned)))))
  }

  predicate KeyLess(a: Key, b: Key) {
    || Less(a.domain, b.domain)
    || (a.domain == b.domain
        && (Less(a.path, b.path)
            || (a.path == b.path
                && (Less(a.name, b.name) || (a.name == b.name && !a.partitioned && b.partitioned)))))
  }

  predicate ExportLess(a: Cookie, b: Cookie) {
    KeyLess(KeyOf(a), KeyOf(b))
  }

  function Records(cs: seq<Cookie>): (r: seq<Record>)
    ensures |r| == |cs| && forall i :: 0 <= i < |cs| ==> r[i] == ToRecord(cs[i])
  {
    seq(|cs|, i requires 0 <= i < |cs| => ToRecord(cs[i]))
  }

  function Select(hosts: Hosts, listing: seq<Cookie>, url: Url, now: int): seq<Record> {
    Records(Sort(Precedes, Chosen(hosts, listing, url, now)))
  }

  function Export(listing: seq<Cookie>, now: int): seq<Record> {
    Records(Sort(ExportLess, LiveOf(listing, now)))
  }

  /** The request header for a list of records: `name=value` pairs joined by "; ". */
  function Render(rs: seq<Record>): string {
    if rs == [] then ""
    else if |rs| == 1 then rs[0].name + "=" + rs[0].value
    else Render(rs[..|rs| - 1]) + "; " + rs[|rs| - 1].name + "=" + rs[|rs| - 1].value
  }

  lemma DomainLessDecides(a: Domain, b: Domain)
    ensures !(DomainLess(a, b) && DomainLess(b, a))
    ensures a == b || DomainLess(a, b) || DomainLess(b, a)
  {
    LessDecides(a.text, b.text);
  }

  lemma DomainLessChains(a: Domain, b: Domain, c: Domain)
    requires DomainLess(a, b) && DomainLess(b, c)
    ensures DomainLess(a, c)
  {
    if Less(a.text, b.text) && Less(b.text, c.text) { LessChains(a.text, b.text, c.text); }
  }

  lemma PrecedesChains(a: Cookie, b: Cookie, c: Cookie)
    requires Precedes(a, b) && Precedes(b, c)
    ensures Precedes(a, c)
  {
    if Less(a.name, b.name) && Less(b.name, c.name) { LessChains(a.name, b.name, c.name); }
    if DomainLess(a.domain, b.domain) && DomainLess(b.domain,
        c.domain) { DomainLessChains(a.domain, b.domain, c.domain); }
  }

  lemma PrecedesOneWay(a: Cookie, b: Cookie)
    ensures !(Precedes(a, b) && Precedes(b, a))
  {
    LessDecides(a.name, b.name);
    DomainLessDecides(a.domain, b.domain);
  }

  /** Both paths are prefixes of the request path: of equal length, they are equal. */
  lemma EqualLengthPathMatches(p: string, q: string, request: string)
    requires PathMatch(p, request) && PathMatch(q, request) && |p| == |q|
    ensures p == q
  {
    assert p == request[..|p|] && q == request[..|q|];
  }

  /** Between two different cookies of one jar that match one URL the order always decides. */
  lemma PrecedesDecides(hosts: Hosts, jar: Jar, a: Cookie, b: Cookie, url: Url, now: int)
    requires Has(jar, a) && Has(jar, b) && a != b && Matches(hosts, a, url, now) && Matches(hosts, b, url, now)
    ensures Precedes(a, b) || Precedes(b, a)
  {
    LessDecides(a.name, b.name);
    DomainLessDecides(a.domain, b.domain);
    if |a.path| == |b.path| { EqualLengthPathMatches(a.path, b.path, url.path); }
  }

  lemma KeyLessChains(a: Key, b: Key, c: Key)
    requires KeyLess(a, b) && KeyLess(b, c)
    ensures KeyLess(a, c)
  {
    if Less(a.domain, b.domain) && Less(b.domain, c.domain) { LessChains(a.domain, b.domain, c.domain); }
    if Less(a.path, b.path) && Less(b.path, c.path) { LessChains(a.path, b.path, c.path); }
    if Less(a.name, b.name) && Less(b.name, c.name) { LessChains(a.name, b.name, c.name); }
  }

  lemma KeyLessDecides(a: Key, b: Key)
    ensures !(KeyLess(a, b) && KeyLess(b, a))
    ensures a == b || KeyLess(a, b) || KeyLess(b, a)
  {
    LessDecides(a.domain, b.domain);
    LessDecides(a.path, b.path);
    LessDecides(a.name, b.name);
  }

  // ----- what matching means -----

  /** Section 5.1.3 of RFC 6265: the same host, or a host with further labels in front. */
  ghost predicate UnderDomain(hosts: Hosts, d: Domain, host: string) {
    host == d.text || (d.Suffix? && !hosts.address(host) && exists front :: host == front + "." + d.text)
  }

  lemma DomainMatchMeans(hosts: Hosts, d: Domain, host: string)
    ensures DomainMatch(hosts, d, host) <==> UnderDomain(hosts, d, host)
  {
    if SuffixMatch(host, d.text) {
      var n := |host| - |d.text| - 1;
      assert host == host[..n] + "." + d.text;
    }
    if front :| host == front + "." + d.text {
      assert host[|host| - |d.text|..] == d.text && host[|front|] == '.';
    }
  }

  /** Section 5.1.4 of RFC 6265: the same path, or a path that goes on behind a slash. */
  ghost predicate UnderPath(path: string, request: string) {
    exists rest :: request == path + rest
                   && (rest == "" || rest[0] == '/' || (path != "" && path[|path| - 1] == '/'))
  }

  lemma PathMatchMeans(path: string, request: string)
    ensures PathMatch(path, request) <==> UnderPath(path, request)
  {
    if PathMatch(path, request) {
      var rest := request[|path|..];
      assert request == path + rest;
    }
    if rest :| request == path + rest && (rest == "" || rest[0] == '/' || (path != "" && path[|path| - 1] == '/')) {
      if rest == "" { assert request == path; } else { assert request[|path|] == rest[0]; }
    }
  }

  // ----- what the filters keep -----

  lemma {:induction false} ChosenElements(hosts: Hosts, listing: seq<Cookie>, url: Url, now: int)
    requires NoDup(listing)
    ensures NoDup(Chosen(hosts, listing, url, now))
    ensures forall c :: c in Chosen(hosts, listing, url, now) <==> c in listing && Matches(hosts, c, url, now)
  {
    if listing != [] {
      assert listing == [listing[0]] + listing[1..];
      ChosenElements(hosts, listing[1..], url, now);
      var rest := Chosen(hosts, listing[1..], url, now);
      assert listing[0] !in listing[1..];
      assert listing[0] !in rest;
    }
  }

  lemma {:induction false} LiveOfElements(listing: seq<Cookie>, now: int)
    requires NoDup(listing)
    ensures NoDup(LiveOf(listing, now))
    ensures forall c :: c in LiveOf(listing, now) <==> c in listing && !Expired(c, now)
  {
    if listing != [] {
      assert listing == [listing[0]] + listing[1..];
      LiveOfElements(listing[1..], now);
      assert listing[0] !in listing[1..];
    }
  }

  lemma NoDupSameSize<T(!new)>(s: seq<T>, t: seq<T>)
    requires NoDup(s) && NoDup(t) && forall x :: x in s <==> x in t
    ensures |s| == |t|
  {
    var both := set x | x in s;
    assert forall x :: x in both <==> x in s;
    SetSize(s, both);
    SetSize(t, both);
  }

  lemma {:induction false} SetSize<T(!new)>(s: seq<T>, elements: set<T>)
    requires NoDup(s) && forall x :: x in elements <==> x in s
    ensures |elements| == |s|
  {
    if s == [] {
      assert elements == {};
    } else {
      assert s == [s[0]] + s[1..] && s[0] !in s[1..];
      SetSize(s[1..], elements - {s[0]});
    }
  }

  lemma ChosenDecided(hosts: Hosts, jar: Jar, listing: seq<Cookie>, url: Url, now: int)
    requires Lists(jar, listing)
    ensures NoDup(Chosen(hosts, listing, url, now)) && Decides(Precedes, Chosen(hosts, listing, url, now))
    ensures forall c :: c in Chosen(hosts, listing, url, now) <==> Has(jar, c) && Matches(hosts, c, url, now)
  {
    ChosenElements(hosts, listing, url, now);
    var chosen := Chosen(hosts, listing, url, now);
    forall a, b | a in chosen && b in chosen
      ensures a != b ==> Precedes(a, b) || Precedes(b, a)
      ensures !(Precedes(a, b) && Precedes(b, a))
    {
      if a != b { PrecedesDecides(hosts, jar, a, b, url, now); }
      PrecedesOneWay(a, b);
    }
    forall a, b, c | a in chosen && b in chosen && c in chosen && Precedes(a, b) && Precedes(b, c)
      ensures Precedes(a, c)
    {
      PrecedesChains(a, b, c);
    }
  }

  lemma LiveDecided(jar: Jar, listing: seq<Cookie>, now: int)
    requires Lists(jar, listing)
    ensures NoDup(LiveOf(listing, now)) && Decides(ExportLess, LiveOf(listing, now))
    ensures forall c :: c in LiveOf(listing, now) <==> Has(jar, c) && !Expired(c, now)
  {
    LiveOfElements(listing, now);
    var live := LiveOf(listing, now);
    forall a, b | a in live && b in live
      ensures a != b ==> ExportLess(a, b) || ExportLess(b, a)
      ensures !(ExportLess(a, b) && ExportLess(b, a))
    {
      KeyLessDecides(KeyOf(a), KeyOf(b));
      assert Has(jar, a) && Has(jar, b);
    }
    forall a, b, c | a in live && b in live && c in live && ExportLess(a, b) && ExportLess(b, c)
      ensures ExportLess(a, c)
    {
      KeyLessChains(KeyOf(a), KeyOf(b), KeyOf(c));
    }
  }

  /** Selection does not depend on the order in which the stores are walked. */
  lemma SelectionDeterministic(hosts: Hosts, jar: Jar, l1: seq<Cookie>, l2: seq<Cookie>, url: Url, now: int)
    requires Lists(jar, l1) && Lists(jar, l2)
    ensures Select(hosts, l1, url, now) == Select(hosts, l2, url, now)
  {
    ChosenDecided(hosts, jar, l1, url, now);
    ChosenDecided(hosts, jar, l2, url, now);
    var c1, c2 := Chosen(hosts, l1, url, now), Chosen(hosts, l2, url, now);
    NoDupSameSize(c1, c2);
    SortForgetsOrder(Precedes, c1, c2);
  }

  /** Nor does the snapshot; and it depends only on the live cookies. */
  lemma ExportDeterministic(jar: Jar, l1: seq<Cookie>, n1: int, jar2: Jar, l2: seq<Cookie>, n2: int)
    requires Lists(jar, l1) && Lists(jar2, l2) && Keyed(jar) && Keyed(jar2) && Live(jar, n1) == Live(jar2, n2)
    ensures Export(l1, n1) == Export(l2, n2)
  {
    LiveDecided(jar, l1, n1);
    LiveDecided(jar2, l2, n2);
    var c1, c2 := LiveOf(l1, n1), LiveOf(l2, n2);
    forall c ensures c in c1 <==> c in c2 {
      assert Has(jar, c) && !Expired(c, n1) <==> Has(Live(jar, n1), c);
      assert Has(jar2, c) && !Expired(c, n2) <==> Has(Live(jar2, n2), c);
    }
    NoDupSameSize(c1, c2);
    SortForgetsOrder(ExportLess, c1, c2);
  }

  /** How ties between equally long paths are broken: by name, then host-only domains first, then domain, then store. */
  predicate TiesInOrder(a: Cookie, b: Cookie) {
    && !Less(b.name, a.name)
    && (a.name == b.name ==> !(a.domain.Suffix? && b.domain.HostOnly?))
    && (a.name == b.name && a.domain.Suffix? == b.domain.Suffix? ==> !Less(b.domain.text, a.domain.text))
    && (a.name == b.name && a.domain == b.domain ==> !a.partitioned && b.partitioned)
  }

  lemma PrecedesMeans(a: Cookie, b: Cookie)
    requires Precedes(a, b)
    ensures |a.path| > |b.path| || (|a.path| == |b.path| && TiesInOrder(a, b))
  {
    LessDecides(a.name, b.name);
    LessDecides(a.domain.text, b.domain.text);
  }

  /**
   A selection holds exactly the cookies that are live, under the request's domain and path, and not
   secure unless the request is; each once, longest paths first, and ties in a fixed order.
   */
  lemma SelectionIsExact(hosts: Hosts, jar: Jar, listing: seq<Cookie>, url: Url, now: int)
    returns (cs: seq<Cookie>)
    requires Lists(jar, listing)
    ensures Select(hosts, listing, url, now) == Records(cs) && NoDup(cs)
    ensures forall c :: c in cs <==>
              && Has(jar, c) && (c.expires.Some? ==> c.expires.value > now)
              && UnderDomain(hosts, c.domain, url.host) && UnderPath(c.path, url.path)
              && (c.secure ==> url.https || hosts.local(url.host))
    ensures forall i, j :: 0 <= i < j < |cs| ==>
              |cs[i].path| > |cs[j].path| || (|cs[i].path| == |cs[j].path| && TiesInOrder(cs[i], cs[j]))
  {
    ChosenDecided(hosts, jar, listing, url, now);
    SortSorts(Precedes, Chosen(hosts, listing, url, now));
    cs := Sort(Precedes, Chosen(hosts, listing, url, now));
    forall i, j | 0 <= i < j < |cs|
      ensures |cs[i].path| > |cs[j].path| || (|cs[i].path| == |cs[j].path| && TiesInOrder(cs[i], cs[j]))
      ensures cs[i] != cs[j]
    {
      assert Precedes(cs[i], cs[j]);
      PrecedesMeans(cs[i], cs[j]);
      PrecedesOneWay(cs[i], cs[j]);
    }
    forall c ensures Matches(hosts, c, url, now) <==>
              && (c.expires.Some? ==> c.expires.value > now)
              && UnderDomain(hosts, c.domain, url.host) && UnderPath(c.path, url.path)
              && (c.secure ==> url.https || hosts.local(url.host))
    {
      DomainMatchMeans(hosts, c.domain, url.host);
      PathMatchMeans(c.path, url.path);
    }
  }

  /** An export is sorted by domain, then path, then name, then store. */
  lemma ExportIsSorted(jar: Jar, listing: seq<Cookie>, now: int) returns (cs: seq<Cookie>)
    requires Lists(jar, listing)
    ensures Export(listing, now) == Records(cs)
    ensures forall c :: c in cs <==> Has(jar, c) && (c.expires.Some? ==> c.expires.value > now)
    ensures forall i, j :: 0 <= i < j < |cs| ==> !Less(cs[j].domain.text, cs[i].domain.text)
    ensures forall i, j :: 0 <= i < j < |cs| && cs[i].domain.text == cs[j].domain.text ==> !Less(cs[j].path, cs[i].path)
    ensures forall i, j :: 0 <= i < j < |cs| && cs[i].domain.text == cs[j].domain.text && cs[i].path == cs[j].path ==>
              !Less(cs[j].name, cs[i].name) && (cs[i].name == cs[j].name ==> !cs[i].partitioned && cs[j].partitioned)
  {
    LiveDecided(jar, listing, now);
    SortSorts(ExportLess, LiveOf(listing, now));
    cs := Sort(ExportLess, LiveOf(listing, now));
    forall i, j | 0 <= i < j < |cs| ensures KeyLess(KeyOf(cs[i]), KeyOf(cs[j])) { assert ExportLess(cs[i], cs[j]); }
    forall a: Key, b: Key | KeyLess(a, b)
      ensures !Less(b.domain, a.domain) && (a.domain == b.domain ==> !Less(b.path, a.path))
      ensures a.domain == b.domain && a.path == b.path ==>
                !Less(b.name, a.name) && (a.name == b.name ==> !a.partitioned && b.partitioned)
    {
      LessDecides(a.domain, b.domain);
      LessDecides(a.path, b.path);
      LessDecides(a.name, b.name);
    }
  }

  lemma RenderSnoc(rs: seq<Record>, r: Record)
    ensures Render(rs + [r]) == (if rs == [] then "" else Render(rs) + "; ") + r.name + "=" + r.value
  {
    assert (rs + [r])[..|rs + [r]| - 1] == rs;
    if rs == [] { assert "" + r.name == r.name; }
  }

  /** The header the service sends: absent without a matching cookie, else the rendered selection. */
  method Header(hosts: Hosts, listing: seq<Cookie>, url: Url, now: int) returns (header: Option<string>)
    ensures header == if Select(hosts, listing, url, now) == [] then None
              else Some(Render(Select(hosts, listing, url, now)))
  {
    var chosen := Chosen(hosts, listing, url, now);
    var cookies := Sort(Precedes, chosen);
    SortSize(Precedes, chosen);
    if |chosen| == 0 {
      return None;
    }
    var text := "";
    ghost var rs := Records(cookies);
    for i := 0 to |cookies|
      invariant text == Render(rs[..i])
      invariant i > 0 ==> text != ""
    {
      assert rs[..i + 1] == rs[..i] + [rs[i]];
      RenderSnoc(rs[..i], rs[i]);
      if text != "" {
        text := text + "; ";
      }
      text := text + cookies[i].name + "=" + cookies[i].value;
    }
    assert rs[..|cookies|] == rs;
    return Some(text);
  }

  lemma {:induction false} InsertSize(less: (Cookie, Cookie) -> bool, x: Cookie, s: seq<Cookie>)
    ensures |Insert(less, x, s)| == |s| + 1
  {
    if s != [] { InsertSize(less, x, s[1..]); }
  }

  lemma {:induction false} SortSize(less: (Cookie, Cookie) -> bool, s: seq<Cookie>)
    ensures |Sort(less, s)| == |s|
  {
    if s != [] {
      SortSize(less, s[1..]);
      InsertSize(less, s[0], Sort(less, s[1..]));
    }
  }
}
