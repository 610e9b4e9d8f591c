/**
 The bounded, atomic jar of a managed context (src/contexts/cookies.rs): applying Set-Cookie texts,
 importing a snapshot, and the invariant both keep.  The text parser, host canonicalisation and
 host classes are parameters; the calendar clock is read once per operation.
 */
module CookieJar {
  import opened Wrappers
  import opened Collections
  import opened Cookies

  datatype Limits = Limits(cookies: nat, bytes: nat, size: nat)

  /** A parsed Set-Cookie text; `Max-Age` is already resolved into the expiry. */
  datatype Raw = Raw(
    name: string,
    value: string,
    domain: Option<string>,
    path: Option<string>,
    secure: bool,
    httpOnly: bool,
    partitioned: bool,
    sameSite: Option<SameSite>,
    expires: Option<Instant>)

  /**
   What a jar is created with.  `parse` is the text parser, `canon` brings a domain attribute into
   canonical form, `origins` are the context's allowed origins.
   */
  datatype Context = Context(
    hosts: Hosts,
    parse: (string, int) -> Option<Raw>,
    canon: string -> Option<string>,
    origins: seq<Url>,
    site: string,
    limits: Limits)

  datatype Snapshot = Snapshot(site: string, cookies: seq<Record>)

  /** `Limit` is a capacity error, `Invalid` every other refusal. */
  datatype Result<+T> = Ok(value: T) | Invalid | Limit

  /** Canonical domains stay as they are, and a context's origins share one scheme. */
  ghost predicate Proper(cx: Context) {
    && (forall d :: cx.canon(d).Some? ==> cx.canon(cx.canon(d).value) == cx.canon(d))
    && (forall i, j :: 0 <= i < |cx.origins| && 0 <= j < |cx.origins| ==> cx.origins[i].https == cx.origins[j].https)
  }

  predicate Allowed(cx: Context, url: Url) {
    exists i :: 0 <= i < |cx.origins| && cx.origins[i].https == url.https && cx.origins[i].host == url.host
  }

  // ----- validation -----

  predicate Alphanumeric(c: char) {
    'a' <= c <= 'z' || 'A' <= c <= 'Z' || '0' <= c <= '9'
  }

  predicate NameOk(name: string) {
    name != "" && forall i :: 0 <= i < |name| ==> Alphanumeric(name[i]) || name[i] in "!#$%&'*+-.^_`|~"
  }

  predicate ValueChar(c: char) {
    || c as int == 0x21
    || 0x23 <= c as int <= 0x2b
    || 0x2d <= c as int <= 0x3a
    || 0x3c <= c as int <= 0x5b
    || 0x5d <= c as int <= 0x7e
  }

  function Unquoted(value: string): string {
    if |value| >= 2 && value[0] == '"' && value[|value| - 1] == '"' then value[1..|value| - 1] else value
  }

  predicate PairOk(name: string, value: string) {
    NameOk(name) && forall i :: 0 <= i < |Unquoted(value)| ==> ValueChar(Unquoted(value)[i])
  }

  predicate Control(c: char) {
    (c as int) < 0x20 || c as int == 0x7f
  }

  function Lower(c: char): char {
    if 'A' <= c <= 'Z' then (c as int + 32) as char else c
  }

  predicate HasPrefix(name: string, prefix: string) {
    |prefix| <= |name| && forall i :: 0 <= i < |prefix| ==> Lower(name[i]) == Lower(prefix[i])
  }

  predicate HostPrefix(name: string) { HasPrefix(name, "__Host-") }

  predicate HttpPrefix(name: string) { HasPrefix(name, "__Http-") || HasPrefix(name, "__Host-Http-") }

  predicate SuffixOk(hosts: Hosts, d: Domain) {
    d.Suffix? ==>
      && !hosts.address(d.text)
      && (d.text != "" ==> d.text[0] != '[' && d.text[|d.text| - 1] != '.')
      && !hosts.publicSuffix(d.text)
  }

  /** Attribute rules that do not depend on what is stored. */
  predicate AttributesOk(hosts: Hosts, c: Cookie, rawDomain: bool, rawRoot: bool, https: bool) {
    && SuffixOk(hosts, c.domain)
    && (c.secure ==> https)
    && (c.sameSite == Some(Unrestricted) ==> c.secure)
    && (c.partitioned ==> c.secure)
    && (HostPrefix(c.name) || HttpPrefix(c.name) || HasPrefix(c.name, "__Secure-") ==> c.secure && https)
    && (HostPrefix(c.name) ==> !rawDomain && rawRoot)
    && (HttpPrefix(c.name) ==> c.httpOnly)
  }

  predicate Overlap(a: Domain, b: Domain) {
    a.text == b.text || SuffixMatch(a.text, b.text) || SuffixMatch(b.text, a.text)
  }

  /** A live secure cookie of the same name whose domain overlaps, in the same store. */
  predicate Shadows(jar: Jar, k: Key, c: Cookie, now: int)
    requires k in jar
  {
    && k.partitioned == c.partitioned && !Expired(jar[k], now)
    && jar[k].name == c.name && jar[k].secure && Overlap(jar[k].domain, c.domain)
  }

  predicate PolicyOk(cx: Context, c: Cookie, raw: Raw, url: Url, jar: Jar, now: int) {
    && AttributesOk(cx.hosts, c, raw.domain.Some?, raw.path == Some("/"), url.https)
    && (url.https || forall k :: k in jar ==> !Shadows(jar, k, c, now))
  }

  function LastSlash(path: string): (i: nat)
    requires path != "" && path[0] == '/'
    ensures i < |path| && path[i] == '/' && forall j :: i < j < |path| ==> path[j] != '/'
  {
    if path[|path| - 1] == '/' then |path| - 1 else LastSlash(path[..|path| - 1])
  }

  /**
   The default path of section 5.1.4 of RFC 6265: the directory of the request path, which matches
   the request and leaves no slash out but the one behind it.
   */
  function DefaultPath(path: string): (r: string)
    ensures r != "" && r[0] == '/'
    ensures path != "" && path[0] == '/' ==> PathMatch(r, path) && forall j :: |r| < j < |path| ==> path[j] != '/'
    ensures path == "" || path[0] != '/' ==> r == "/"
  {
    if path == "" || path[0] != '/' || LastSlash(path) == 0 then "/" else path[..LastSlash(path)]
  }

  /** The library's reading of a raw cookie received from `url`; none for a foreign domain. */
  function FromRaw(cx: Context, raw: Raw, url: Url): Option<Cookie> {
    var path := match raw.path
      case Some(p) => if p != "" && p[0] == '/' then p else DefaultPath(url.path)
      case None => DefaultPath(url.path);
    var c := Cookie(raw.name, raw.value, HostOnly(url.host), path,
                    raw.secure, raw.httpOnly, raw.partitioned, raw.sameSite, raw.expires);
    match raw.domain
    case None => Some(c)
    case Some(d) =>
      match cx.canon(d)
      case None => None
      case Some(e) =>
        if e == "" then Some(c)
        else if DomainMatch(cx.hosts, Suffix(e), url.host) then Some(c.(domain := Suffix(e)))
        else None
  }

  function RawOf(c: Cookie): Raw {
    Raw(c.name, c.value, if c.domain.Suffix? then Some(c.domain.text) else None, Some(c.path),
        c.secure, c.httpOnly, c.partitioned, c.sameSite, c.expires)
  }

  /** One Set-Cookie text, validated against the jar as it stands and brought into canonical form. */
  function Admit(cx: Context, jar: Jar, url: Url, text: string, now: int): Option<Cookie> {
    if exists i :: 0 <= i < |text| && Control(text[i]) then None
    else match cx.parse(text, now)
      case None => None
      case Some(raw) =>
        if !PairOk(raw.name, raw.value) then None
        else match FromRaw(cx, raw, url)
          case None => None
          case Some(c) => if PolicyOk(cx, c, raw, url, jar, now) then FromRaw(cx, RawOf(c), url) else None
  }

  function Put(jar: Jar, c: Cookie, now: int): Jar {
    if Expired(c, now) then jar - {KeyOf(c)} else jar[KeyOf(c) := c]
  }

  // ----- bounds -----

  function Size(c: Cookie): nat {
    |c.name| + |c.value| + |c.domain.text| + |c.path| + 96
  }

  function RecordSize(r: Record): nat {
    |r.name| + |r.value| + |r.domain| + |r.path| + 96
  }

  ghost function Sizes(jar: Jar): map<Key, nat> {
    map k | k in jar :: Size(jar[k])
  }

  ghost predicate SizesOk(lim: Limits, jar: Jar) {
    forall k :: k in jar ==> Size(jar[k]) <= lim.size
  }

  ghost predicate Fits(lim: Limits, jar: Jar) {
    |jar| <= lim.cookies && Sum(Sizes(jar)) <= lim.bytes && SizesOk(lim, jar)
  }

  // ----- apply -----

  ghost function Ingest(cx: Context, jar: Jar, url: Url, texts: seq<string>, i: nat, bytes: nat, lenient: bool,
      now: int): Result<Jar>
    requires i <= |texts|
    decreases |texts| - i
  {
    if i == |texts| then Ok(jar)
    else
      var total := bytes + |texts[i]|;
      if i >= cx.limits.cookies || |texts[i]| > cx.limits.size || total > cx.limits.bytes then Limit
      else match Admit(cx, jar, url, texts[i], now)
        case None => if lenient then Ingest(cx, jar, url, texts, i + 1, total, lenient, now) else Invalid
        case Some(c) => Ingest(cx, Put(jar, c, now), url, texts, i + 1, total, lenient, now)
  }

  /** One turn of the candidate loop, for a text within the limits. */
  lemma IngestTurn(cx: Context, jar: Jar, url: Url, texts: seq<string>, i: nat, bytes: nat, lenient: bool, now: int,
                   total: nat)
    requires i < |texts| && i < cx.limits.cookies && |texts[i]| <= cx.limits.size
    requires total == bytes + |texts[i]| <= cx.limits.bytes
    ensures Ingest(cx, jar, url, texts, i, bytes, lenient, now)
         == match Admit(cx, jar, url, texts[i], now)
            case None => if lenient then Ingest(cx, jar, url, texts, i + 1, total, lenient, now) else Invalid
            case Some(c) => Ingest(cx, Put(jar, c, now), url, texts, i + 1, total, lenient, now)
  {
  }

  ghost function Checked(lim: Limits, r: Result<Jar>, now: int): Result<Jar> {
    if r.Ok? && !Fits(lim, Live(r.value, now)) then Limit else r
  }

  ghost function Apply(cx: Context, jar: Jar, url: Url, texts: seq<string>, lenient: bool, now: int): Result<Jar> {
    if texts == [] then Ok(jar) else Checked(cx.limits, Ingest(cx, Live(jar, now), url, texts, 0, 0, lenient, now), now)
  }

  // ----- import -----

  predicate RecordShapeOk(r: Record) {
    && r.path != "" && r.path[0] == '/'
    && (forall i :: 0 <= i < |r.path| ==> !Control(r.path[i]) && r.path[i] != ';')
    && r.domain != "" && r.domain[0] != '.' && r.domain[|r.domain| - 1] != '.'
  }

  function DomainOf(r: Record): Domain {
    if r.hostOnly then HostOnly(r.domain) else Suffix(r.domain)
  }

  predicate Serves(cx: Context, url: Url, r: Record) {
    DomainMatch(cx.hosts, DomainOf(r), url.host) && (r.secure ==> url.https)
  }

  /** The first allowed origin the cookie could have come from. */
  function Source(cx: Context, r: Record, i: nat): (o: Option<Url>)
    requires i <= |cx.origins|
    ensures o.Some? ==> exists j :: i <= j < |cx.origins| && o.value == cx.origins[j] && Serves(cx, cx.origins[j], r)
    ensures o.None? ==> forall j :: i <= j < |cx.origins| ==> !Serves(cx, cx.origins[j], r)
    decreases |cx.origins| - i
  {
    if i == |cx.origins| then None
    else if Serves(cx, cx.origins[i], r) then Some(cx.origins[i])
    else Source(cx, r, i + 1)
  }

  const MAX_SAFE_MS: int := 9_007_199_254_740_991

  predicate ExpiryOk(r: Record) {
    r.expiresMs.Some? ==> r.expiresMs.value <= MAX_SAFE_MS && r.expiresMs.value * NANOS_PER_MS <= MAX_NANOS
  }

  function RawRecord(r: Record): Raw
    requires ExpiryOk(r)
  {
    Raw(r.name, r.value, if r.hostOnly then None else Some(r.domain), Some(r.path),
        r.secure, r.httpOnly, r.partitioned, r.sameSite,
        if r.expiresMs.Some? then Some(r.expiresMs.value * NANOS_PER_MS) else None)
  }

  /** One record of a snapshot, checked against what has been restored so far. */
  function Restore(cx: Context, jar: Jar, r: Record, now: int): Option<Cookie> {
    if !PairOk(r.name, r.value) || !RecordShapeOk(r) then None
    else match Source(cx, r, 0)
      case None => None
      case Some(url) =>
        if !ExpiryOk(r) then None
        else match FromRaw(cx, RawRecord(r), url)
          case None => None
          case Some(c) => if PolicyOk(cx, c, RawRecord(r), url, jar, now) && ToRecord(c) == r then Some(c) else None
  }

  function RecordKey(r: Record): Key {
    Key(r.domain, r.path, r.name, r.partitioned)
  }

  ghost function RestoreAll(cx: Context, jar: Jar, rs: seq<Record>, i: nat, keys: set<Key>, bytes: nat,
      now: int): Result<Jar>
    requires i <= |rs|
    decreases |rs| - i
  {
    if i == |rs| then Ok(jar)
    else
      var r := rs[i];
      var total := bytes + RecordSize(r);
      if RecordSize(r) > cx.limits.size || total > cx.limits.bytes then Limit
      else if RecordKey(r) in keys then Invalid
      else match Restore(cx, jar, r, now)
        case None => Invalid
        case Some(c) => RestoreAll(cx, Put(jar, c, now), rs, i + 1, keys + {RecordKey(r)}, total, now)
  }

  ghost function Import(cx: Context, snapshot: Snapshot, now: int): Result<Jar> {
    if snapshot.site != cx.site then Invalid
    else if |snapshot.cookies| > cx.limits.cookies then Limit
    else Checked(cx.limits, RestoreAll(cx, map[], snapshot.cookies, 0, {}, 0, now), now)
  }

  // ----- the invariant -----

  predicate HasSource(cx: Context, c: Cookie) {
    exists i :: 0 <= i < |cx.origins| && DomainMatch(cx.hosts, c.domain, cx.origins[i].host)
        && (c.secure ==> cx.origins[i].https)
  }

  /** What every stored cookie satisfies: origin, syntax, attribute policy and canonical domain. */
  predicate CookieOk(cx: Context, c: Cookie) {
    && PairOk(c.name, c.value)
    && c.path != "" && c.path[0] == '/'
    && HasSource(cx, c)
    && AttributesOk(cx.hosts, c, c.domain.Suffix?, c.path == "/", c.secure)
    && (c.domain.Suffix? ==> c.domain.text != "" && cx.canon(c.domain.text) == Some(c.domain.text))
  }

  ghost predicate JarOk(cx: Context, jar: Jar) {
    Keyed(jar) && forall k :: k in jar ==> CookieOk(cx, jar[k])
  }

  ghost predicate Inv(cx: Context, jar: Jar) {
    JarOk(cx, jar) && Fits(cx.limits, jar)
  }

  lemma EmptyInv(cx: Context)
    ensures Inv(cx, map[])
  {
    assert Sizes(map[]) == map[];
  }

  lemma FromRawSource(cx: Context, raw: Raw, url: Url)
    requires Proper(cx) && FromRaw(cx, raw, url).Some?
    ensures var c := FromRaw(cx, raw, url).value;
            && DomainMatch(cx.hosts, c.domain, url.host) && c.path != "" && c.path[0] == '/'
            && (c.domain.Suffix? ==> c.domain.text != "" && cx.canon(c.domain.text) == Some(c.domain.text))
            && (c.domain.Suffix? ==> raw.domain.Some?) && (raw.path == Some("/") ==> c.path == "/")
  {
  }

  /** Canonicalising a cookie that was just read changes nothing. */
  lemma CanonicalIsSame(cx: Context, raw: Raw, url: Url)
    requires Proper(cx) && FromRaw(cx, raw, url).Some?
    ensures FromRaw(cx, RawOf(FromRaw(cx, raw, url).value), url) == FromRaw(cx, raw, url)
  {
    FromRawSource(cx, raw, url);
  }

  lemma PolicyGivesOk(cx: Context, raw: Raw, url: Url, jar: Jar, now: int)
    requires Proper(cx) && Allowed(cx, url) && FromRaw(cx, raw, url).Some? && PairOk(raw.name, raw.value)
    requires PolicyOk(cx, FromRaw(cx, raw, url).value, raw, url, jar, now)
    ensures CookieOk(cx, FromRaw(cx, raw, url).value)
  {
    FromRawSource(cx, raw, url);
    var c := FromRaw(cx, raw, url).value;
    var i :| 0 <= i < |cx.origins| && cx.origins[i].https == url.https && cx.origins[i].host == url.host;
    assert DomainMatch(cx.hosts, c.domain, cx.origins[i].host);
  }

  lemma AdmitOk(cx: Context, jar: Jar, url: Url, text: string, now: int)
    requires Proper(cx) && Allowed(cx, url) && Admit(cx, jar, url, text, now).Some?
    ensures CookieOk(cx, Admit(cx, jar, url, text, now).value)
  {
    var raw := cx.parse(text, now).value;
    CanonicalIsSame(cx, raw, url);
    PolicyGivesOk(cx, raw, url, jar, now);
  }

  lemma RestoreOk(cx: Context, jar: Jar, r: Record, now: int)
    requires Proper(cx) && Restore(cx, jar, r, now).Some?
    ensures CookieOk(cx, Restore(cx, jar, r, now).value) && KeyOf(Restore(cx, jar, r, now).value) == RecordKey(r)
  {
    var url := Source(cx, r, 0).value;
    PolicyGivesOk(cx, RawRecord(r), url, jar, now);
  }

  // ----- what the policy comes to -----

  /** Reading a raw cookie: none exactly for a domain attribute the request's host is not under. */
  lemma FromRawMeans(cx: Context, raw: Raw, url: Url)
    ensures FromRaw(cx, raw, url).None? <==>
            && raw.domain.Some?
            && (cx.canon(raw.domain.value).None?
                || (cx.canon(raw.domain.value).value != ""
                    && !UnderDomain(cx.hosts, Suffix(cx.canon(raw.domain.value).value), url.host)))
    ensures var r := FromRaw(cx, raw, url);
            r.Some? ==>
              && r.value.name == raw.name && r.value.value == raw.value && r.value.expires == raw.expires
              && r.value.secure == raw.secure && r.value.httpOnly == raw.httpOnly
              && r.value.partitioned == raw.partitioned && r.value.sameSite == raw.sameSite
              && (r.value.domain.HostOnly? ==> r.value.domain.text == url.host)
              && (r.value.domain.HostOnly? <==> raw.domain.None? || cx.canon(raw.domain.value) == Some(""))
              && (r.value.domain.Suffix? ==> cx.canon(raw.domain.value) == Some(r.value.domain.text))
              && (raw.path.Some? && "/" <= raw.path.value ==> r.value.path == raw.path.value)
              && (raw.path.None? || !("/" <= raw.path.value) ==> r.value.path == DefaultPath(url.path))
  {
    if raw.domain.Some? && cx.canon(raw.domain.value).Some? {
      DomainMatchMeans(cx.hosts, Suffix(cx.canon(raw.domain.value).value), url.host);
    }
    if raw.path.Some? && raw.path.value != "" { assert raw.path.value[..1] == [raw.path.value[0]]; }
  }

  predicate SafeSuffix(hosts: Hosts, d: string) {
    !hosts.address(d) && !hosts.publicSuffix(d) && (d == "" || (d[0] != '[' && d[|d| - 1] != '.'))
  }

  /** Attributes and names that a cookie may have only together with `Secure`. */
  predicate NeedsSecure(c: Cookie) {
    || c.sameSite == Some(Unrestricted)
    || c.partitioned
    || HasPrefix(c.name, "__Secure-")
    || HasPrefix(c.name, "__Host-")
    || HasPrefix(c.name, "__Http-")
  }

  lemma HostHttpIsHost(name: string)
    requires HasPrefix(name, "__Host-Http-")
    ensures HasPrefix(name, "__Host-")
  {
    assert "__Host-Http-"[..7] == "__Host-";
    forall i | 0 <= i < |"__Host-"| ensures Lower(name[i]) == Lower("__Host-"[i]) {
      assert "__Host-"[i] == "__Host-Http-"[i];
    }
  }

  /** Exactly which texts are admitted. */
  lemma AdmittedExactly(cx: Context, jar: Jar, url: Url, text: string, now: int, raw: Raw, c: Cookie)
    requires Proper(cx) && cx.parse(text, now) == Some(raw) && FromRaw(cx, raw, url) == Some(c)
    ensures Admit(cx, jar, url, text, now) == Some(c) <==>
            && (forall i :: 0 <= i < |text| ==> !Control(text[i])) && PairOk(raw.name, raw.value)
            && (c.domain.Suffix? ==> SafeSuffix(cx.hosts, c.domain.text))
            && (NeedsSecure(c) ==> c.secure) && (c.secure ==> url.https)
            && (HasPrefix(c.name, "__Host-") ==> raw.domain.None? && raw.path == Some("/"))
            && (HasPrefix(c.name, "__Http-") || HasPrefix(c.name, "__Host-Http-") ==> c.httpOnly)
            && (url.https || forall k :: k in jar ==> !Shadows(jar, k, c, now))
    ensures Admit(cx, jar, url, text, now).Some? ==> Admit(cx, jar, url, text, now) == Some(c)
  {
    CanonicalIsSame(cx, raw, url);
    if HasPrefix(c.name, "__Host-Http-") { HostHttpIsHost(c.name); }
  }

  /** What every stored cookie obeys, said in full. */
  lemma StoredObeys(cx: Context, c: Cookie)
    requires CookieOk(cx, c)
    ensures NameOk(c.name) && "/" <= c.path
    ensures exists i :: 0 <= i < |cx.origins| && UnderDomain(cx.hosts, c.domain, cx.origins[i].host)
                        && (c.secure ==> cx.origins[i].https)
    ensures c.domain.Suffix? ==> SafeSuffix(cx.hosts, c.domain.text)
    ensures NeedsSecure(c) ==> c.secure
    ensures HasPrefix(c.name, "__Host-") ==> c.domain.HostOnly? && c.path == "/"
    ensures HasPrefix(c.name, "__Http-") || HasPrefix(c.name, "__Host-Http-") ==> c.httpOnly
  {
    var i :| 0 <= i < |cx.origins| && DomainMatch(cx.hosts, c.domain, cx.origins[i].host)
             && (c.secure ==> cx.origins[i].https);
    DomainMatchMeans(cx.hosts, c.domain, cx.origins[i].host);
    assert c.path[..1] == [c.path[0]];
  }

  ghost predicate AllLive(jar: Jar, now: int) {
    forall k :: k in jar ==> !Expired(jar[k], now)
  }

  lemma PutOk(cx: Context, jar: Jar, c: Cookie, now: int)
    requires JarOk(cx, jar) && AllLive(jar, now) && CookieOk(cx, c)
    ensures JarOk(cx, Put(jar, c, now)) && AllLive(Put(jar, c, now), now)
  {
  }

  lemma LiveOk(cx: Context, jar: Jar, now: int)
    requires JarOk(cx, jar)
    ensures JarOk(cx, Live(jar, now)) && AllLive(Live(jar, now), now)
  {
  }

  lemma {:induction false} IngestOk(cx: Context, jar: Jar, url: Url, texts: seq<string>, i: nat, bytes: nat,
      lenient: bool, now: int)
    requires Proper(cx) && Allowed(cx, url) && JarOk(cx, jar) && AllLive(jar, now) && i <= |texts|
    ensures var r := Ingest(cx, jar, url, texts, i, bytes, lenient, now);
            r.Ok? ==> JarOk(cx, r.value) && AllLive(r.value, now)
    decreases |texts| - i
  {
    if i < |texts| {
      var total := bytes + |texts[i]|;
      var cookie := Admit(cx, jar, url, texts[i], now);
      var next := if cookie.Some? then Put(jar, cookie.value, now) else jar;
      if cookie.Some? {
        AdmitOk(cx, jar, url, texts[i], now);
        PutOk(cx, jar, cookie.value, now);
      }
      IngestOk(cx, next, url, texts, i + 1, total, lenient, now);
    }
  }

  lemma {:induction false} RestoreAllOk(cx: Context, jar: Jar, rs: seq<Record>, i: nat, keys: set<Key>, bytes: nat,
      now: int)
    requires Proper(cx) && JarOk(cx, jar) && AllLive(jar, now) && i <= |rs|
    ensures var r := RestoreAll(cx, jar, rs, i, keys, bytes, now);
            r.Ok? ==> JarOk(cx, r.value) && AllLive(r.value, now)
    decreases |rs| - i
  {
    if i < |rs| && Restore(cx, jar, rs[i], now).Some? {
      var c := Restore(cx, jar, rs[i], now).value;
      var total := bytes + RecordSize(rs[i]);
      RestoreOk(cx, jar, rs[i], now);
      PutOk(cx, jar, c, now);
      RestoreAllOk(cx, Put(jar, c, now), rs, i + 1, keys + {RecordKey(rs[i])}, total, now);
    }
  }

  lemma LiveAll(jar: Jar, now: int)
    requires AllLive(jar, now)
    ensures Live(jar, now) == jar
  {
  }

  /** Set-Cookie texts from an allowed URL keep every bound and every policy, or change nothing. */
  lemma ApplyKeepsInv(cx: Context, jar: Jar, url: Url, texts: seq<string>, lenient: bool, now: int)
    requires Proper(cx) && Allowed(cx, url) && Inv(cx, jar)
    ensures var r := Apply(cx, jar, url, texts, lenient, now); r.Ok? ==> Inv(cx, r.value)
  {
    LiveOk(cx, jar, now);
    IngestOk(cx, Live(jar, now), url, texts, 0, 0, lenient, now);
    var r := Ingest(cx, Live(jar, now), url, texts, 0, 0, lenient, now);
    if r.Ok? { LiveAll(r.value, now); }
  }

  /** So does a snapshot, whoever wrote it. */
  lemma ImportKeepsInv(cx: Context, snapshot: Snapshot, now: int)
    requires Proper(cx)
    ensures Import(cx, snapshot, now).Ok? ==> Inv(cx, Import(cx, snapshot, now).value)
  {
    RestoreAllOk(cx, map[], snapshot.cookies, 0, {}, 0, now);
    var r := RestoreAll(cx, map[], snapshot.cookies, 0, {}, 0, now);
    if r.Ok? { LiveAll(r.value, now); }
  }
}
