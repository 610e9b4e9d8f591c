/**
 The managed jar as the object the service updates (src/contexts/cookies.rs): candidates are built in
 loops over a copy, checked against the bounds, and only then take the place of the stores.
 */
module ManagedJars {
  import opened Wrappers
  import opened Collections
  import opened Cookies
  import opened CookieJar
  import opened Snapshots
  import CookieWrites

  /** Header bytes that are text: visible ASCII, space and tab. */
  predicate Textual(header: string) {
    forall i :: 0 <= i < |header| ==> 32 <= header[i] as int < 127 || header[i] as int == 9
  }

  function Texts(headers: seq<string>): seq<string> {
    if headers == [] then []
    else
      var init := Texts(headers[..|headers| - 1]);
      if Textual(headers[|headers| - 1]) then init + [headers[|headers| - 1]] else init
  }

  function Bytes(headers: seq<string>): nat {
    if headers == [] then 0 else Bytes(headers[..|headers| - 1]) + |headers[|headers| - 1]|
  }

  /** Response headers are bounded before the unreadable ones are dropped. */
  ghost predicate HeadersFit(lim: Limits, headers: seq<string>) {
    && |headers| <= lim.cookies && Bytes(headers) <= lim.bytes
    && forall i :: 0 <= i < |headers| ==> |headers[i]| <= lim.size
  }

  ghost function Absorb(cx: Context, jar: Jar, url: Url, headers: seq<string>, now: int): Result<Jar> {
    if !HeadersFit(cx.limits, headers) then Limit else Apply(cx, jar, url, Texts(headers), true, now)
  }

  lemma TextsOne(h: string)
    ensures Texts([h]) == if Textual(h) then [h] else []
  {
    assert [h][..0] == [];
  }

  lemma TextsLast(a: seq<string>, b: seq<string>, more: seq<string>)
    requires b != [] && Texts(a + b[..|b| - 1]) == Texts(a) + Texts(b[..|b| - 1])
    requires more == if Textual(b[|b| - 1]) then [b[|b| - 1]] else []
    ensures Texts(a + b) == Texts(a) + (Texts(b[..|b| - 1]) + more)
  {
    assert (a + b)[..|a + b| - 1] == a + b[..|b| - 1] && (a + b)[|a + b| - 1] == b[|b| - 1];
  }

  /** Exactly the textual headers are kept, in order: header by header, and list by list. */
  lemma {:induction false} TextsFilter(a: seq<string>, b: seq<string>, h: string)
    ensures Texts(a + b) == Texts(a) + Texts(b)
    ensures Texts([h]) == if Textual(h) then [h] else []
    decreases |b|
  {
    TextsOne(h);
    if b == [] {
      assert a + b == a;
    } else {
      var last := b[|b| - 1];
      TextsFilter(a, b[..|b| - 1], h);
      TextsLast(a, b, if Textual(last) then [last] else []);
    }
  }

  lemma {:induction false} BytesMono(headers: seq<string>, i: nat)
    requires i <= |headers|
    ensures Bytes(headers[..i]) <= Bytes(headers)
    decreases |headers| - i
  {
    if i == |headers| {
      assert headers[..i] == headers;
    } else {
      BytesMono(headers, i + 1);
      assert headers[..i + 1][..i] == headers[..i];
    }
  }

  lemma {:induction false} BytesUpTo(headers: seq<string>, i: nat)
    requires i <= |headers|
    ensures CookieWrites.TextBytes(headers, i) == Bytes(headers[..i])
  {
    if i > 0 {
      BytesUpTo(headers, i - 1);
      assert headers[..i][..i - 1] == headers[..i - 1];
    }
  }

  /** Response headers are held to the same limits as the texts of a command. */
  lemma HeaderBoundsAgree(lim: Limits, headers: seq<string>)
    ensures HeadersFit(lim, headers) <==>
            forall i :: 0 <= i < |headers| ==> CookieWrites.Bounded(lim, headers, i)
  {
    if HeadersFit(lim, headers) {
      forall i | 0 <= i < |headers| ensures CookieWrites.Bounded(lim, headers, i) {
        BytesUpTo(headers, i + 1);
        BytesMono(headers, i + 1);
      }
    }
    if headers != [] && forall i :: 0 <= i < |headers| ==> CookieWrites.Bounded(lim, headers, i) {
      assert CookieWrites.Bounded(lim, headers, |headers| - 1);
      BytesUpTo(headers, |headers|);
      assert headers[..|headers|] == headers;
      forall i | 0 <= i < |headers| ensures |headers[i]| <= lim.size { assert CookieWrites.Bounded(lim, headers, i); }
    }
  }

  /** A store's cookies in whatever order the store yields them. */
  method Walk(jar: Jar) returns (listing: seq<Cookie>)
    requires Keyed(jar)
    ensures Lists(jar, listing)
  {
    listing := [];
    var keys := jar.Keys;
    while keys != {}
      invariant keys <= jar.Keys && NoDup(listing)
      invariant forall c :: c in listing <==> Has(jar, c) && KeyOf(c) !in keys
      decreases keys
    {
      var k :| k in keys;
      assert Has(jar, jar[k]);
      listing := listing + [jar[k]];
      keys := keys - {k};
    }
  }

  method Retained(jar: Jar, now: int) returns (copy: Jar)
    ensures copy == Live(jar, now)
  {
    copy := map k | k in jar && !Expired(jar[k], now) :: jar[k];
  }

  /** The running count and total over the live cookies; any order gives the same verdict. */
  method CheckBounds(lim: Limits, jar: Jar, now: int) returns (ok: bool)
    requires Keyed(jar)
    ensures ok <==> Fits(lim, Live(jar, now))
  {
    var live := Retained(jar, now);
    var listing := Walk(live);
    ListingTotal(live, listing);
    var bytes := 0;
    for i := 0 to |listing|
      invariant bytes == SizeUpTo(listing, i) && bytes <= lim.bytes && i <= lim.cookies
      invariant forall j :: 0 <= j < i ==> Size(listing[j]) <= lim.size
    {
      var c := listing[i];
      bytes := bytes + Size(c);
      assert c in listing && Has(live, c);
      SizeUpToMono(listing, i + 1, |listing|);
      if i >= lim.cookies || Size(c) > lim.size || bytes > lim.bytes {
        return false;
      }
    }
    forall k | k in live ensures Size(live[k]) <= lim.size {
      assert Has(live, live[k]);
    }
    return true;
  }

  class ManagedJar {
    const cx: Context
    var stores: Jar

    constructor (cx: Context)
      ensures this.cx == cx && stores == map[]
    {
      this.cx := cx;
      stores := map[];
    }

    method Clear()
      modifies this
      ensures stores == map[]
    {
      stores := map[];
    }

    /** `set` is strict, `absorb` lenient; on any error the stores are untouched. */
    method ApplyTexts(url: Url, texts: seq<string>, lenient: bool, now: int) returns (r: Result<()>)
      requires Keyed(stores)
      modifies this
      ensures Keyed(stores)
      ensures match Apply(cx, old(stores), url, texts, lenient, now)
              case Ok(jar) => r == Ok(()) && stores == jar
              case Invalid => r == Invalid && stores == old(stores)
              case Limit => r == Limit && stores == old(stores)
    {
      if texts == [] {
        return Ok(());
      }
      var built := Build(url, texts, lenient, now);
      if built.Ok? {
        var ok := CheckBounds(cx.limits, built.value, now);
        if !ok {
          return Limit;
        }
        stores := built.value;
        return Ok(());
      }
      return if built.Limit? then Limit else Invalid;
    }

    method Build(url: Url, texts: seq<string>, lenient: bool, now: int) returns (r: Result<Jar>)
      requires Keyed(stores)
      ensures r == Ingest(cx, Live(stores, now), url, texts, 0, 0, lenient, now)
      ensures r.Ok? ==> Keyed(r.value)
    {
      var candidate := Retained(stores, now);
      ghost var goal := Ingest(cx, candidate, url, texts, 0, 0, lenient, now);
      var bytes: nat := 0;
      for i := 0 to |texts|
        invariant Keyed(candidate)
        invariant goal == Ingest(cx, candidate, url, texts, i, bytes, lenient, now)
      {
        bytes := bytes + |texts[i]|;
        if i >= cx.limits.cookies || |texts[i]| > cx.limits.size || bytes > cx.limits.bytes {
          return Limit;
        }
        var cookie := Admit(cx, candidate, url, texts[i], now);
        IngestTurn(cx, candidate, url, texts, i, bytes - |texts[i]|, lenient, now, bytes);
        if cookie.None? {
          if !lenient {
            return Invalid;
          }
        } else {
          candidate := Put(candidate, cookie.value, now);
        }
      }
      return Ok(candidate);
    }

    method AbsorbHeaders(url: Url, headers: seq<string>, now: int) returns (r: Result<()>)
      requires Keyed(stores)
      modifies this
      ensures Keyed(stores)
      ensures match Absorb(cx, old(stores), url, headers, now)
              case Ok(jar) => r == Ok(()) && stores == jar
              case Invalid => r == Invalid && stores == old(stores)
              case Limit => r == Limit && stores == old(stores)
    {
      var texts := [];
      var bytes: nat := 0;
      for i := 0 to |headers|
        invariant stores == old(stores)
        invariant texts == Texts(headers[..i]) && bytes == Bytes(headers[..i])
        invariant i <= cx.limits.cookies && bytes <= cx.limits.bytes
        invariant forall j :: 0 <= j < i ==> |headers[j]| <= cx.limits.size
      {
        assert headers[..i + 1][..i] == headers[..i];
        BytesMono(headers, i + 1);
        bytes := bytes + |headers[i]|;
        if i >= cx.limits.cookies || bytes > cx.limits.bytes || |headers[i]| > cx.limits.size {
          return Limit;
        }
        if Textual(headers[i]) {
          texts := texts + [headers[i]];
        }
      }
      assert headers[..|headers|] == headers;
      r := ApplyTexts(url, texts, true, now);
    }

    method ImportSnapshot(snapshot: Snapshot, now: int) returns (r: Result<()>)
      requires Keyed(stores)
      modifies this
      ensures Keyed(stores)
      ensures match Import(cx, snapshot, now)
              case Ok(jar) => r == Ok(()) && stores == jar
              case Invalid => r == Invalid && stores == old(stores)
              case Limit => r == Limit && stores == old(stores)
    {
      if snapshot.site != cx.site {
        return Invalid;
      }
      if |snapshot.cookies| > cx.limits.cookies {
        return Limit;
      }
      var built := Rebuild(snapshot.cookies, now);
      if built.Ok? {
        var ok := CheckBounds(cx.limits, built.value, now);
        if !ok {
          return Limit;
        }
        stores := built.value;
        return Ok(());
      }
      return if built.Limit? then Limit else Invalid;
    }

    method Rebuild(rs: seq<Record>, now: int) returns (r: Result<Jar>)
      ensures r == RestoreAll(cx, map[], rs, 0, {}, 0, now)
      ensures r.Ok? ==> Keyed(r.value)
    {
      var candidate: Jar := map[];
      ghost var goal := RestoreAll(cx, candidate, rs, 0, {}, 0, now);
      var keys: set<Key> := {};
      var bytes: nat := 0;
      for i := 0 to |rs|
        invariant Keyed(candidate)
        invariant goal == RestoreAll(cx, candidate, rs, i, keys, bytes, now)
      {
        var size := RecordSize(rs[i]);
        bytes := bytes + size;
        if size > cx.limits.size || bytes > cx.limits.bytes {
          return Limit;
        }
        if RecordKey(rs[i]) in keys {
          return Invalid;
        }
        var cookie := Restore(cx, candidate, rs[i], now);
        if cookie.None? {
          return Invalid;
        }
        RestoreAllTurn(cx, candidate, rs, i, keys, bytes - size, now, Put(candidate, cookie.value, now), bytes);
        keys := keys + {RecordKey(rs[i])};
        candidate := Put(candidate, cookie.value, now);
      }
      return Ok(candidate);
    }

    /** The snapshot is the same however the stores are walked. */
    method ExportSnapshot(now: int) returns (snapshot: Snapshot)
      requires Keyed(stores)
      ensures snapshot.site == cx.site
      ensures forall listing :: Lists(stores, listing) ==> snapshot.cookies == Export(listing, now)
    {
      var listing := Walk(stores);
      forall other | Lists(stores, other) ensures Export(listing, now) == Export(other, now) {
        ExportDeterministic(stores, listing, now, stores, other, now);
      }
      snapshot := Snapshot(cx.site, Export(listing, now));
    }

    /** Header and selection come from separate walks and still agree, cookie by cookie. */
    method HeaderFor(url: Url, now: int) returns (header: Option<string>)
      requires Keyed(stores)
      ensures forall listing :: Lists(stores, listing) ==>
                header == if Select(cx.hosts, listing, url, now) == [] then None
                          else Some(Render(Select(cx.hosts, listing, url, now)))
    {
      var listing := Walk(stores);
      forall other | Lists(stores, other)
        ensures Select(cx.hosts, listing, url, now) == Select(cx.hosts, other, url, now)
      {
        SelectionDeterministic(cx.hosts, stores, listing, other, url, now);
      }
      header := Header(cx.hosts, listing, url, now);
    }
  }
}
