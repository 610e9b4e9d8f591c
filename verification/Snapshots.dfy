/**
 Snapshot round trip (src/contexts/cookies.rs): exporting a jar and importing the export into a fresh
 jar of the same context, exactly when it succeeds and exactly when it re-exports identically.
 */
module Snapshots {
  import opened Wrappers
  import opened Collections
  import opened Ordering
  import opened Cookies
  import opened CookieJar

  // ----- sizes along a listing -----

  function SizeUpTo(cs: seq<Cookie>, i: nat): nat
    requires i <= |cs|
  {
    if i == 0 then 0 else SizeUpTo(cs, i - 1) + Size(cs[i - 1])
  }

  lemma {:induction false} SizeUpToMono(cs: seq<Cookie>, i: nat, j: nat)
    requires i <= j <= |cs|
    ensures SizeUpTo(cs, i) <= SizeUpTo(cs, j)
  {
    if i < j { SizeUpToMono(cs, i, j - 1); }
  }

  lemma {:induction false} SizeUpToPrefix(cs: seq<Cookie>, ds: seq<Cookie>, i: nat)
    requires i <= |cs| && cs <= ds
    ensures SizeUpTo(cs, i) == SizeUpTo(ds, i)
  {
    if i > 0 { SizeUpToPrefix(cs, ds, i - 1); }
  }

  /** However a store is walked, the sizes add up to the same total. */
  lemma {:induction false} ListingTotal(jar: Jar, cs: seq<Cookie>)
    requires Lists(jar, cs) && Keyed(jar)
    ensures SizeUpTo(cs, |cs|) == Sum(Sizes(jar)) && |cs| == |jar|
    decreases |cs|
  {
    if cs == [] {
      NonEmptyHas(jar);
      assert Sizes(jar) == map[];
    } else {
      var n := |cs| - 1;
      var init, c := cs[..n], cs[n];
      assert cs == init + [c] && c !in init;
      assert Has(jar, c);
      var k := KeyOf(c);
      ListsInit(jar, cs);
      ListingTotal(jar - {k}, init);
      SizeUpToPrefix(init, cs, n);
      TotalWithout(jar, k);
    }
  }

  lemma TotalWithout(jar: Jar, k: Key)
    requires k in jar
    ensures Sum(Sizes(jar)) == Sum(Sizes(jar - {k})) + Size(jar[k]) && |jar| == |jar - {k}| + 1
  {
    SumRemove(Sizes(jar), k);
    assert Sizes(jar) - {k} == Sizes(jar - {k});
    assert jar.Keys == (jar - {k}).Keys + {k};
  }

  lemma NonEmptyHas(jar: Jar)
    requires Keyed(jar)
    ensures jar == map[] || exists c :: Has(jar, c)
  {
    if jar.Keys != {} {
      var k :| k in jar;
      assert Has(jar, jar[k]);
    }
  }

  lemma ListsInit(jar: Jar, cs: seq<Cookie>)
    requires cs != [] && Lists(jar, cs)
    ensures Lists(jar - {KeyOf(cs[|cs| - 1])}, cs[..|cs| - 1])
  {
    var n := |cs| - 1;
    var init, c := cs[..n], cs[n];
    assert cs == init + [c];
    assert Has(jar, c);
    forall d ensures d in init <==> Has(jar - {KeyOf(c)}, d) {
      assert d in cs <==> Has(jar, d);
      assert d in cs <==> d in init || d == c;
      assert c !in init;
    }
  }

  lemma {:induction false} SumWithin<K(!new)>(a: map<K, nat>, b: map<K, nat>)
    requires forall k :: k in a ==> k in b && a[k] == b[k]
    ensures Sum(a) <= Sum(b) && |a| <= |b|
    decreases |a.Keys|
  {
    if a.Keys == {} {
      assert a == map[];
    } else {
      var k :| k in a;
      SumRemove(a, k);
      SumRemove(b, k);
      assert a.Keys == (a - {k}).Keys + {k} && b.Keys == (b - {k}).Keys + {k};
      SumWithin(a - {k}, b - {k});
    }
  }

  // ----- one record -----

  /** The cookie a snapshot can carry: its expiry has whole milliseconds. */
  function Floor(c: Cookie): Cookie {
    c.(expires := if c.expires.Some? then Some(c.expires.value / NANOS_PER_MS * NANOS_PER_MS) else None)
  }

  predicate NotAncient(c: Cookie) {
    c.expires.Some? ==> c.expires.value >= 0
  }

  lemma FloorFacts(c: Cookie)
    requires NotAncient(c)
    ensures ToRecord(Floor(c)) == ToRecord(c) && KeyOf(Floor(c)) == KeyOf(c) && Size(Floor(c)) == Size(c)
    ensures ExpiryOk(ToRecord(c)) && RawRecord(ToRecord(c)) == RawOf(Floor(c))
  {
    if c.expires.Some? { FloorTwice(c.expires.value); }
  }

  lemma FloorTwice(n: Instant)
    requires n >= 0
    ensures n / NANOS_PER_MS * NANOS_PER_MS / NANOS_PER_MS == n / NANOS_PER_MS
    ensures n / NANOS_PER_MS <= MAX_SAFE_MS && 0 <= n / NANOS_PER_MS * NANOS_PER_MS <= MAX_NANOS
  {
  }

  lemma SourceExists(cx: Context, c: Cookie)
    requires HasSource(cx, c) && NotAncient(c)
    ensures Source(cx, ToRecord(c), 0).Some?
  {
    var i :| 0 <= i < |cx.origins| && DomainMatch(cx.hosts, c.domain, cx.origins[i].host)
        && (c.secure ==> cx.origins[i].https);
    assert DomainOf(ToRecord(c)) == c.domain;
    assert Serves(cx, cx.origins[i], ToRecord(c));
  }

  /** Over plain HTTP nothing secure can have been restored, so nothing is shadowed. */
  lemma NothingShadowed(cx: Context, jar: Jar, c: Cookie, url: Url, j: nat, now: int)
    requires Proper(cx) && JarOk(cx, jar) && j < |cx.origins| && url == cx.origins[j] && !url.https
    ensures forall k :: k in jar ==> !Shadows(jar, k, c, now)
  {
    forall k | k in jar ensures !jar[k].secure {
      assert CookieOk(cx, jar[k]);
    }
  }

  /** An exported record of a proper cookie is refused exactly for its shape, and restores the cookie otherwise. */
  lemma RestoreRecord(cx: Context, jar: Jar, c: Cookie, now: int)
    requires Proper(cx) && JarOk(cx, jar) && CookieOk(cx, c) && NotAncient(c)
    ensures Restore(cx, jar, ToRecord(c), now) == if RecordShapeOk(ToRecord(c)) then Some(Floor(c)) else None
  {
    if RecordShapeOk(ToRecord(c)) {
      var r := ToRecord(c);
      SourceExists(cx, c);
      FloorFacts(c);
      var url := Source(cx, r, 0).value;
      var j :| 0 <= j < |cx.origins| && url == cx.origins[j] && Serves(cx, cx.origins[j], r);
      assert DomainOf(r) == c.domain;
      assert FromRaw(cx, RawRecord(r), url) == Some(Floor(c));
      if !url.https { NothingShadowed(cx, jar, Floor(c), url, j, now); }
      assert PolicyOk(cx, Floor(c), RawRecord(r), url, jar, now);
    }
  }

  // ----- the whole snapshot -----

  ghost function Restored(cs: seq<Cookie>, i: nat, now: int): Jar
    requires i <= |cs|
  {
    if i == 0 then map[] else Put(Restored(cs, i - 1, now), Floor(cs[i - 1]), now)
  }

  ghost function Keys(cs: seq<Cookie>, i: nat): set<Key>
    requires i <= |cs|
  {
    if i == 0 then {} else Keys(cs, i - 1) + {KeyOf(cs[i - 1])}
  }

  predicate Fine(cx: Context, c: Cookie) {
    CookieOk(cx, c) && NotAncient(c) && Size(c) <= cx.limits.size
  }

  ghost predicate DistinctKeys(cs: seq<Cookie>) {
    forall i, j :: 0 <= i < j < |cs| ==> KeyOf(cs[i]) != KeyOf(cs[j])
  }

  ghost predicate Good(cx: Context, cs: seq<Cookie>) {
    && DistinctKeys(cs)
    && (forall i :: 0 <= i < |cs| ==> Fine(cx, cs[i]))
    && SizeUpTo(cs, |cs|) <= cx.limits.bytes
    && |cs| <= cx.limits.cookies
  }

  lemma {:induction false} KeysAre(cs: seq<Cookie>, i: nat)
    requires i <= |cs|
    ensures forall k :: k in Keys(cs, i) <==> exists j :: 0 <= j < i && KeyOf(cs[j]) == k
  {
    if i > 0 { KeysAre(cs, i - 1); }
  }

  predicate Shaped(cs: seq<Cookie>, from: nat) {
    forall j :: from <= j < |cs| ==> RecordShapeOk(ToRecord(cs[j]))
  }

  lemma KeyIsNew(cs: seq<Cookie>, i: nat)
    requires DistinctKeys(cs) && i < |cs|
    ensures KeyOf(cs[i]) !in Keys(cs, i)
  {
    KeysAre(cs, i);
  }

  /** One turn of the import loop, for an acceptable record. */
  lemma RestoreAllTurn(cx: Context, jar: Jar, rs: seq<Record>, i: nat, keys: set<Key>, bytes: nat, now: int,
      next: Jar, total: nat)
    requires i < |rs| && RecordSize(rs[i]) <= cx.limits.size
               && total == bytes + RecordSize(rs[i]) <= cx.limits.bytes && RecordKey(rs[i]) !in keys
    requires Restore(cx, jar, rs[i], now).Some? ==> next == Put(jar, Restore(cx, jar, rs[i], now).value, now)
    ensures RestoreAll(cx, jar, rs, i, keys, bytes, now)
         == if Restore(cx, jar, rs[i], now).None? then Invalid
            else RestoreAll(cx, next, rs, i + 1, keys + {RecordKey(rs[i])}, total, now)
  {
  }

  lemma RecordFacts(c: Cookie)
    ensures RecordSize(ToRecord(c)) == Size(c) && RecordKey(ToRecord(c)) == KeyOf(c)
  {
  }

  lemma TurnReady(lim: Limits, cs: seq<Cookie>, i: nat)
    requires DistinctKeys(cs) && SizeUpTo(cs, |cs|) <= lim.bytes && i < |cs| && Size(cs[i]) <= lim.size
    ensures RecordSize(Records(cs)[i]) <= lim.size && RecordKey(Records(cs)[i]) !in Keys(cs, i)
    ensures SizeUpTo(cs, i + 1) == SizeUpTo(cs, i) + RecordSize(Records(cs)[i]) <= lim.bytes
    ensures Keys(cs, i + 1) == Keys(cs, i) + {RecordKey(Records(cs)[i])}
  {
    RecordFacts(cs[i]);
    SizeUpToMono(cs, i + 1, |cs|);
    KeyIsNew(cs, i);
  }

  lemma RestoreNext(cx: Context, cs: seq<Cookie>, i: nat, now: int)
    requires Proper(cx) && Good(cx, cs) && i < |cs| && JarOk(cx, Restored(cs, i, now))
    ensures RestoreAll(cx, Restored(cs, i, now), Records(cs), i, Keys(cs, i), SizeUpTo(cs, i), now)
         == if !RecordShapeOk(ToRecord(cs[i])) then Invalid
            else RestoreAll(cx, Restored(cs, i + 1, now), Records(cs), i + 1, Keys(cs, i + 1), SizeUpTo(cs, i + 1), now)
  {
    var jar, next := Restored(cs, i, now), Restored(cs, i + 1, now);
    assert Fine(cx, cs[i]);
    TurnReady(cx.limits, cs, i);
    RestoreRecord(cx, jar, cs[i], now);
    RestoreAllTurn(cx, jar, Records(cs), i, Keys(cs, i), SizeUpTo(cs, i), now, next, SizeUpTo(cs, i + 1));
  }

  lemma {:induction false} RestoreRun(cx: Context, cs: seq<Cookie>, i: nat, now: int)
    requires Proper(cx) && Good(cx, cs) && i <= |cs|
    requires JarOk(cx, Restored(cs, i, now)) && AllLive(Restored(cs, i, now), now)
    ensures RestoreAll(cx, Restored(cs, i, now), Records(cs), i, Keys(cs, i), SizeUpTo(cs, i), now)
         == if Shaped(cs, i) then Ok(Restored(cs, |cs|, now)) else Invalid
    decreases |cs| - i
  {
    if i < |cs| {
      RestoreNext(cx, cs, i, now);
      if RecordShapeOk(ToRecord(cs[i])) {
        assert Fine(cx, cs[i]);
        RestoreRecord(cx, Restored(cs, i, now), cs[i], now);
        RestoreOk(cx, Restored(cs, i, now), ToRecord(cs[i]), now);
        PutOk(cx, Restored(cs, i, now), Floor(cs[i]), now);
        RestoreRun(cx, cs, i + 1, now);
        assert Shaped(cs, i) <==> Shaped(cs, i + 1);
      }
    }
  }

  ghost predicate Within(lim: Limits, jar: Jar, cookies: nat, bytes: nat) {
    |jar| <= cookies && Sum(Sizes(jar)) <= bytes && SizesOk(lim, jar)
  }

  lemma SizesWithout(jar: Jar, k: Key)
    ensures Sizes(jar - {k}) == Sizes(jar) - {k}
  {
  }

  lemma SizesWith(jar: Jar, k: Key, c: Cookie)
    ensures Sizes(jar[k := c]) == Sizes(jar)[k := Size(c)]
  {
  }

  lemma DropSizes(jar: Jar, k: Key)
    ensures |jar - {k}| <= |jar| && Sum(Sizes(jar - {k})) <= Sum(Sizes(jar))
  {
    SizesWithout(jar, k);
    SumDelete(Sizes(jar), k);
    SubsetSize((jar - {k}).Keys, jar.Keys);
  }

  lemma AddSizes(jar: Jar, k: Key, c: Cookie)
    ensures |jar[k := c]| <= |jar| + 1 && Sum(Sizes(jar[k := c])) <= Sum(Sizes(jar)) + Size(c)
  {
    SizesWith(jar, k, c);
    SumUpdate(Sizes(jar), k, Size(c));
    assert jar[k := c].Keys == jar.Keys + {k};
  }

  lemma PutWithin(lim: Limits, jar: Jar, c: Cookie, now: int, cookies: nat, bytes: nat)
    requires Within(lim, jar, cookies, bytes) && Size(c) <= lim.size
    ensures Within(lim, Put(jar, c, now), cookies + 1, bytes + Size(c))
  {
    var k := KeyOf(c);
    if Expired(c, now) { DropSizes(jar, k); } else { AddSizes(jar, k, c); }
    forall l | l in Put(jar, c, now) ensures Size(Put(jar, c, now)[l]) <= lim.size {
      assert l in jar || l == k;
    }
  }

  /** What has been restored fits, because the cookies it came from did. */
  lemma {:induction false} RestoredFits(cx: Context, cs: seq<Cookie>, i: nat, now: int)
    requires Good(cx, cs) && i <= |cs|
    ensures Within(cx.limits, Restored(cs, i, now), i, SizeUpTo(cs, i))
  {
    if i == 0 {
      assert Sizes(map[]) == map[];
    } else {
      RestoredFits(cx, cs, i - 1, now);
      assert Fine(cx, cs[i - 1]);
      PutWithin(cx.limits, Restored(cs, i - 1, now), Floor(cs[i - 1]), now, i - 1, SizeUpTo(cs, i - 1));
    }
  }

  ghost predicate From(cs: seq<Cookie>, i: nat, d: Cookie)
    requires i <= |cs|
  {
    exists j :: 0 <= j < i && Floor(cs[j]) == d
  }

  /** The restored jar: every exported cookie, rounded, that has not expired by now. */
  lemma {:induction false} RestoredHas(cs: seq<Cookie>, i: nat, now: int, d: Cookie)
    requires DistinctKeys(cs) && i <= |cs|
    ensures Has(Restored(cs, i, now), d) <==> !Expired(d, now) && From(cs, i, d)
  {
    if i > 0 {
      RestoredHas(cs, i - 1, now, d);
      var c := cs[i - 1];
      assert KeyOf(Floor(c)) == KeyOf(c);
      if From(cs, i - 1, d) {
        var j :| 0 <= j < i - 1 && Floor(cs[j]) == d;
        assert KeyOf(d) == KeyOf(cs[j]) && KeyOf(d) != KeyOf(c);
        assert From(cs, i, d);
      } else {
        assert From(cs, i, d) <==> d == Floor(c);
      }
    }
  }

  // ----- the round trip -----

  function Floors(cs: seq<Cookie>): (r: seq<Cookie>)
    ensures |r| == |cs| && forall i :: 0 <= i < |cs| ==> r[i] == Floor(cs[i])
  {
    seq(|cs|, i requires 0 <= i < |cs| => Floor(cs[i]))
  }

  /** Still ahead of `t`, also after rounding down to milliseconds. */
  predicate Ahead(r: Record, t: int) {
    r.expiresMs.Some? ==> r.expiresMs.value * NANOS_PER_MS > t
  }

  lemma AheadIsLive(c: Cookie, t: int)
    requires NotAncient(c)
    ensures Ahead(ToRecord(c), t) <==> !Expired(Floor(c), t)
  {
  }

  /** The cookies behind an export: the live ones, in order, within every bound. */
  lemma Exported(cx: Context, jar: Jar, listing: seq<Cookie>, t: int) returns (cs: seq<Cookie>)
    requires Inv(cx, jar) && Lists(jar, listing) && t >= 0
    ensures Export(listing, t) == Records(cs) && Good(cx, cs) && Ordered(ExportLess, cs)
  {
    LiveDecided(jar, listing, t);
    cs := Sort(ExportLess, LiveOf(listing, t));
    SortSorts(ExportLess, LiveOf(listing, t));
    OrderedKeys(cs);
    var live := Live(jar, t);
    forall c ensures c in cs <==> Has(live, c) { }
    assert Lists(live, cs) by { DistinctNoDup(cs); }
    ListingTotal(live, cs);
    SumWithin(Sizes(live), Sizes(jar));
    assert Sizes(live).Keys == live.Keys && Sizes(jar).Keys == jar.Keys;
    forall i | 0 <= i < |cs| ensures Fine(cx, cs[i]) {
      assert cs[i] in cs && Has(jar, cs[i]);
    }
  }

  lemma OrderedKeys(cs: seq<Cookie>)
    requires Ordered(ExportLess, cs)
    ensures DistinctKeys(cs)
  {
    forall i, j | 0 <= i < j < |cs| ensures KeyOf(cs[i]) != KeyOf(cs[j]) {
      assert ExportLess(cs[i], cs[j]);
      KeyLessDecides(KeyOf(cs[i]), KeyOf(cs[j]));
    }
  }

  lemma DistinctNoDup(cs: seq<Cookie>)
    requires DistinctKeys(cs)
    ensures NoDup(cs)
  {
    forall i, j | 0 <= i < j < |cs| ensures cs[i] != cs[j] { assert KeyOf(cs[i]) != KeyOf(cs[j]); }
  }

  lemma ImportIs(cx: Context, cs: seq<Cookie>, now: int)
    requires Proper(cx) && Good(cx, cs)
    ensures Import(cx, Snapshot(cx.site, Records(cs)), now) == if Shaped(cs, 0) then Ok(Restored(cs, |cs|, now))
              else Invalid
  {
    RestoreRun(cx, cs, 0, now);
    RestoredFits(cx, cs, |cs|, now);
    RestoreAllOk(cx, map[], Records(cs), 0, {}, 0, now);
    if Shaped(cs, 0) { LiveAll(Restored(cs, |cs|, now), now); }
  }

  /** If every expiry is still ahead, the restored jar exports the same records. */
  lemma SameExport(cx: Context, cs: seq<Cookie>, t1: int, listing: seq<Cookie>, t2: int)
    requires Good(cx, cs) && Ordered(ExportLess, cs) && t1 <= t2 && Lists(Restored(cs, |cs|, t1), listing)
    requires forall i :: 0 <= i < |cs| ==> Ahead(ToRecord(cs[i]), t2)
    ensures Export(listing, t2) == Records(cs)
  {
    var jar, fs := Restored(cs, |cs|, t1), Floors(cs);
    LiveDecided(jar, listing, t2);
    var live := LiveOf(listing, t2);
    forall i, j | 0 <= i < j < |fs| ensures ExportLess(fs[i], fs[j]) { assert ExportLess(cs[i], cs[j]); }
    OrderedKeys(fs);
    DistinctNoDup(fs);
    forall d ensures d in live <==> d in fs {
      RestoredHas(cs, |cs|, t1, d);
      if d in fs {
        var i :| 0 <= i < |fs| && fs[i] == d;
        assert Fine(cx, cs[i]);
        AheadIsLive(cs[i], t2);
      }
    }
    NoDupSameSize(live, fs);
    SortSorts(ExportLess, live);
    OrderedUnique(ExportLess, Sort(ExportLess, live), fs);
    forall i | 0 <= i < |cs| ensures Records(fs)[i] == Records(cs)[i] {
      assert Fine(cx, cs[i]);
      FloorFacts(cs[i]);
    }
    assert Records(fs) == Records(cs);
  }

  /** And conversely a record that comes back was still ahead. */
  lemma SameExportNeedsAhead(cx: Context, cs: seq<Cookie>, t1: int, listing: seq<Cookie>, t2: int, i: nat)
    requires Good(cx, cs) && t1 <= t2 && Lists(Restored(cs, |cs|, t1), listing)
    requires Export(listing, t2) == Records(cs) && i < |cs|
    ensures Ahead(ToRecord(cs[i]), t2)
  {
    var jar := Restored(cs, |cs|, t1);
    LiveDecided(jar, listing, t2);
    var live := LiveOf(listing, t2);
    SortSorts(ExportLess, live);
    var d := Sort(ExportLess, live)[i];
    assert Records(cs)[i] == ToRecord(d);
    assert d in Sort(ExportLess, live);
    RestoredHas(cs, |cs|, t1, d);
    var j :| 0 <= j < |cs| && Floor(cs[j]) == d;
    assert Fine(cx, cs[j]);
    FloorFacts(cs[j]);
    AheadIsLive(cs[j], t2);
  }

  /**
   The round trip.  Export a jar at `t0`, import at `t1` into a fresh jar of the same context, export
   again at `t2`.  The import succeeds exactly when no exported domain starts or ends with a dot and
   no exported path holds a semicolon or a control character (the shape test of an import); and then
   the second export equals the first exactly when every expiry, rounded down to milliseconds, is
   still ahead at `t2`.
   */
  lemma RoundTrip(cx: Context, jar: Jar, l0: seq<Cookie>, l2: seq<Cookie>, t0: int, t1: int, t2: int)
    requires Proper(cx) && Inv(cx, jar) && Lists(jar, l0) && 0 <= t0 <= t1 <= t2
    ensures var rs := Export(l0, t0); var back := Import(cx, Snapshot(cx.site, rs), t1);
            && (back.Ok? <==> forall i :: 0 <= i < |rs| ==> RecordShapeOk(rs[i]))
            && (back.Ok? && Lists(back.value, l2) ==>
                (Export(l2, t2) == rs <==> forall i :: 0 <= i < |rs| ==> Ahead(rs[i], t2)))
  {
    var cs := Exported(cx, jar, l0, t0);
    ImportIs(cx, cs, t1);
    var rs := Export(l0, t0);
    assert forall i :: 0 <= i < |cs| ==> rs[i] == ToRecord(cs[i]);
    if Shaped(cs, 0) && Lists(Restored(cs, |cs|, t1), l2) {
      if forall i :: 0 <= i < |rs| ==> Ahead(rs[i], t2) {
        SameExport(cx, cs, t1, l2, t2);
      }
      if Export(l2, t2) == rs {
        forall i | 0 <= i < |rs| ensures Ahead(rs[i], t2) { SameExportNeedsAhead(cx, cs, t1, l2, t2, i); }
      }
    }
  }

  // ----- any snapshot -----

  /** The record stands in the jar under its own key, or is absent because it has expired. */
  ghost predicate Imported(jar: Jar, r: Record, now: int) {
    if Ahead(r, now) then RecordKey(r) in jar && ToRecord(jar[RecordKey(r)]) == r else RecordKey(r) !in jar
  }

  lemma RestoreYields(cx: Context, jar: Jar, r: Record, now: int)
    requires Restore(cx, jar, r, now).Some?
    ensures var c := Restore(cx, jar, r, now).value;
            KeyOf(c) == RecordKey(r) && ToRecord(c) == r && (Expired(c, now) <==> !Ahead(r, now))
  {
    var c := Restore(cx, jar, r, now).value;
    assert c.expires == RawRecord(r).expires;
  }

  /** Later records have other keys, and leave what is under this one alone. */
  ghost predicate Disjoint(rs: seq<Record>, i: nat, keys: set<Key>) {
    && (forall x :: i <= x < |rs| ==> RecordKey(rs[x]) !in keys)
    && (forall x, y :: i <= x < y < |rs| ==> RecordKey(rs[x]) != RecordKey(rs[y]))
  }

  ghost predicate SameElsewhere(before: Jar, after: Jar, rs: seq<Record>, i: nat) {
    forall k :: (forall x :: i <= x < |rs| ==> RecordKey(rs[x]) != k) ==>
      (k in after <==> k in before) && (k in after ==> after[k] == before[k])
  }

  ghost predicate AllImported(jar: Jar, rs: seq<Record>, i: nat, now: int) {
    forall x :: i <= x < |rs| ==> Imported(jar, rs[x], now)
  }

  /** One record, and what the rest of the import did: together they keep the claims below. */
  lemma ImportedFirst(jar: Jar, c: Cookie, rs: seq<Record>, i: nat, keys: set<Key>, after: Jar, now: int)
    requires i < |rs| && RecordKey(rs[i]) !in keys && KeyOf(c) == RecordKey(rs[i]) && ToRecord(c) == rs[i]
    requires Expired(c, now) <==> !Ahead(rs[i], now)
    requires Disjoint(rs, i + 1, keys + {RecordKey(rs[i])}) && SameElsewhere(Put(jar, c, now), after, rs, i + 1)
    requires AllImported(after, rs, i + 1, now)
    ensures Disjoint(rs, i, keys) && SameElsewhere(jar, after, rs, i) && AllImported(after, rs, i, now)
  {
    var key := RecordKey(rs[i]);
    assert forall x :: i + 1 <= x < |rs| ==> RecordKey(rs[x]) != key;
    assert Imported(after, rs[i], now);
    forall k | forall x :: i <= x < |rs| ==> RecordKey(rs[x]) != k
      ensures (k in after <==> k in jar) && (k in after ==> after[k] == jar[k])
    {
      assert RecordKey(rs[i]) != k;
    }
  }

  lemma {:induction false} RestoreAllMeans(cx: Context, jar: Jar, rs: seq<Record>, i: nat, keys: set<Key>, bytes: nat,
                                           now: int)
    requires i <= |rs| && RestoreAll(cx, jar, rs, i, keys, bytes, now).Ok?
    ensures Disjoint(rs, i, keys)
    ensures SameElsewhere(jar, RestoreAll(cx, jar, rs, i, keys, bytes, now).value, rs, i)
    ensures AllImported(RestoreAll(cx, jar, rs, i, keys, bytes, now).value, rs, i, now)
    decreases |rs| - i
  {
    if i < |rs| {
      var r, total := rs[i], bytes + RecordSize(rs[i]);
      var c := Restore(cx, jar, r, now).value;
      var next, more := Put(jar, c, now), keys + {RecordKey(r)};
      RestoreAllTurn(cx, jar, rs, i, keys, bytes, now, next, total);
      RestoreYields(cx, jar, r, now);
      RestoreAllMeans(cx, next, rs, i + 1, more, total, now);
      ImportedFirst(jar, c, rs, i, keys, RestoreAll(cx, next, rs, i + 1, more, total, now).value, now);
    }
  }

  /**
   What an accepted import means, whoever wrote the snapshot: it is for this site, within the number
   of cookies, without two records of one key, and the jar holds exactly its records, unchanged,
   except those that have expired.
   */
  lemma ImportMeans(cx: Context, snapshot: Snapshot, now: int, k: Key)
    requires Import(cx, snapshot, now).Ok?
    ensures snapshot.site == cx.site && |snapshot.cookies| <= cx.limits.cookies
    ensures Disjoint(snapshot.cookies, 0, {})
    ensures AllImported(Import(cx, snapshot, now).value, snapshot.cookies, 0, now)
    ensures k in Import(cx, snapshot, now).value ==>
              exists x :: 0 <= x < |snapshot.cookies| && RecordKey(snapshot.cookies[x]) == k
  {
    RestoreAllMeans(cx, map[], snapshot.cookies, 0, {}, 0, now);
  }

  // ----- a jar that does not come back -----

  /** One origin, and a parser for one cookie without attributes. */
  function Plain(hosts: Hosts): Context {
    var raw := Raw("a", "1", None, None, false, false, false, None, None);
    Context(hosts, (text: string, now: int) => Some(raw), (d: string) => Some(d),
            [Url(true, "h", "/")], "https://h", Limits(1, 200, 200))
  }

  const STORED: Cookie := Cookie("a", "1", HostOnly("h"), "/x;y", false, false, false, None, None)

  lemma DefaultPathKeepsSemicolon()
    ensures DefaultPath("/x;y/z") == "/x;y"
  {
    assert "/x;y/z"[4] == '/' && forall j :: 4 < j < 6 ==> "/x;y/z"[j] != '/';
    assert LastSlash("/x;y/z") == 4;
    assert "/x;y/z"[..4] == "/x;y";
  }

  lemma PlainAdmits(hosts: Hosts, jar: Jar, now: int)
    ensures Admit(Plain(hosts), jar, Url(true, "h", "/x;y/z"), "a=1", now) == Some(STORED)
  {
    DefaultPathKeepsSemicolon();
    assert STORED.path[0] == '/';
  }

  lemma OneFits(hosts: Hosts, jar: Jar)
    requires jar == map[KeyOf(STORED) := STORED]
    ensures Fits(Plain(hosts).limits, jar)
  {
    var k := KeyOf(STORED);
    TotalWithout(jar, k);
    assert jar - {k} == map[] && Sizes(map[]) == map[];
  }

  lemma PlainStores(hosts: Hosts, now: int)
    ensures Apply(Plain(hosts), map[], Url(true, "h", "/x;y/z"), ["a=1"], false, now)
              == Ok(map[KeyOf(STORED) := STORED])
  {
    var jar: Jar := map[KeyOf(STORED) := STORED];
    assert Live(map[], now) == map[] && Live(jar, now) == jar;
    PlainAdmits(hosts, map[], now);
    assert Put(map[], STORED, now) == jar;
    assert Ingest(Plain(hosts), jar, Url(true, "h", "/x;y/z"), ["a=1"], 1, 3, false, now) == Ok(jar);
    OneFits(hosts, jar);
  }

  lemma PlainExports(now: int)
    ensures Export([STORED], now) == [ToRecord(STORED)]
  {
    assert LiveOf([STORED], now) == [STORED];
    assert Sort(ExportLess, [STORED]) == [STORED];
  }

  lemma PlainRefuses(hosts: Hosts, now: int)
    ensures Import(Plain(hosts), Snapshot("https://h", [ToRecord(STORED)]), now) == Invalid
  {
    assert ToRecord(STORED).path[2] == ';';
  }

  /** A cookie whose default path holds a semicolon is stored, exported, and refused by the import of that export. */
  lemma SemicolonDoesNotComeBack(hosts: Hosts, now: int) returns (jar: Jar)
    ensures Apply(Plain(hosts), map[], Url(true, "h", "/x;y/z"), ["a=1"], false, now) == Ok(jar)
    ensures Lists(jar, [STORED]) && Import(Plain(hosts), Snapshot("https://h", Export([STORED], now)), now) == Invalid
  {
    jar := map[KeyOf(STORED) := STORED];
    PlainStores(hosts, now);
    PlainExports(now);
    PlainRefuses(hosts, now);
  }
}
