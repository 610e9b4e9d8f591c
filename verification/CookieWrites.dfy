/**
 What applying Set-Cookie texts does to a managed jar (src/contexts/cookies.rs), told by looking keys
 up: under every key stands the cookie admitted last, unless it had expired, and otherwise what was
 there before; and exactly which calls are refused.
 */
module CookieWrites {
  import opened Wrappers
  import opened Collections
  import opened Cookies
  import opened CookieJar

  /** The last admitted cookie with a key; `outs` holds one entry per text, none where it was refused. */
  function LastOf(outs: seq<Option<Cookie>>, k: Key): Option<Cookie> {
    if outs == [] then None
    else
      var last := outs[|outs| - 1];
      if last.Some? && KeyOf(last.value) == k then last else LastOf(outs[..|outs| - 1], k)
  }

  /** What a jar holds under `k` after `outs` was admitted over `before`. */
  ghost predicate LooksUp(before: Jar, outs: seq<Option<Cookie>>, now: int, jar: Jar, k: Key) {
    match LastOf(outs, k)
    case None => (k in jar <==> k in before) && (k in jar ==> jar[k] == before[k])
    case Some(c) => if Expired(c, now) then k !in jar else k in jar && jar[k] == c
  }

  ghost predicate Written(before: Jar, outs: seq<Option<Cookie>>, now: int, jar: Jar) {
    forall k :: LooksUp(before, outs, now, jar, k)
  }

  // ----- the jar is determined by the lookups -----

  ghost function OutKeys(outs: seq<Option<Cookie>>): set<Key> {
    set o | o in outs && o.Some? :: KeyOf(o.value)
  }

  ghost predicate Stays(before: Jar, outs: seq<Option<Cookie>>, now: int, k: Key) {
    match LastOf(outs, k)
    case None => k in before
    case Some(c) => !Expired(c, now)
  }

  ghost function Merge(before: Jar, outs: seq<Option<Cookie>>, now: int): Jar {
    map k | k in before.Keys + OutKeys(outs) && Stays(before, outs, now, k) ::
      if LastOf(outs, k).Some? then LastOf(outs, k).value else before[k]
  }

  lemma {:induction false} LastOfKey(outs: seq<Option<Cookie>>, k: Key)
    ensures LastOf(outs, k).Some? ==> KeyOf(LastOf(outs, k).value) == k && k in OutKeys(outs)
    decreases |outs|
  {
    if outs != [] {
      var init, last := outs[..|outs| - 1], outs[|outs| - 1];
      assert outs == init + [last] && last in outs;
      LastOfKey(init, k);
    }
  }

  lemma MergeIsWritten(before: Jar, outs: seq<Option<Cookie>>, now: int)
    ensures Written(before, outs, now, Merge(before, outs, now))
  {
    forall k ensures LooksUp(before, outs, now, Merge(before, outs, now), k) { LastOfKey(outs, k); }
  }

  lemma WrittenUnique(before: Jar, outs: seq<Option<Cookie>>, now: int, a: Jar, b: Jar)
    requires Written(before, outs, now, a) && Written(before, outs, now, b)
    ensures a == b
  {
    forall k ensures (k in a <==> k in b) && (k in a ==> a[k] == b[k]) {
      assert LooksUp(before, outs, now, a, k) && LooksUp(before, outs, now, b, k);
    }
  }

  lemma LastOfSnoc(outs: seq<Option<Cookie>>, o: Option<Cookie>, k: Key)
    ensures LastOf(outs + [o], k) == if o.Some? && KeyOf(o.value) == k then o else LastOf(outs, k)
  {
    assert (outs + [o])[..|outs + [o]| - 1] == outs;
  }

  /** One admitted cookie: stored if it is live, and deleting its predecessor if it is not. */
  lemma PutIsWritten(before: Jar, outs: seq<Option<Cookie>>, now: int, jar: Jar, o: Option<Cookie>)
    requires Written(before, outs, now, jar)
    ensures Written(before, outs + [o], now, if o.Some? then Put(jar, o.value, now) else jar)
  {
    var next := if o.Some? then Put(jar, o.value, now) else jar;
    forall k ensures LooksUp(before, outs + [o], now, next, k) {
      assert LooksUp(before, outs, now, jar, k);
      LastOfSnoc(outs, o, k);
    }
  }

  lemma MergeStep(before: Jar, outs: seq<Option<Cookie>>, now: int, o: Option<Cookie>)
    ensures Merge(before, outs + [o], now)
         == if o.Some? then Put(Merge(before, outs, now), o.value, now) else Merge(before, outs, now)
  {
    MergeIsWritten(before, outs, now);
    PutIsWritten(before, outs, now, Merge(before, outs, now), o);
    MergeIsWritten(before, outs + [o], now);
    var next := if o.Some? then Put(Merge(before, outs, now), o.value, now) else Merge(before, outs, now);
    WrittenUnique(before, outs + [o], now, Merge(before, outs + [o], now), next);
  }

  lemma MergeNothing(before: Jar, now: int)
    ensures Merge(before, [], now) == before
  {
  }

  // ----- what the texts come to -----

  /** The judgement of a text after `outs`: against the jar that the earlier texts left. */
  ghost function Judged(cx: Context, before: Jar, url: Url, outs: seq<Option<Cookie>>, text: string, now: int)
    : Option<Cookie>
  {
    Admit(cx, Merge(before, outs, now), url, text, now)
  }

  /** The outcomes of the first `i` texts. */
  ghost function Outs(cx: Context, before: Jar, url: Url, texts: seq<string>, i: nat, now: int)
    : (outs: seq<Option<Cookie>>)
    requires i <= |texts|
    ensures |outs| == i
  {
    if i == 0 then []
    else
      var outs := Outs(cx, before, url, texts, i - 1, now);
      outs + [Judged(cx, before, url, outs, texts[i - 1], now)]
  }

  lemma {:induction false} OutsPrefix(cx: Context, before: Jar, url: Url, texts: seq<string>, i: nat, n: nat, now: int)
    requires i <= n <= |texts|
    ensures Outs(cx, before, url, texts, i, now) == Outs(cx, before, url, texts, n, now)[..i]
    decreases n
  {
    if i < n {
      OutsPrefix(cx, before, url, texts, i, n - 1, now);
      PrefixSnoc(Outs(cx, before, url, texts, n - 1, now), Outs(cx, before, url, texts, n, now), i);
    }
  }

  lemma PrefixSnoc(a: seq<Option<Cookie>>, b: seq<Option<Cookie>>, i: nat)
    requires i <= |a| < |b| && b[..|a|] == a
    ensures b[..i] == a[..i]
  {
    assert b[..i] == b[..|a|][..i];
  }

  function TextBytes(texts: seq<string>, i: nat): nat
    requires i <= |texts|
  {
    if i == 0 then 0 else TextBytes(texts, i - 1) + |texts[i - 1]|
  }

  /** Text number `i` stays within the limits on number, size and bytes so far. */
  predicate Bounded(lim: Limits, texts: seq<string>, i: nat)
    requires i < |texts|
  {
    i < lim.cookies && |texts[i]| <= lim.size && TextBytes(texts, i + 1) <= lim.bytes
  }

  /** Text number `i` is within the limits and does not stop the call. */
  predicate Passes(lim: Limits, texts: seq<string>, outs: seq<Option<Cookie>>, lenient: bool, i: nat)
    requires i < |texts| == |outs|
  {
    Bounded(lim, texts, i) && (lenient || outs[i].Some?)
  }

  /** Text number `i` is the first that does not pass, and it is a refused one. */
  ghost predicate StopsAt(lim: Limits, texts: seq<string>, outs: seq<Option<Cookie>>, lenient: bool, from: nat, i: nat)
    requires from <= i < |texts| == |outs|
  {
    && (forall j :: from <= j < i ==> Passes(lim, texts, outs, lenient, j))
    && Bounded(lim, texts, i) && !lenient && outs[i].None?
  }

  ghost predicate AllPass(lim: Limits, texts: seq<string>, outs: seq<Option<Cookie>>, lenient: bool, from: nat)
    requires |texts| == |outs|
  {
    forall j :: from <= j < |texts| ==> Passes(lim, texts, outs, lenient, j)
  }

  ghost predicate Refuses(lim: Limits, texts: seq<string>, outs: seq<Option<Cookie>>, lenient: bool, from: nat)
    requires |texts| == |outs|
  {
    exists i :: from <= i < |texts| && StopsAt(lim, texts, outs, lenient, from, i)
  }

  lemma RefusesStep(lim: Limits, texts: seq<string>, outs: seq<Option<Cookie>>, lenient: bool, from: nat)
    requires |texts| == |outs| && from < |texts|
    ensures Refuses(lim, texts, outs, lenient, from) <==>
            StopsAt(lim, texts, outs, lenient, from, from)
            || (Passes(lim, texts, outs, lenient, from) && Refuses(lim, texts, outs, lenient, from + 1))
  {
    if Refuses(lim, texts, outs, lenient, from) {
      var i :| from <= i < |texts| && StopsAt(lim, texts, outs, lenient, from, i);
      if i > from { assert StopsAt(lim, texts, outs, lenient, from + 1, i); }
    }
    if Passes(lim, texts, outs, lenient, from) && Refuses(lim, texts, outs, lenient, from + 1) {
      var i :| from + 1 <= i < |texts| && StopsAt(lim, texts, outs, lenient, from + 1, i);
      assert StopsAt(lim, texts, outs, lenient, from, i);
    }
  }

  /** The candidate loop from text `i` on, in terms of the outcomes of all texts. */
  ghost predicate Ingested(lim: Limits, texts: seq<string>, outs: seq<Option<Cookie>>, lenient: bool, from: nat,
                           r: Result<Jar>, final: Jar)
    requires |texts| == |outs|
  {
    && (r.Ok? <==> AllPass(lim, texts, outs, lenient, from))
    && (r.Ok? ==> r.value == final)
    && (r.Invalid? <==> Refuses(lim, texts, outs, lenient, from))
  }

  lemma {:induction false} IngestMeans(cx: Context, before: Jar, url: Url, texts: seq<string>, i: nat, lenient: bool,
                                       now: int, here: Jar, outs: seq<Option<Cookie>>, final: Jar)
    requires i <= |texts| && here == Merge(before, Outs(cx, before, url, texts, i, now), now)
    requires outs == Outs(cx, before, url, texts, |texts|, now) && final == Merge(before, outs, now)
    ensures Ingested(cx.limits, texts, outs, lenient, i,
                     Ingest(cx, here, url, texts, i, TextBytes(texts, i), lenient, now), final)
    decreases |texts| - i
  {
    if i < |texts| {
      var some := Outs(cx, before, url, texts, i, now);
      var o := OutsAt(cx, before, url, texts, i, now);
      MergeStep(before, some, now, o);
      var next := if o.Some? then Put(here, o.value, now) else here;
      IngestMeans(cx, before, url, texts, i + 1, lenient, now, next, outs, final);
      IngestedStep(cx, texts, outs, lenient, i, here, next, url, now, final);
    }
  }

  lemma OutsAt(cx: Context, before: Jar, url: Url, texts: seq<string>, i: nat, now: int) returns (o: Option<Cookie>)
    requires i < |texts|
    ensures o == Admit(cx, Merge(before, Outs(cx, before, url, texts, i, now), now), url, texts[i], now)
    ensures o == Outs(cx, before, url, texts, |texts|, now)[i]
    ensures Outs(cx, before, url, texts, i + 1, now) == Outs(cx, before, url, texts, i, now) + [o]
  {
    var some := Outs(cx, before, url, texts, i, now);
    o := Judged(cx, before, url, some, texts[i], now);
    OutsPrefix(cx, before, url, texts, i + 1, |texts|, now);
    assert (some + [o])[i] == o;
  }

  lemma IngestedStep(cx: Context, texts: seq<string>, outs: seq<Option<Cookie>>, lenient: bool, i: nat, here: Jar,
                     next: Jar, url: Url, now: int, final: Jar)
    requires i < |texts| == |outs| && outs[i] == Admit(cx, here, url, texts[i], now)
    requires next == if outs[i].Some? then Put(here, outs[i].value, now) else here
    requires Ingested(cx.limits, texts, outs, lenient, i + 1,
                      Ingest(cx, next, url, texts, i + 1, TextBytes(texts, i + 1), lenient, now), final)
    ensures Ingested(cx.limits, texts, outs, lenient, i,
                     Ingest(cx, here, url, texts, i, TextBytes(texts, i), lenient, now), final)
  {
    RefusesStep(cx.limits, texts, outs, lenient, i);
    assert AllPass(cx.limits, texts, outs, lenient, i) <==>
           Passes(cx.limits, texts, outs, lenient, i) && AllPass(cx.limits, texts, outs, lenient, i + 1);
  }

  lemma MergeLive(before: Jar, outs: seq<Option<Cookie>>, now: int)
    requires AllLive(before, now)
    ensures AllLive(Merge(before, outs, now), now)
  {
    MergeIsWritten(before, outs, now);
    var jar := Merge(before, outs, now);
    forall k | k in jar ensures !Expired(jar[k], now) { assert LooksUp(before, outs, now, jar, k); }
  }

  /**
   Applying texts, exactly.  The call succeeds if and only if every text is within the limits, in
   strict mode none is refused, and the resulting jar fits; then under every key stands the cookie
   admitted last, deleted if it had expired, and otherwise the live cookie that was there.  It is
   invalid if and only if, in strict mode, a text is refused before any limit is passed.
   */
  lemma ApplyMeans(cx: Context, jar: Jar, url: Url, texts: seq<string>, lenient: bool, now: int)
    returns (outs: seq<Option<Cookie>>)
    requires texts != []
    ensures outs == Outs(cx, Live(jar, now), url, texts, |texts|, now) && |outs| == |texts|
    ensures var r := Apply(cx, jar, url, texts, lenient, now);
            && (r.Ok? <==> AllPass(cx.limits, texts, outs, lenient, 0)
                           && Fits(cx.limits, Merge(Live(jar, now), outs, now)))
            && (r.Ok? ==> Written(Live(jar, now), outs, now, r.value))
            && (r.Invalid? <==> Refuses(cx.limits, texts, outs, lenient, 0))
  {
    var before := Live(jar, now);
    outs := Outs(cx, before, url, texts, |texts|, now);
    MergeNothing(before, now);
    IngestMeans(cx, before, url, texts, 0, lenient, now, before, outs, Merge(before, outs, now));
    MergeIsWritten(before, outs, now);
    MergeLive(before, outs, now);
    LiveAll(Merge(before, outs, now), now);
  }

  // ----- secure cookies and plain HTTP -----

  /** Over plain HTTP no text is admitted under the key of a live secure cookie. */
  lemma HttpCannotTouch(cx: Context, jar: Jar, url: Url, text: string, now: int, k: Key)
    requires Proper(cx) && !url.https && k in jar && KeyOf(jar[k]) == k && jar[k].secure && !Expired(jar[k], now)
    ensures Admit(cx, jar, url, text, now).Some? ==> KeyOf(Admit(cx, jar, url, text, now).value) != k
  {
    if Admit(cx, jar, url, text, now).Some? {
      var raw := cx.parse(text, now).value;
      CanonicalIsSame(cx, raw, url);
      assert !Shadows(jar, k, FromRaw(cx, raw, url).value, now);
    }
  }

  lemma {:induction false} HttpNeverTouches(cx: Context, before: Jar, url: Url, texts: seq<string>, i: nat, now: int,
                                            k: Key)
    requires Proper(cx) && !url.https && i <= |texts|
    requires k in before && KeyOf(before[k]) == k && before[k].secure && !Expired(before[k], now)
    ensures LastOf(Outs(cx, before, url, texts, i, now), k).None?
  {
    if i > 0 {
      HttpNeverTouches(cx, before, url, texts, i - 1, now, k);
      var outs := Outs(cx, before, url, texts, i - 1, now);
      MergeIsWritten(before, outs, now);
      assert LooksUp(before, outs, now, Merge(before, outs, now), k);
      HttpCannotTouch(cx, Merge(before, outs, now), url, texts[i - 1], now, k);
      LastOfSnoc(outs, Judged(cx, before, url, outs, texts[i - 1], now), k);
    }
  }

  /** No response or command over plain HTTP replaces or deletes a live secure cookie. */
  lemma SecureSurvivesHttp(cx: Context, jar: Jar, url: Url, texts: seq<string>, lenient: bool, now: int, k: Key)
    requires Proper(cx) && Keyed(jar) && !url.https && Apply(cx, jar, url, texts, lenient, now).Ok?
    requires k in jar && jar[k].secure && !Expired(jar[k], now)
    ensures var r := Apply(cx, jar, url, texts, lenient, now).value; k in r && r[k] == jar[k]
  {
    if texts != [] {
      var outs := ApplyMeans(cx, jar, url, texts, lenient, now);
      HttpNeverTouches(cx, Live(jar, now), url, texts, |texts|, now, k);
      assert LooksUp(Live(jar, now), outs, now, Apply(cx, jar, url, texts, lenient, now).value, k);
    }
  }

  // ----- records an import accepts -----

  /** The shape test of an import, in words: an absolute path of plain characters, a domain without dots at its ends. */
  lemma ShapeMeans(r: Record)
    ensures RecordShapeOk(r) <==>
            && "/" <= r.path && Lacks(r.path, ';')
            && (forall i :: 0 <= i < |r.path| ==> r.path[i] as int >= 32 && r.path[i] as int != 127)
            && r.domain != "" && !("." <= r.domain) && r.domain[|r.domain| - 1] != '.'
  {
    if r.path != "" { assert r.path[..1] == [r.path[0]]; }
    if r.domain != "" { assert r.domain[..1] == [r.domain[0]]; }
  }

  // ----- the header can be read back -----

  predicate Lacks(s: string, c: char) {
    forall i :: 0 <= i < |s| ==> s[i] != c
  }

  lemma PairLacks(name: string, value: string)
    requires PairOk(name, value)
    ensures Lacks(name, ';') && Lacks(name, '=') && Lacks(value, ';')
  {
    assert forall c :: c in "!#$%&'*+-.^_`|~" ==> c != ';' && c != '=';
    forall i | 0 <= i < |value| ensures value[i] != ';' {
      if Unquoted(value) != value && 0 < i < |value| - 1 { assert Unquoted(value)[i - 1] == value[i]; }
    }
  }

  lemma SplitAtFirst(n: string, v: string, m: string, w: string)
    requires Lacks(n, '=') && Lacks(m, '=') && n + "=" + v == m + "=" + w
    ensures n == m && v == w
  {
    var s := n + "=" + v;
    assert s[|n|] == '=' && s[|m|] == '=' && s[..|n|] == n && s[..|m|] == m;
    assert s[|n| + 1..] == v && s[|m| + 1..] == w;
  }

  lemma SplitAtLast(p: string, l: string, q: string, k: string)
    requires Lacks(l, ';') && Lacks(k, ';') && p + "; " + l == q + "; " + k
    ensures p == q && l == k
  {
    var s := p + "; " + l;
    assert s[|p|] == ';' && s[|q|] == ';' && s[|p| + 1] == ' ' && s[|q| + 1] == ' ';
    assert s[|p| + 2..] == l && s[|q| + 2..] == k && s[..|p|] == p && s[..|q|] == q;
  }

  function Pair(r: Record): string {
    r.name + "=" + r.value
  }

  lemma PairShape(r: Record)
    requires PairOk(r.name, r.value)
    ensures Lacks(Pair(r), ';') && Pair(r) != "" && !Lacks(Pair(r), '=')
  {
    PairLacks(r.name, r.value);
    assert Pair(r)[|r.name|] == '=';
  }

  lemma RenderShape(rs: seq<Record>)
    requires rs != []
    ensures var n := |rs| - 1;
            Render(rs) == if n == 0 then Pair(rs[0]) else Render(rs[..n]) + "; " + Pair(rs[n])
  {
    var n := |rs| - 1;
    if n > 0 { Regroup(Render(rs[..n]) + "; ", rs[n].name, rs[n].value); }
  }

  lemma Regroup(a: string, b: string, c: string)
    ensures a + b + "=" + c == a + (b + "=" + c)
  {
  }

  /** The request header determines the cookies it was made of, in order: no pair can be taken for two. */
  lemma {:induction false} HeaderDetermines(rs: seq<Record>, qs: seq<Record>)
    requires forall i :: 0 <= i < |rs| ==> PairOk(rs[i].name, rs[i].value)
    requires forall i :: 0 <= i < |qs| ==> PairOk(qs[i].name, qs[i].value)
    requires Render(rs) == Render(qs)
    ensures |rs| == |qs| && forall i :: 0 <= i < |rs| ==> rs[i].name == qs[i].name && rs[i].value == qs[i].value
    decreases |rs|
  {
    if rs == [] || qs == [] {
      if rs != [] { RenderIsText(rs); }
      if qs != [] { RenderIsText(qs); }
    } else {
      var m, n := |rs| - 1, |qs| - 1;
      RenderShape(rs);
      RenderShape(qs);
      PairShape(rs[m]);
      PairShape(qs[n]);
      if m > 0 && n > 0 {
        SplitAtLast(Render(rs[..m]), Pair(rs[m]), Render(qs[..n]), Pair(qs[n]));
        HeaderDetermines(rs[..m], qs[..n]);
      } else {
        OneOrMany(rs, qs);
      }
      PairLacks(rs[m].name, rs[m].value);
      PairLacks(qs[n].name, qs[n].value);
      SplitAtFirst(rs[m].name, rs[m].value, qs[n].name, qs[n].value);
    }
  }

  lemma RenderIsText(rs: seq<Record>)
    requires rs != []
    ensures Render(rs) != ""
  {
    RenderShape(rs);
    assert |Pair(rs[|rs| - 1])| > 0;
  }

  /** One pair holds no separator, and more than one do. */
  lemma OneOrMany(rs: seq<Record>, qs: seq<Record>)
    requires rs != [] && qs != [] && (|rs| == 1 || |qs| == 1) && Render(rs) == Render(qs)
    requires |rs| == 1 ==> Lacks(Pair(rs[0]), ';')
    requires |qs| == 1 ==> Lacks(Pair(qs[0]), ';')
    ensures |rs| == |qs| == 1 && Pair(rs[0]) == Pair(qs[0])
  {
    RenderShape(rs);
    RenderShape(qs);
    SeparatorsShow(rs);
    SeparatorsShow(qs);
  }

  lemma SeparatorsShow(rs: seq<Record>)
    ensures |rs| > 1 ==> !Lacks(Render(rs), ';')
  {
    if |rs| > 1 {
      RenderShape(rs);
      assert Render(rs)[|Render(rs[..|rs| - 1])|] == ';';
    }
  }
}
