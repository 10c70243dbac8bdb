/** The flyweight map icons: `LocationFactory` creates one `LocationIcon`
    per location type on first request and hands out that same icon on
    every later request. */
module Flyweight {
  import opened Strings

  datatype LocationIcon = LocationIcon(locationType: string, iconImage: string)

  /** The factory's cache, keyed by the type exactly as requested. */
  type Cache = map<string, LocationIcon>

  /** The image name built for a type: lower-cased inside a fixed pattern. */
  function ImageFor(locationType: string): string {
    "imagen_de_" + ToLower(locationType) + ".png"
  }

  /** Every cached icon was built for its own key. */
  predicate WellFormed(cache: Cache) {
    forall k :: k in cache ==> cache[k] == LocationIcon(k, ImageFor(k))
  }

  /** `getLocationIcon`: the cached icon for the type, creating and caching
      it first if the type is new. Only that one key may be added, and no
      existing entry changes. */
  function GetLocationIcon(cache: Cache, locationType: string): (r: (Cache, LocationIcon))
    ensures locationType in cache ==> r.0 == cache && r.1 == cache[locationType]
    ensures locationType !in cache ==> r.1 == LocationIcon(locationType, ImageFor(locationType))
    ensures WellFormed(cache) ==> r.1 == LocationIcon(locationType, ImageFor(locationType))
    ensures r.0.Keys == cache.Keys + {locationType}
    ensures locationType in r.0 && r.0[locationType] == r.1
    ensures forall k :: k in cache ==> r.0[k] == cache[k]
    ensures WellFormed(cache) ==> WellFormed(r.0)
  {
    if locationType !in cache then
      var icon := LocationIcon(locationType, ImageFor(locationType));
      (cache[locationType := icon], icon)
    else (cache, cache[locationType])
  }

  /** Requesting a type a second time returns the same icon and leaves the
      cache as it was. */
  lemma RepeatedRequestShared(cache: Cache, locationType: string)
    ensures var first := GetLocationIcon(cache, locationType);
      GetLocationIcon(first.0, locationType) == first
  {
  }

  /** Keys are case-sensitive: two spellings of one type that differ only
      in case are two entries, holding different icons with the same image. */
  lemma CaseSensitiveKeys(a: string, b: string)
    requires a != b && ToLower(a) == ToLower(b)
    ensures var c1 := GetLocationIcon(map[], a);
      var c2 := GetLocationIcon(c1.0, b);
      && c2.0.Keys == {a, b}
      && c1.1 != c2.1
      && c1.1.iconImage == c2.1.iconImage
  {
  }

  /** 'Escuela' and 'escuela' are such a pair. */
  lemma EscuelaSpellings()
    ensures "Escuela" != "escuela"
    ensures ToLower("Escuela") == "escuela" && ToLower("escuela") == "escuela"
  {
    assert "Escuela"[0] != "escuela"[0];
  }

  /** The cache after serving a list of requests in order. */
  function RequestAll(cache: Cache, types: seq<string>): (r: Cache)
    ensures WellFormed(cache) ==> WellFormed(r)
    decreases |types|
  {
    if |types| == 0 then cache
    else RequestAll(GetLocationIcon(cache, types[0]).0, types[1..])
  }

  /** The cache only grows: afterwards it holds exactly the earlier keys plus
      the types requested, with earlier icons untouched. */
  lemma {:induction false} RequestAllKeys(cache: Cache, types: seq<string>)
    ensures RequestAll(cache, types).Keys == cache.Keys + set t | t in types
    ensures forall k :: k in cache ==> RequestAll(cache, types)[k] == cache[k]
    decreases |types|
  {
    if |types| > 0 {
      var next := GetLocationIcon(cache, types[0]).0;
      RequestAllKeys(next, types[1..]);
      assert (set t | t in types) == {types[0]} + set t | t in types[1..];
    }
  }

  /** Starting from an empty factory, the number of icons built equals the
      number of distinct types requested. */
  lemma IconCountIsDistinctTypes(types: seq<string>)
    ensures |RequestAll(map[], types)| == |set t | t in types|
  {
    RequestAllKeys(map[], types);
    assert RequestAll(map[], types).Keys == set t | t in types;
  }

  /** `n` requests for the same type. */
  function Repeat(t: string, n: nat): (r: seq<string>)
    ensures |r| == n
    ensures forall i :: 0 <= i < n ==> r[i] == t
  {
    seq(n, _ => t)
  }

  lemma RepeatTypes(t: string, n: nat)
    requires n > 0
    ensures (set x | x in Repeat(t, n)) == {t}
  {
    assert Repeat(t, n)[0] == t;
  }

  lemma ConcatTypes(a: seq<string>, b: seq<string>)
    ensures (set x | x in a + b) == (set x | x in a) + (set x | x in b)
  {
  }

  /** The demo's 23 locations, grouped as the demo lists them. */
  const DemoRequests: seq<string> :=
    Repeat("hospital", 3) + Repeat("parque", 7) + Repeat("hospital", 4) + Repeat("Escuela", 9)

  /** The demo requests three distinct types. */
  lemma DemoTypes()
    ensures (set t | t in DemoRequests) == {"hospital", "parque", "Escuela"}
  {
    var h, p, h2, e := Repeat("hospital", 3), Repeat("parque", 7), Repeat("hospital", 4), Repeat("Escuela", 9);
    RepeatTypes("hospital", 3);
    RepeatTypes("parque", 7);
    RepeatTypes("hospital", 4);
    RepeatTypes("Escuela", 9);
    ConcatTypes(h, p);
    ConcatTypes(h + p, h2);
    ConcatTypes(h + p + h2, e);
  }

  lemma DemoTypesDistinct()
    ensures |{"hospital", "parque", "Escuela"}| == 3
  {
    assert "hospital"[0] != "parque"[0];
    assert "parque"[0] != "Escuela"[0];
    assert "hospital"[0] != "Escuela"[0];
  }

  /** The demo: 23 locations served from 3 icons. */
  lemma DemoScenario()
    ensures |DemoRequests| == 23
    ensures |RequestAll(map[], DemoRequests)| == 3
  {
    IconCountIsDistinctTypes(DemoRequests);
    DemoTypes();
    DemoTypesDistinct();
  }
}
