// Coins and the integer ids orders name them by (src/epigone/gateway/__init__.py): the core
// universe, and builder venues at an offset from their place in the listing.
module AssetIds {
  import opened Wrappers

  const BUILDER_DEX_ASSET_BASE := 110_000
  const BUILDER_DEX_ASSET_STRIDE := 10_000

  datatype Asset = Asset(name: string, szDecimals: int)

  datatype AssetSpec = AssetSpec(id: int, szDecimals: int)

  /** What the two reads answer: the core universe, the builder venues in listing order, and
      each one's universe. */
  datatype Universe = Universe(core: seq<Asset>, listing: seq<string>, builders: string -> seq<Asset>)

  /** Where an asset sits: in the core universe, or in that listed venue's. */
  datatype Place = Core(index: nat) | Builder(venue: nat, index: nat)

  /** The id an asset's place gives it. */
  function Id(place: Place): (id: nat) {
    match place
    case Core(index) => index
    case Builder(venue, index) => 110_000 + venue * 10_000 + index
  }

  /** And back. */
  function PlaceOf(id: nat): Place {
    if id < 110_000 then Core(id) else Builder((id - 110_000) / 10_000, (id - 110_000) % 10_000)
  }

  /** Places the arithmetic has room for. */
  predicate Fits(place: Place) { place.index < if place.Core? then 110_000 else 10_000 }

  /** Every id is some fitting place's, and every fitting place is recovered from its id. */
  lemma PlaceRoundTrip(place: Place, id: nat)
    ensures Fits(place) ==> PlaceOf(Id(place)) == place
    ensures Fits(PlaceOf(id)) && Id(PlaceOf(id)) == id
  {
    if Fits(place) && place.Builder? {
      var n := place.venue * 10_000 + place.index;
      assert n / 10_000 == place.venue && n % 10_000 == place.index;
    }
  }

  function AssetAt(u: Universe, place: Place): Option<Asset> {
    match place
    case Core(index) => if index < |u.core| then Some(u.core[index]) else None
    case Builder(venue, index) =>
      if venue < |u.listing| && index < |u.builders(u.listing[venue])|
      then Some(u.builders(u.listing[venue])[index])
      else None
  }

  /** The room each universe keeps within. */
  ghost predicate Roomy(u: Universe) {
    |u.core| <= 110_000 && forall dex :: dex in u.listing ==> |u.builders(dex)| <= 10_000
  }

  /** A list's first place for a member. */
  function IndexOf(listing: seq<string>, dex: string): (k: nat)
    requires dex in listing
    ensures k < |listing| && listing[k] == dex && dex !in listing[..k]
  {
    if listing[0] == dex then 0 else 1 + IndexOf(listing[1..], dex)
  }

  /** A universe's assets written over a map, from an offset. */
  function Merged(specs: map<string, AssetSpec>, assets: seq<Asset>, offset: nat): map<string, AssetSpec> {
    if assets == [] then specs
    else
      var n := |assets| - 1;
      Merged(specs, assets[..n], offset)[assets[n].name := AssetSpec(offset + n, assets[n].szDecimals)]
  }

  /** A name repeated within a universe is its last asset's, and one already mapped is
      overwritten. */
  lemma {:induction false} LastAssetStands(specs: map<string, AssetSpec>, assets: seq<Asset>, offset: nat, i: nat)
    requires i < |assets| && forall j :: i < j < |assets| ==> assets[j].name != assets[i].name
    ensures assets[i].name in Merged(specs, assets, offset)
    ensures Merged(specs, assets, offset)[assets[i].name] == AssetSpec(offset + i, assets[i].szDecimals)
  {
    if i < |assets| - 1 { LastAssetStands(specs, assets[..|assets| - 1], offset, i); }
  }

  /** The whole map, or nothing when a wanted venue is not listed. */
  function Specs(u: Universe, wanted: seq<string>): Option<map<string, AssetSpec>> {
    if wanted == [] then Some(Merged(map[], u.core, 0))
    else
      var before, dex := Specs(u, wanted[..|wanted| - 1]), wanted[|wanted| - 1];
      if before.None? || dex !in u.listing then None
      else Some(Merged(before.value, u.builders(dex), Id(Builder(IndexOf(u.listing, dex), 0))))
  }

  lemma {:induction false} MissingVenueRaises(u: Universe, wanted: seq<string>)
    ensures Specs(u, wanted).None? <==> exists k :: 0 <= k < |wanted| && wanted[k] !in u.listing
  {
    if wanted != [] {
      var n := |wanted| - 1;
      MissingVenueRaises(u, wanted[..n]);
      if k :| 0 <= k < n && wanted[k] !in u.listing { assert wanted[..n][k] !in u.listing; }
    }
  }

  method AddUniverse(specs: map<string, AssetSpec>, assets: seq<Asset>, offset: nat)
      returns (merged: map<string, AssetSpec>)
    ensures merged == Merged(specs, assets, offset)
  {
    merged := specs;
    for index := 0 to |assets|
      invariant merged == Merged(specs, assets[..index], offset)
    {
      assert assets[..index + 1][..index] == assets[..index];
      merged := merged[assets[index].name := AssetSpec(offset + index, assets[index].szDecimals)];
    }
    assert assets[..|assets|] == assets;
  }

  method FetchAssetSpecs(u: Universe, wanted: seq<string>) returns (specs: Option<map<string, AssetSpec>>)
    ensures specs == Specs(u, wanted)
  {
    var found := AddUniverse(map[], u.core, 0);
    for k := 0 to |wanted|
      invariant Specs(u, wanted[..k]) == Some(found)
    {
      var dex := wanted[k];
      assert wanted[..k + 1][..k] == wanted[..k];
      if dex !in u.listing {
        MissingVenueRaises(u, wanted);
        return None;
      }
      var offset := BUILDER_DEX_ASSET_BASE + IndexOf(u.listing, dex) * BUILDER_DEX_ASSET_STRIDE;
      found := AddUniverse(found, u.builders(dex), offset);
    }
    assert wanted[..|wanted|] == wanted;
    specs := Some(found);
  }

  // ---------------------------------------------------------------------------
  // Ids and coins
  // ---------------------------------------------------------------------------

  /** The coin is the asset its own id points at, precision included. */
  predicate PointsBack(u: Universe, coin: string, spec: AssetSpec) {
    spec.id >= 0 && AssetAt(u, PlaceOf(spec.id)) == Some(Asset(coin, spec.szDecimals))
  }

  ghost predicate AllPointBack(u: Universe, specs: map<string, AssetSpec>) {
    forall coin :: coin in specs ==> PointsBack(u, coin, specs[coin])
  }

  lemma {:induction false} MergeKeepsPointing(u: Universe, specs: map<string, AssetSpec>, assets: seq<Asset>,
      offset: nat)
    requires AllPointBack(u, specs)
    requires forall i :: 0 <= i < |assets| ==> AssetAt(u, PlaceOf(offset + i)) == Some(assets[i])
    ensures AllPointBack(u, Merged(specs, assets, offset))
    ensures forall coin :: coin in Merged(specs, assets, offset) <==>
        coin in specs || exists i :: 0 <= i < |assets| && assets[i].name == coin
  {
    if assets != [] {
      var n := |assets| - 1;
      MergeKeepsPointing(u, specs, assets[..n], offset);
      forall coin
        ensures coin in Merged(specs, assets, offset) <==>
            coin in specs || exists i :: 0 <= i < |assets| && assets[i].name == coin
      {
        if i :| 0 <= i < n && assets[i].name == coin { assert assets[..n][i].name == coin; }
      }
    }
  }

  /** Every coin of the core universe and of each wanted venue is mapped. */
  ghost predicate Covered(u: Universe, wanted: seq<string>, specs: map<string, AssetSpec>) {
    && (forall i :: 0 <= i < |u.core| ==> u.core[i].name in specs)
    && (forall k, i :: 0 <= k < |wanted| && 0 <= i < |u.builders(wanted[k])| ==> u.builders(wanted[k])[i].name in specs)
  }

  lemma {:induction false} SpecsPointBack(u: Universe, wanted: seq<string>)
    requires Roomy(u)
    ensures Specs(u, wanted).Some? ==>
        AllPointBack(u, Specs(u, wanted).value) && Covered(u, wanted, Specs(u, wanted).value)
  {
    if wanted == [] {
      MergeKeepsPointing(u, map[], u.core, 0);
    } else if Specs(u, wanted).Some? {
      var n := |wanted| - 1;
      var dex := wanted[n];
      var venue := IndexOf(u.listing, dex);
      SpecsPointBack(u, wanted[..n]);
      VenueSits(u, dex, venue);
      MergeKeepsPointing(u, Specs(u, wanted[..n]).value, u.builders(dex), Id(Builder(venue, 0)));
      CoveredGrows(u, wanted, Specs(u, wanted[..n]).value, Specs(u, wanted).value);
    }
  }

  lemma VenueSits(u: Universe, dex: string, venue: nat)
    requires Roomy(u) && venue < |u.listing| && u.listing[venue] == dex
    ensures forall i :: 0 <= i < |u.builders(dex)| ==>
        AssetAt(u, PlaceOf(Id(Builder(venue, 0)) + i)) == Some(u.builders(dex)[i])
  {
    forall i | 0 <= i < |u.builders(dex)|
      ensures AssetAt(u, PlaceOf(Id(Builder(venue, 0)) + i)) == Some(u.builders(dex)[i])
    {
      PlaceRoundTrip(Builder(venue, i), 0);
    }
  }

  lemma CoveredGrows(u: Universe, wanted: seq<string>, before: map<string, AssetSpec>, after: map<string, AssetSpec>)
    requires wanted != [] && Covered(u, wanted[..|wanted| - 1], before) && before.Keys <= after.Keys
    requires var last := u.builders(wanted[|wanted| - 1]); forall i :: 0 <= i < |last| ==> last[i].name in after
    ensures Covered(u, wanted, after)
  {
    var n := |wanted| - 1;
    forall k, i | 0 <= k < |wanted| && 0 <= i < |u.builders(wanted[k])|
      ensures u.builders(wanted[k])[i].name in after
    {
      if k < n { assert wanted[..n][k] == wanted[k]; }
    }
  }

  /** Within the arithmetic's room an id names one coin: whatever was mapped, in any order
      and with any names repeated, distinct coins have distinct ids, and a coin's venue and
      index are recovered from its id. */
  lemma IdsNameOneCoin(u: Universe, wanted: seq<string>, a: string, b: string)
    requires Roomy(u) && Specs(u, wanted).Some?
    requires a in Specs(u, wanted).value && b in Specs(u, wanted).value
    ensures var specs := Specs(u, wanted).value;
            && PointsBack(u, a, specs[a])
            && (specs[a].id == specs[b].id ==> a == b)
  {
    SpecsPointBack(u, wanted);
  }

  /** No two places of the covered universes carry one name. */
  ghost predicate DistinctNames(u: Universe) {
    forall p, q :: AssetAt(u, p).Some? && AssetAt(u, q).Some? ==>
      AssetAt(u, p).value.name == AssetAt(u, q).value.name ==> p == q
  }

  /** And with distinct namespaced coins every asset gets the id of its own place. */
  lemma EveryAssetHasItsOwnId(u: Universe, wanted: seq<string>, place: Place)
    requires Roomy(u) && DistinctNames(u) && Specs(u, wanted).Some? && AssetAt(u, place).Some?
    requires place.Builder? ==> u.listing[place.venue] in wanted
    ensures var coin := AssetAt(u, place).value.name;
            var id := if place.Core? then place.index else 110_000 + 10_000 * place.venue + place.index;
            coin in Specs(u, wanted).value
                && Specs(u, wanted).value[coin] == AssetSpec(id, AssetAt(u, place).value.szDecimals)
  {
    SpecsPointBack(u, wanted);
    var specs, coin := Specs(u, wanted).value, AssetAt(u, place).value.name;
    assert coin in specs by {
      if place.Builder? {
        var k :| 0 <= k < |wanted| && wanted[k] == u.listing[place.venue];
        assert u.builders(wanted[k])[place.index].name in specs;
      }
    }
    assert PointsBack(u, coin, specs[coin]);
    PlaceRoundTrip(place, specs[coin].id);
  }

  /** The room is needed exactly: two listed venues share an id if and only if the earlier
      one's universe reaches past the strides between them. */
  lemma VenuesCollideIffTooLarge(p: nat, q: nat, earlier: nat, later: nat)
    requires p < q && later > 0
    ensures (exists i: nat, j: nat :: i < earlier && j < later && Id(Builder(p, i)) == Id(Builder(q, j)))
            <==> earlier > (q - p) * 10_000
  {
    if earlier > (q - p) * 10_000 {
      assert Id(Builder(p, (q - p) * 10_000)) == Id(Builder(q, 0));
    }
  }
}
