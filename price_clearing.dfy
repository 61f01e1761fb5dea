/**
 * The map the `createPrices` compensation hands back to the price update:
 * the prepared handle-to-prices map with every price list emptied.
 */
module PriceClearing {

  import opened ProductTypes

  /** The map the compensation builds: each handle keeps its `index`, with no prices. */
  function ClearedPrices(m: PricesMap): (r: PricesMap)
    ensures r.Keys == m.Keys
  {
    map h | h in m :: IndexPrices(m[h].index, [])
  }

  /**
   * The compensation's loop: a new map filled by one `set` per entry of the
   * prepared map, in whatever order the entries are visited.
   */
  method BuildClearedPrices(m: PricesMap) returns (updated: PricesMap)
    ensures updated == ClearedPrices(m)
  {
    updated := map[];
    var pending := m.Keys;
    while pending != {}
      invariant pending <= m.Keys
      invariant updated.Keys == m.Keys - pending
      invariant forall h :: h in updated ==> updated[h] == IndexPrices(m[h].index, [])
      decreases pending
    {
      var h :| h in pending;
      updated := updated[h := IndexPrices(m[h].index, [])];
      pending := pending - {h};
    }
  }

  /**
   * What the cleared map is, stated independently of how it is built: the
   * same product handles, each with its original index and an empty price list.
   */
  lemma ClearedPricesCharacterized(m: PricesMap, r: PricesMap)
    ensures r == ClearedPrices(m) <==>
      r.Keys == m.Keys && forall h :: h in r ==> r[h].index == m[h].index && r[h].prices == []
  {
    if r.Keys == m.Keys && forall h :: h in r ==> r[h].index == m[h].index && r[h].prices == [] {
      forall h | h in r
        ensures r[h] == ClearedPrices(m)[h]
      {
      }
    }
  }

  /** Clearing an already cleared map changes nothing. */
  lemma ClearedPricesIdempotent(m: PricesMap)
    ensures ClearedPrices(ClearedPrices(m)) == ClearedPrices(m)
  {
    ClearedPricesCharacterized(ClearedPrices(m), ClearedPrices(ClearedPrices(m)));
  }

  /** The cleared map depends only on the handles and indices, never on the prices. */
  lemma ClearedPricesForgetsPrices(m1: PricesMap, m2: PricesMap)
    requires m1.Keys == m2.Keys
    requires forall h :: h in m1 ==> m1[h].index == m2[h].index
    ensures ClearedPrices(m1) == ClearedPrices(m2)
  {
    ClearedPricesCharacterized(m2, ClearedPrices(m1));
  }
}
