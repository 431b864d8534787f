/**
 * The catalog `OBJECTS` of main.js, reduced to what the logic reads: each
 * entry's key and its display weight (titles, meta lines and bodies are content).
 */
module Objects {

  datatype Item = Item(key: string, weight: real)

  const Catalog: seq<Item> := [
    Item("infinite_hotel", 63.0),
    Item("broadway", 92.0),
    Item("perspective_philosophy", 72.0),
    Item("admin", 35.0)
  ]

  /** The keys of a catalog, in catalog order. */
  function Keys(items: seq<Item>): (ks: seq<string>)
    ensures |ks| == |items|
    ensures forall i :: 0 <= i < |items| ==> ks[i] == items[i].key
  {
    seq(|items|, i requires 0 <= i < |items| => items[i].key)
  }

  /** No key occurs twice. */
  predicate Distinct(ks: seq<string>) {
    forall i, j :: 0 <= i < j < |ks| ==> ks[i] != ks[j]
  }

  /** The catalog's keys are pairwise different, so a key names one entry. */
  lemma CatalogKeysDistinct()
    ensures |Keys(Catalog)| == 4 && Distinct(Keys(Catalog))
    ensures Catalog[1].key == "broadway" && Catalog[1].weight == 92.0
  {
    var ks := Keys(Catalog);
    assert ks == ["infinite_hotel", "broadway", "perspective_philosophy", "admin"];
  }
}
