/**
 * The goods catalogue as the bot's keyboard sees it: one entry per good,
 * keyed by its display label "name price грн".
 */
module Catalogue {
  import opened Wrappers
  import opened Text
  import opened OrderedDict

  /** A good of the fiscal backend; the price is in minor units (kopiykas). */
  datatype Good = Good(code: string, name: string, price: int)

  /** The label: stripped name, a space, the price with two decimals, " грн". */
  function ItemKey(g: Good): string {
    Strip(g.name) + " " + FormatCents(g.price) + " грн"
  }

  function Pairs(goods: seq<Good>): (ps: seq<(string, Good)>)
    ensures |ps| == |goods| && forall i | 0 <= i < |goods| :: ps[i] == (ItemKey(goods[i]), goods[i])
  {
    seq(|goods|, i requires 0 <= i < |goods| => (ItemKey(goods[i]), goods[i]))
  }

  /** get_items(): a dict comprehension over the catalogue. */
  function Items(goods: seq<Good>): ODict<string, Good> { FromPairs(Pairs(goods)) }

  function Labels(goods: seq<Good>): (ls: seq<string>)
    ensures |ls| == |goods| && forall i | 0 <= i < |goods| :: ls[i] == ItemKey(goods[i])
  {
    seq(|goods|, i requires 0 <= i < |goods| => ItemKey(goods[i]))
  }

  /** The labels come in catalogue order, a repeated label at its first place. */
  lemma ItemsOrder(goods: seq<Good>)
    ensures Keys(Items(goods)) == Dedup(Labels(goods))
    ensures UniqueKeys(Items(goods))
  {
    FromPairsKeys(Pairs(goods));
    assert Keys(Pairs(goods)) == Labels(goods);
  }

  /** A good whose label no later good repeats is the value under its label. */
  lemma LaterWins(goods: seq<Good>, i: nat)
    requires i < |goods|
    requires forall j | i < j < |goods| :: ItemKey(goods[j]) != ItemKey(goods[i])
    ensures Get(Items(goods), ItemKey(goods[i])) == Some(goods[i])
  {
    FromPairsGet(Pairs(goods), ItemKey(goods[i]));
    LastValueAt(Pairs(goods), ItemKey(goods[i]), i);
  }

  /**
   * Every value is a catalogue good, unchanged (code, unstripped name and
   * price), filed under its own label.
   */
  lemma ValuesFromCatalogue(goods: seq<Good>, key: string)
    requires Get(Items(goods), key).Some?
    ensures var g := Get(Items(goods), key).value; g in goods && ItemKey(g) == key
  {
    FromPairsGet(Pairs(goods), key);
    LastValueFrom(Pairs(goods), key);
  }

}
