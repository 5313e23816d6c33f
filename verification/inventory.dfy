/** The quantity ledger of the inventory page: current stock per product,
    consumption staged but not yet deducted, and restock staged but not yet
    added, all keyed by product name. */
module Inventory {
  import Coercion

  /** A table from product name to quantity. */
  type Table = map<string, int>

  /** `table[item] || 0`: a missing entry reads as 0. */
  function Amount(table: Table, item: string): (amount: int)
    ensures item !in table ==> amount == 0
    ensures item in table ==> amount == table[item]
  {
    if item in table then table[item] else 0
  }

  /** `Math.max(x, 0)`. */
  function Clamp(x: int): (r: int)
    ensures r >= 0 && r >= x
    ensures r == x || r == 0
  {
    if x > 0 then x else 0
  }

  ghost predicate NonNegative(table: Table) {
    forall item :: item in table ==> table[item] >= 0
  }

  /** The catalogue the page starts with: five sizes of one product. */
  function InitialStock(): (stock: Table)
    ensures stock.Keys == {"روزليف 125", "روزليف 175", "روزليف 250", "روزليف 350", "روزليف 450"}
    ensures NonNegative(stock)
  {
    map["روزليف 125" := 200,
        "روزليف 175" := 150,
        "روزليف 250" := 100,
        "روزليف 350" := 50,
        "روزليف 450" := 25]
  }

  /** Stock after every staged consumption is deducted at once: each staged
      product drops by its amount but not below 0 (a staged product with no
      stock entry starts from 0), every other product keeps its level. */
  function Deducted(stock: Table, usage: Table): (newStock: Table)
    ensures newStock.Keys == stock.Keys + usage.Keys
    ensures forall item :: item in usage ==> newStock[item] == Clamp(Amount(stock, item) - usage[item])
    ensures forall item :: item in usage ==> newStock[item] >= 0
    ensures forall item :: item in stock && item !in usage ==> newStock[item] == stock[item]
  {
    map item | item in stock.Keys + usage.Keys ::
      if item in usage then Clamp(Amount(stock, item) - usage[item]) else stock[item]
  }

  /** Stock after the staged restock of one product is added to it. */
  function Restocked(stock: Table, incoming: Table, item: string): (newStock: Table)
    ensures newStock.Keys == stock.Keys + {item}
    ensures newStock[item] == Amount(stock, item) + Amount(incoming, item)
    ensures forall other :: other in stock && other != item ==> newStock[other] == stock[other]
  {
    stock[item := Amount(stock, item) + Amount(incoming, item)]
  }

  /** The body of the batch commit: copy the stock, then for every staged
      product, in whatever order, overwrite its copy with the clamped
      difference. */
  method ApplyUsage(stock: Table, usage: Table) returns (newStock: Table)
    ensures newStock.Keys == stock.Keys + usage.Keys
    ensures forall item :: item in usage ==> newStock[item] == Clamp(Amount(stock, item) - usage[item])
    ensures forall item :: item in stock && item !in usage ==> newStock[item] == stock[item]
    ensures newStock == Deducted(stock, usage)
  {
    newStock := stock;
    var todo := usage.Keys;
    while todo != {}
      invariant todo <= usage.Keys
      invariant newStock.Keys == stock.Keys + (usage.Keys - todo)
      invariant forall item :: item in usage && item !in todo ==> newStock[item] == Clamp(Amount(stock, item) - usage[item])
      invariant forall item :: item in stock && (item !in usage || item in todo) ==> newStock[item] == stock[item]
      decreases todo
    {
      var item :| item in todo;
      newStock := newStock[item := Clamp(Amount(newStock, item) - usage[item])];
      todo := todo - {item};
    }
  }

  /** The page's state: the three tables, each replaced wholesale by the
      handlers below. */
  class Ledger {
    var stock: Table
    var usage: Table
    var incoming: Table

    constructor ()
      ensures stock == InitialStock()
      ensures usage == map[] && incoming == map[]
    {
      stock := InitialStock();
      usage := map[];
      incoming := map[];
    }

    /** Stage the consumption typed for `item`, replacing what was staged. */
    method HandleChange(item: string, value: string)
      modifies this
      ensures usage == old(usage)[item := Coercion.AmountOf(value)]
      ensures stock == old(stock) && incoming == old(incoming)
    {
      usage := usage[item := Coercion.AmountOf(value)];
    }

    /** Stage the restock typed for `item`, replacing what was staged. */
    method HandleIncomingChange(item: string, value: string)
      modifies this
      ensures incoming == old(incoming)[item := Coercion.AmountOf(value)]
      ensures stock == old(stock) && usage == old(usage)
    {
      incoming := incoming[item := Coercion.AmountOf(value)];
    }

    /** Deduct every staged consumption, then clear the staged consumption. */
    method HandleSubmit()
      modifies this
      ensures stock == Deducted(old(stock), old(usage))
      ensures forall item :: item in old(usage) ==> stock[item] >= 0
      ensures usage == map[] && incoming == old(incoming)
    {
      var newStock := ApplyUsage(stock, usage);
      stock := newStock;
      usage := map[];
    }

    /** Add the staged restock of `item` to its stock and reset that staged
        amount to 0; nothing staged reads as 0. */
    method HandleAddStock(item: string)
      modifies this
      ensures stock == Restocked(old(stock), old(incoming), item)
      ensures incoming == old(incoming)[item := 0]
      ensures usage == old(usage)
    {
      var amountToAdd := Amount(incoming, item);
      stock := stock[item := Amount(stock, item) + amountToAdd];
      incoming := incoming[item := 0];
    }
  }

  /** Committing with nothing staged leaves the stock as it was. */
  lemma SubmitNothingKeepsStock(stock: Table)
    ensures Deducted(stock, map[]) == stock
  {
  }

  /** The batch commit never makes a level negative: staged products end at
      0 or above, the rest keep their level. */
  lemma SubmitKeepsNonNegative(stock: Table, usage: Table)
    requires NonNegative(stock)
    ensures NonNegative(Deducted(stock, usage))
  {
  }

  /** Staging `text` for one product and committing gives that product the
      clamped difference, and every other product comes out as if that
      product had not been staged, whatever else was staged. */
  lemma StageThenSubmit(stock: Table, usage: Table, item: string, text: string)
    ensures Deducted(stock, usage[item := Coercion.AmountOf(text)])[item]
            == Clamp(Amount(stock, item) - Coercion.AmountOf(text))
    ensures forall other :: other in Deducted(stock, usage) && other != item ==>
              other in Deducted(stock, usage[item := Coercion.AmountOf(text)]) &&
              Deducted(stock, usage[item := Coercion.AmountOf(text)])[other] == Deducted(stock, usage)[other]
  {
  }

  /** A product staged with at least what is in stock ends at exactly 0. */
  lemma OverdrawEndsAtZero(stock: Table, usage: Table, item: string)
    requires item in usage && usage[item] >= Amount(stock, item)
    ensures Deducted(stock, usage)[item] == 0
  {
  }

  /** A restock whose staged amount is not negative never lowers the level
      and keeps a non-negative stock non-negative. */
  lemma RestockNeverLowers(stock: Table, incoming: Table, item: string)
    requires Amount(incoming, item) >= 0
    ensures Amount(Restocked(stock, incoming, item), item) >= Amount(stock, item)
    ensures NonNegative(stock) ==> NonNegative(Restocked(stock, incoming, item))
  {
  }

  /** Staging `text` as restock for one product and adding it raises that
      product by the typed amount and leaves its staged restock at 0. */
  lemma StageThenAddStock(stock: Table, incoming: Table, item: string, text: string)
    ensures Amount(Restocked(stock, incoming[item := Coercion.AmountOf(text)], item), item)
            == Amount(stock, item) + Coercion.AmountOf(text)
  {
  }

  /** A negative staged restock lowers the level, and takes it below 0 when
      it outweighs the stock: adding stock does not keep levels
      non-negative. */
  lemma NegativeRestockLowersStock(stock: Table, incoming: Table, item: string)
    requires Amount(incoming, item) < 0
    ensures Restocked(stock, incoming, item)[item] < Amount(stock, item)
    ensures Amount(stock, item) + Amount(incoming, item) < 0 ==> !NonNegative(Restocked(stock, incoming, item))
  {
  }

  /** A negative staged consumption raises the level when committed. */
  lemma NegativeUsageRaisesStock(stock: Table, usage: Table, item: string)
    requires item in usage && usage[item] < 0 && Amount(stock, item) >= 0
    ensures Deducted(stock, usage)[item] == Amount(stock, item) - usage[item] > Amount(stock, item)
  {
  }

  /** A session on the page: overdraw one product, restock another. */
  method Session()
  {
    var ledger := new Ledger();
    var small, medium := "روزليف 125", "روزليف 175";
    Coercion.DecimalRoundTrip(250);
    Coercion.DecimalRoundTrip(50);
    assert Coercion.Decimal(250) == "250" && Coercion.Decimal(50) == "50";
    ledger.HandleChange(small, "250");
    ledger.HandleSubmit();
    assert ledger.stock[small] == 0;
    assert ledger.stock[medium] == 150;
    assert ledger.usage == map[];
    ledger.HandleIncomingChange(medium, "50");
    ledger.HandleAddStock(medium);
    assert ledger.stock[medium] == 200;
    assert ledger.incoming[medium] == 0;
    ledger.HandleIncomingChange(small, "ten");
    ledger.HandleAddStock(small);
    assert ledger.stock[small] == 0;
    Coercion.DecimalRoundTrip(-300);
    assert Coercion.Decimal(-300) == "-300";
    ledger.HandleIncomingChange(medium, "-300");
    ledger.HandleAddStock(medium);
    assert ledger.stock[medium] == -100;
  }
}
