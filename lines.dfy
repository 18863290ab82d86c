/**
 * The Line entity (entities/Line.php): one product in one command, with the
 * command and the product loaded on first use and cached, and the two rules
 * that compare the line with its product.
 *
 * PHP reads a property of a null product as null (with a warning), and then
 * compares null with an integer as booleans; the rules below are stated over
 * nullable values to keep that behaviour.
 */
module Lines {
  import opened Wrappers
  import opened Php
  import opened Records

  /** `$product->stock` for a possibly missing product. */
  function StockOf(product: Option<ProductRow>): Option<int> {
    if product.Some? then product.value.stock else None
  }

  /** `$product->price` for a possibly missing product. */
  function PriceOf(product: Option<ProductRow>): Option<real> {
    if product.Some? then product.value.price else None
  }

  /** `$quantity > 0 && $quantity <= $stock` under PHP 8 comparison of nullable integers. */
  predicate QuantityFits(quantity: Option<int>, stock: Option<int>) {
    LooseLess(Some(0), quantity) && LooseAtMost(quantity, stock)
  }

  /** `$price === $productPrice && $price > 0`. */
  predicate PriceMatches(price: Option<real>, productPrice: Option<real>) {
    price == productPrice && price.Some? && price.value > 0.0
  }

  /**
   * isValidQuantity holds exactly when the line has a positive quantity and the
   * product exists, has a stock, and the quantity does not exceed it.
   */
  lemma QuantityFitsMeaning(quantity: Option<int>, stock: Option<int>)
    ensures QuantityFits(quantity, stock) <==>
      quantity.Some? && stock.Some? && 0 < quantity.value <= stock.value
  {
  }

  class Line {
    var idLine: Option<int>
    var idCommand: Option<int>
    var idProduct: Option<int>
    var quantity: Option<int>
    var price: Option<real>
    /** The lazily loaded command and product (protected caches, null until loaded). */
    var command: Option<CommandRow>
    var product: Option<ProductRow>

    /** `new Line($idLine)` (lines 70-73): every other property is null. */
    constructor(idLine: Option<int>)
      ensures this.idLine == idLine
      ensures idCommand == None && idProduct == None && quantity == None && price == None
      ensures command == None && product == None
    {
      this.idLine := idLine;
      idCommand := None;
      idProduct := None;
      quantity := None;
      price := None;
      command := None;
      product := None;
    }

    /** A line as `Line::findOneBy` returns it: the row's columns, nothing loaded yet. */
    constructor FromRow(row: LineRow)
      ensures idLine == Some(row.idLine) && idCommand == row.idCommand && idProduct == row.idProduct
      ensures quantity == row.quantity && price == row.price
      ensures command == None && product == None
    {
      idLine := Some(row.idLine);
      idCommand := row.idCommand;
      idProduct := row.idProduct;
      quantity := row.quantity;
      price := row.price;
      command := None;
      product := None;
    }

    /**
     * `getCommand()` (lines 80-86): load the command named by idCommand only
     * while the cache is null; afterwards return the cached command.
     */
    method GetCommand(db: Db) returns (c: Option<CommandRow>)
      modifies this`command
      ensures old(command).Some? ==> command == old(command)
      ensures old(command).None? ==> command == CommandById(db, idCommand)
      ensures c == command
    {
      if command.None? {
        command := CommandById(db, idCommand);
      }
      c := command;
    }

    /**
     * `getProduct()` (lines 93-99): load the product named by idProduct only
     * while the cache is null; afterwards return the cached product.
     */
    method GetProduct(db: Db) returns (p: Option<ProductRow>)
      modifies this`product
      ensures old(product).Some? ==> product == old(product)
      ensures old(product).None? ==> product == ProductById(db, idProduct)
      ensures p == product
    {
      if product.None? {
        product := ProductById(db, idProduct);
      }
      p := product;
    }

    /** `isValidQuantity()` (lines 106-109): 0 < quantity <= the product's stock. */
    method IsValidQuantity(db: Db) returns (ok: bool)
      modifies this`product
      ensures old(product).Some? ==> product == old(product)
      ensures old(product).None? ==> product == ProductById(db, idProduct)
      ensures ok <==> quantity.Some? && StockOf(product).Some? && 0 < quantity.value <= StockOf(product).value
    {
      var p := GetProduct(db);
      ok := QuantityFits(quantity, StockOf(p));
      QuantityFitsMeaning(quantity, StockOf(p));
    }

    /** `isValidPrice()` (lines 116-119): the price is the product's price and is positive. */
    method IsValidPrice(db: Db) returns (ok: bool)
      modifies this`product
      ensures old(product).Some? ==> product == old(product)
      ensures old(product).None? ==> product == ProductById(db, idProduct)
      ensures ok <==> price.Some? && PriceOf(product) == price && price.value > 0.0
    {
      var p := GetProduct(db);
      ok := PriceMatches(price, PriceOf(p));
    }
  }
}
