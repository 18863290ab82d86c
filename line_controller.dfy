/**
 * Cart lines (controllers/LineController.php): the checks of processingDataLine,
 * which adds a product to a cart (POST) or rewrites a line (PUT), and the guards
 * of removeLine.
 *
 * `Router::json` sends its answer and ends the request, so a guard that calls it
 * is a stop. Request values arrive as PHP's filters leave them: FILTER_VALIDATE_INT
 * and FILTER_VALIDATE_FLOAT give a number or false (None here), and
 * `(int)$input['idProduct']` is always an integer.
 */
module LineController {
  import opened Wrappers
  import opened Php
  import opened Records
  import opened Users
  import opened Lines

  const ACCESS_DENIED := "Vous n'êtes pas autorisé à accéder à cette page"
  const INVALID_ID := "Identifiant commande incorrect."
  const NO_CHANGE_ALLOWED := "La commande ne peut plus être modifiée."
  const INVALID_PRODUCT := "Produit invalide."
  const INVALID_QUANTITY := "Quantité invalide."
  const INVALID_PRICE := "Invalid price."

  /** The request body processingDataLine reads. */
  datatype LineInput = LineInput(idProduct: int, idLine: Option<int>, quantity: Option<int>, price: Option<real>)

  // ---------------------------------------------------------------------------
  // Guards (lines 94-99)
  // ---------------------------------------------------------------------------

  /**
   * The three stops before any data is read, in the code's order: access (the
   * user must hold ROLE_USER and its id must loosely equal the cart's customer,
   * `null` when there is no cart), then a missing cart, then a cart no longer
   * in status 'cart'. For a logged user whose roles are null isGranted raises
   * before any of these answers; ProcessingDataLine tests that case first.
   */
  function Guard(me: Option<Principal>, cart: Option<CommandRow>): (r: Option<string>)
    ensures r.None? <==>
      && Granted(me, ROLE_USER) && cart.Some? && cart.value.status == Some("cart")
      && !LooseDiffers(me.value.idUser, cart.value.idCustomer)
    ensures r.None? && cart.value.idCustomer.Some? && cart.value.idCustomer.value != 0 ==>
      me.value.idUser == cart.value.idCustomer
    ensures !Granted(me, ROLE_USER) ==> r == Some(ACCESS_DENIED)
    ensures cart.None? && me.Some? && IntBool(me.value.idUser) ==> r == Some(ACCESS_DENIED)
    ensures Granted(me, ROLE_USER) && cart.Some? && LooseDiffers(me.value.idUser, cart.value.idCustomer) ==>
      r == Some(ACCESS_DENIED)
    ensures Granted(me, ROLE_USER) && cart.None? && !IntBool(me.value.idUser) ==> r == Some(INVALID_ID)
    ensures (Granted(me, ROLE_USER) && cart.Some? && !LooseDiffers(me.value.idUser, cart.value.idCustomer) &&
             cart.value.status != Some("cart")) ==> r == Some(NO_CHANGE_ALLOWED)
  {
    if me.None? || !Granted(me, ROLE_USER) || LooseDiffers(me.value.idUser, if cart.Some? then cart.value.idCustomer else None) then
      Some(ACCESS_DENIED)
    else if cart.None? then Some(INVALID_ID)
    else if cart.value.status != Some("cart") then Some(NO_CHANGE_ALLOWED)
    else None
  }

  // ---------------------------------------------------------------------------
  // Quantity (lines 115-120)
  // ---------------------------------------------------------------------------

  /** The total line 115 computes before `?: null`: null and false count as 0. */
  function RequestedTotal(adding: bool, current: Option<int>, requested: Option<int>): int {
    (if adding then current.GetOr(0) else 0) + requested.GetOr(0)
  }

  /**
   * Line 115: adding (POST) puts the requested quantity on top of the line's
   * current one, rewriting (PUT) replaces it, and a total of 0 becomes null.
   */
  function MergedQuantity(adding: bool, current: Option<int>, requested: Option<int>): (q: Option<int>)
    ensures q.Some? <==> RequestedTotal(adding, current, requested) != 0
    ensures q.Some? ==> q.value == RequestedTotal(adding, current, requested)
    ensures adding && current.Some? && requested.Some? && current.value + requested.value != 0 ==>
      q == Some(current.value + requested.value)
    ensures !adding && requested.Some? && requested.value != 0 ==> q == requested
  {
    OrNullInt(Some(RequestedTotal(adding, current, requested)))
  }

  /** Lines 117-118: `if ($quantity > $stock) $quantity = $stock;` under PHP 8 comparison with null. */
  function Clamped(quantity: Option<int>, stock: Option<int>): (r: Option<int>)
    ensures r.Some? && r.value != 0 ==> stock.Some? && r.value <= stock.value
    ensures quantity.Some? && stock.Some? ==>
      r == Some(if quantity.value <= stock.value then quantity.value else stock.value)
    ensures stock.None? && IntBool(quantity) ==> r.None?
  {
    if LooseLess(stock, quantity) then stock else quantity
  }

  /**
   * The quantity a line ends with is accepted exactly when the product has a
   * positive stock and the requested total is positive; it is then the smaller
   * of the two.
   */
  lemma StoredQuantity(adding: bool, current: Option<int>, requested: Option<int>, stock: Option<int>)
    ensures var q := Clamped(MergedQuantity(adding, current, requested), stock);
      var total := RequestedTotal(adding, current, requested);
      && (IntBool(q) && QuantityFits(q, stock) <==> stock.Some? && stock.value > 0 && total > 0)
      && (stock.Some? && stock.value > 0 && total > 0 ==> q == Some(if total <= stock.value then total else stock.value))
  {
    var q := Clamped(MergedQuantity(adding, current, requested), stock);
    QuantityFitsMeaning(q, stock);
  }

  /** Lines 119-120: the quantity error. */
  function QuantityErrors(quantity: Option<int>, stock: Option<int>): (errors: seq<string>)
    ensures errors == [] <==> quantity.Some? && stock.Some? && 0 < quantity.value <= stock.value
    ensures errors != [] ==> errors == [INVALID_QUANTITY]
  {
    QuantityFitsMeaning(quantity, stock);
    if !IntBool(quantity) || !QuantityFits(quantity, stock) then [INVALID_QUANTITY] else []
  }

  /** Lines 121-123: the price error. */
  function PriceErrors(price: Option<real>, productPrice: Option<real>): (errors: seq<string>)
    ensures errors == [] <==> PriceMatches(price, productPrice)
    ensures errors != [] ==> errors == [INVALID_PRICE]
  {
    if price.None? || !PriceMatches(price, productPrice) then [INVALID_PRICE] else []
  }

  /** Lines 104-123: the errors recorded, in the code's order. */
  function LineErrors(idProduct: Option<int>, quantity: Option<int>, stock: Option<int>,
                      price: Option<real>, productPrice: Option<real>): (errors: seq<string>)
    ensures INVALID_PRODUCT in errors <==> idProduct.None? || idProduct.value <= 0
    ensures INVALID_QUANTITY in errors <==> !(quantity.Some? && stock.Some? && 0 < quantity.value <= stock.value)
    ensures INVALID_PRICE in errors <==> !PriceMatches(price, productPrice)
    ensures |errors| <= 3
  {
    (if idProduct.None? || idProduct.value <= 0 then [INVALID_PRODUCT] else [])
    + QuantityErrors(quantity, stock) + PriceErrors(price, productPrice)
  }

  // ---------------------------------------------------------------------------
  // processingDataLine (lines 88-130)
  // ---------------------------------------------------------------------------

  /**
   * Lines 107-112: the stored line the request targets. Adding looks for a line
   * of the same command holding the same product; rewriting looks the line up by
   * the idLine sent, in any command. A null key matches no row.
   */
  function ExistingLine(adding: bool, idCommand: Option<int>, input: LineInput, db: Db): Option<LineRow> {
    if adding then
      var idProduct := OrNullInt(Some(input.idProduct));
      if idCommand.None? || idProduct.None? then None
      else FindFirst(db.lines, (l: LineRow) => l.idCommand == idCommand && l.idProduct == idProduct)
    else LineById(db, OrNullInt(input.idLine))
  }

  /** What processingDataLine ends in. */
  datatype LineOutcome =
    | Crashed                    // an uncaught error: isGranted on null roles, or persist throwing
    | Stopped(message: string)   // Router::json with a guard's message
    | Saved(line: Line)          // persisted and returned
    | Discarded                  // null returned; the errors are dropped

  /**
   * Lines 115-123 on the line being filled: merge and clamp the quantity against
   * the product's stock, take the price sent, and record the two errors.
   */
  method SettleQuantityAndPrice(target: Line, adding: bool, input: LineInput, db: Db) returns (errors: seq<string>)
    modifies target
    ensures var product := if old(target.product).Some? then old(target.product) else ProductById(db, old(target.idProduct));
      && target.product == product
      && target.quantity == Clamped(MergedQuantity(adding, old(target.quantity), input.quantity), StockOf(product))
      && target.price == OrNullReal(input.price)
      && errors == QuantityErrors(target.quantity, StockOf(product)) + PriceErrors(target.price, PriceOf(product))
    ensures target.idLine == old(target.idLine) && target.idProduct == old(target.idProduct)
    ensures target.idCommand == old(target.idCommand) && target.command == old(target.command)
  {
    target.quantity := MergedQuantity(adding, target.quantity, input.quantity);
    var product := target.GetProduct(db);
    if LooseLess(StockOf(product), target.quantity) {
      target.quantity := StockOf(product);
    }
    errors := [];
    if !IntBool(target.quantity) {
      errors := errors + [INVALID_QUANTITY];
    } else {
      var fits := target.IsValidQuantity(db);
      if !fits {
        errors := errors + [INVALID_QUANTITY];
      }
    }
    target.price := OrNullReal(input.price);
    if target.price.None? {
      errors := errors + [INVALID_PRICE];
    } else {
      var matches := target.IsValidPrice(db);
      if !matches {
        errors := errors + [INVALID_PRICE];
      }
    }
  }

  /**
   * `LineController::processingDataLine($line, $adding)`. The line is the one
   * updateLine builds (only idCommand set); the method follows the code step by
   * step, switching to the stored line when one exists.
   */
  method ProcessingDataLine(line: Line, adding: bool, me: Option<Principal>, input: LineInput, db: Db,
                            persistThrows: bool)
    returns (outcome: LineOutcome, errors: seq<string>)
    modifies line
    ensures GrantCrashes(me) ==> outcome.Crashed? && errors == []
    ensures var cart := if old(line.command).Some? then old(line.command) else CommandById(db, old(line.idCommand));
      && (!GrantCrashes(me) ==> (Guard(me, cart).Some? <==> outcome.Stopped?))
      && (outcome.Stopped? ==> outcome.message == Guard(me, cart).value && errors == [])
    ensures !GrantCrashes(me) && !outcome.Stopped? ==>
      var idProduct := OrNullInt(Some(input.idProduct));
      var existing := ExistingLine(adding, old(line.idCommand), input, db);
      var current := if existing.Some? then existing.value.quantity else old(line.quantity);
      var product :=
        if existing.Some? then ProductById(db, existing.value.idProduct)
        else if old(line.product).Some? then old(line.product)
        else ProductById(db, idProduct);
      && FilledAs(outcome, errors, line, old(line.idCommand), if adding then old(line.idLine) else OrNullInt(input.idLine),
                  idProduct, existing, product,
                  Clamped(MergedQuantity(adding, current, input.quantity), StockOf(product)), OrNullReal(input.price),
                  persistThrows)
      && (outcome.Saved? && existing.Some? ==> fresh(outcome.line))
  {
    var cart := line.GetCommand(db);
    if GrantCrashes(me) {
      return Crashed, [];
    }
    var stop := Guard(me, cart);
    if stop.Some? {
      return Stopped(stop.value), [];
    }
    outcome, errors := FillLine(line, adding, input, db, persistThrows);
  }

  /**
   * What lines 101-129 leave: the errors of the product, quantity and price
   * rules, and the line saved exactly when there are none (the given line, or a
   * copy of the stored line it meets) and `persist()` does not throw.
   * `idCommand` and `idLine` are the given line's keys once lines 101-111 have
   * run: the command it was built for, and on a rewrite the idLine sent. A
   * saved copy keeps the stored line's command and product.
   */
  ghost predicate FilledAs(outcome: LineOutcome, errors: seq<string>, line: Line, idCommand: Option<int>, idLine: Option<int>,
                           idProduct: Option<int>, existing: Option<LineRow>, product: Option<ProductRow>,
                           quantity: Option<int>, price: Option<real>, persistThrows: bool)
    reads line, if outcome.Saved? then {outcome.line} else {}
  {
    && errors == LineErrors(idProduct, quantity, StockOf(product), price, PriceOf(product))
    && !outcome.Stopped?
    && (outcome.Discarded? <==> errors != [])
    && (outcome.Crashed? <==> errors == [] && persistThrows)
    && (outcome.Saved? ==>
      && (existing.None? ==> outcome.line == line && line.idProduct == idProduct && line.idLine == idLine)
      && (existing.Some? ==> outcome.line.idLine == Some(existing.value.idLine)
                             && outcome.line.idProduct == existing.value.idProduct)
      && outcome.line.idCommand == (if existing.Some? then existing.value.idCommand else idCommand)
      && outcome.line.quantity == quantity
      && outcome.line.price == price)
  }

  /** Lines 101-129, once the guards have passed; `persistThrows`: the write of line 126 throws. */
  method FillLine(line: Line, adding: bool, input: LineInput, db: Db, persistThrows: bool)
    returns (outcome: LineOutcome, errors: seq<string>)
    modifies line
    ensures
      var idProduct := OrNullInt(Some(input.idProduct));
      var existing := ExistingLine(adding, old(line.idCommand), input, db);
      var current := if existing.Some? then existing.value.quantity else old(line.quantity);
      var product :=
        if existing.Some? then ProductById(db, existing.value.idProduct)
        else if old(line.product).Some? then old(line.product)
        else ProductById(db, idProduct);
      && FilledAs(outcome, errors, line, old(line.idCommand), if adding then old(line.idLine) else OrNullInt(input.idLine),
                  idProduct, existing, product,
                  Clamped(MergedQuantity(adding, current, input.quantity), StockOf(product)), OrNullReal(input.price),
                  persistThrows)
      && (outcome.Saved? && existing.Some? ==> fresh(outcome.line))
  {
    ghost var quantity0, product0, idCommand0, idLine0 := line.quantity, line.product, line.idCommand, line.idLine;
    var target, head, existing := LocateTarget(line, adding, input, db);
    ghost var idProduct := OrNullInt(Some(input.idProduct));
    ghost var product :=
      if existing.Some? then ProductById(db, existing.value.idProduct)
      else if product0.Some? then product0
      else ProductById(db, idProduct);
    var tail := SettleQuantityAndPrice(target, adding, input, db);
    ghost var current := if existing.Some? then existing.value.quantity else quantity0;
    ghost var quantity := Clamped(MergedQuantity(adding, current, input.quantity), StockOf(product));
    assert target.quantity == quantity && target.product == product;
    errors := head + tail;
    assert errors == LineErrors(idProduct, quantity, StockOf(product), OrNullReal(input.price), PriceOf(product));
    assert target.idCommand == (if existing.Some? then existing.value.idCommand else idCommand0);
    if errors == [] && persistThrows {
      outcome := Crashed;
    } else if errors == [] {
      outcome := Saved(target);
    } else {
      outcome := Discarded;
    }
  }

  /**
   * Lines 104-114: write and check the product id sent, look up the line it
   * collides with (or, when rewriting, the line named by the idLine sent), load
   * the product into the given line, and continue on the stored line when there
   * is one.
   */
  method LocateTarget(line: Line, adding: bool, input: LineInput, db: Db)
    returns (target: Line, head: seq<string>, existing: Option<LineRow>)
    modifies line
    ensures var idProduct := OrNullInt(Some(input.idProduct));
      && head == Flag(idProduct.None? || idProduct.value <= 0, INVALID_PRODUCT)
      && existing == ExistingLine(adding, old(line.idCommand), input, db)
      && line.idProduct == idProduct && line.quantity == old(line.quantity)
      && line.product == (if old(line.product).Some? then old(line.product) else ProductById(db, idProduct))
    ensures line.idCommand == old(line.idCommand)
    ensures line.idLine == (if adding then old(line.idLine) else OrNullInt(input.idLine))
    ensures existing.None? ==> target == line
    ensures existing.Some? ==>
      && fresh(target) && target.idLine == Some(existing.value.idLine)
      && target.idProduct == existing.value.idProduct && target.quantity == existing.value.quantity
      && target.idCommand == existing.value.idCommand && target.price == existing.value.price
      && target.product == None
  {
    var idProduct := OrNullInt(Some(input.idProduct));
    line.idProduct := idProduct;
    head := [];
    if idProduct.None? || idProduct.value <= 0 {
      head := [INVALID_PRODUCT];
    }
    if adding {
      existing := ExistingLine(adding, line.idCommand, input, db);
    } else {
      line.idLine := OrNullInt(input.idLine);
      existing := LineById(db, line.idLine);
    }
    var _ := line.GetProduct(db);
    target := line;
    if existing.Some? {
      target := new Line.FromRow(existing.value);
    }
  }

  /**
   * A saved line holds a positive quantity within its product's stock and the
   * product's exact positive price.
   */
  lemma SavedLineIsValid(idProduct: Option<int>, quantity: Option<int>, stock: Option<int>,
                         price: Option<real>, productPrice: Option<real>)
    requires LineErrors(idProduct, quantity, stock, price, productPrice) == []
    ensures idProduct.Some? && idProduct.value > 0
    ensures quantity.Some? && stock.Some? && 0 < quantity.value <= stock.value
    ensures price.Some? && price == productPrice && price.value > 0.0
  {
    assert INVALID_PRODUCT !in LineErrors(idProduct, quantity, stock, price, productPrice);
    assert INVALID_QUANTITY !in LineErrors(idProduct, quantity, stock, price, productPrice);
    assert INVALID_PRICE !in LineErrors(idProduct, quantity, stock, price, productPrice);
  }

  /**
   * A rewrite (PUT) finds its line by the idLine sent alone (lines 110-111),
   * whatever command the guards of lines 94-99 checked: any stored line, in any
   * user's command, is the one rewritten, and when it is saved it keeps that
   * command (FilledAs).
   */
  lemma RewriteReachesAnyLine(idCommand: Option<int>, input: LineInput, db: Db, row: LineRow)
    requires row in db.lines && row.idLine != 0 && input.idLine == Some(row.idLine)
    requires forall i :: 0 <= i < |db.lines| && db.lines[i].idLine == row.idLine ==> db.lines[i] == row
    ensures ExistingLine(false, idCommand, input, db) == Some(row)
  {
    var i :| 0 <= i < |db.lines| && db.lines[i] == row;
    var found := FindFirst(db.lines, (l: LineRow) => l.idLine == row.idLine);
    assert !(forall j :: 0 <= j < |db.lines| ==> !(db.lines[j].idLine == row.idLine)) by {
      assert db.lines[i].idLine == row.idLine;
    }
  }

  // ---------------------------------------------------------------------------
  // removeLine (lines 62-76)
  // ---------------------------------------------------------------------------

  datatype RemoveOutcome =
    | RemoveCrashed              // no such line or command (a method call on null), or null roles
    | RemoveStopped(message: string)
    | Removed(idLine: int)

  /**
   * `LineController::removeLine`: the line and its command must exist; a command
   * that is no longer a cart is refused first, then anyone but its customer
   * holding ROLE_USER (strict comparison of ids); isGranted raises for a
   * logged user whose roles are null. `isCart()` is read as `status === 'cart'`.
   */
  function RemoveLine(db: Db, idLine: int, me: Option<Principal>): (r: RemoveOutcome)
    ensures r.Removed? <==>
      && LineById(db, Some(idLine)).Some?
      && var command := CommandById(db, LineById(db, Some(idLine)).value.idCommand);
        && command.Some? && command.value.status == Some("cart")
        && Granted(me, ROLE_USER) && me.value.idUser == command.value.idCustomer
    ensures r.RemoveCrashed? <==>
      || LineById(db, Some(idLine)).None?
      || var command := CommandById(db, LineById(db, Some(idLine)).value.idCommand);
        || command.None?
        || (command.value.status == Some("cart") && GrantCrashes(me))
    ensures r.Removed? ==> r.idLine == idLine
    ensures LineById(db, Some(idLine)).Some? ==>
      var command := CommandById(db, LineById(db, Some(idLine)).value.idCommand);
      && (command.Some? && command.value.status != Some("cart") ==> r == RemoveStopped(NO_CHANGE_ALLOWED))
      && ((command.Some? && command.value.status == Some("cart") && !GrantCrashes(me) &&
           !(Granted(me, ROLE_USER) && me.value.idUser == command.value.idCustomer)) ==> r == RemoveStopped(ACCESS_DENIED))
    ensures r.RemoveStopped? && r.message == ACCESS_DENIED ==>
      && LineById(db, Some(idLine)).Some?
      && var command := CommandById(db, LineById(db, Some(idLine)).value.idCommand);
        command.Some? && command.value.status == Some("cart")
  {
    var line := LineById(db, Some(idLine));
    if line.None? then RemoveCrashed
    else
      var command := CommandById(db, line.value.idCommand);
      if command.None? then RemoveCrashed
      else if command.value.status != Some("cart") then RemoveStopped(NO_CHANGE_ALLOWED)
      else if GrantCrashes(me) then RemoveCrashed
      else if me.None? || !Granted(me, ROLE_USER) || me.value.idUser != command.value.idCustomer then
        RemoveStopped(ACCESS_DENIED)
      else Removed(idLine)
  }
}
