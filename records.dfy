/**
 * Rows of the application's database tables, as the ORM (peps\core\Entity,
 * which is not part of this model) loads them, and the `findOneBy` /
 * `findAllBy` lookups the core performs on them. A table is a sequence of rows
 * in storage order; `findOneBy` returns the first row that matches.
 * Only the columns the core reads are kept.
 */
module Records {
  import opened Wrappers

  /** A row of the `user` table; `roles` is the role list its JSON column holds. */
  datatype UserRow = UserRow(
    idUser: int,
    roles: Option<seq<string>>,
    username: Option<string>,
    pwd: Option<string>,
    email: Option<string>,
    lastName: Option<string>,
    firstName: Option<string>,
    mobile: Option<string>,
    postMail: Option<string>,
    postMailComplement: Option<string>,
    zipCode: Option<string>,
    city: Option<string>)

  /** A row of the `command` table (an order; status 'cart' for a basket). */
  datatype CommandRow = CommandRow(
    idCommand: int,
    idCustomer: Option<int>,
    orderDate: Option<string>,
    ref: Option<string>,
    status: Option<string>,
    lastChange: Option<string>)

  /** A row of the `product` table, with the columns the line rules read. */
  datatype ProductRow = ProductRow(
    idProduct: int,
    name: Option<string>,
    price: Option<real>,
    stock: Option<int>)

  /** A row of the `line` table: one product in one command. */
  datatype LineRow = LineRow(
    idLine: int,
    idCommand: Option<int>,
    idProduct: Option<int>,
    quantity: Option<int>,
    price: Option<real>)

  /** The state of the database a request sees. */
  datatype Db = Db(
    users: seq<UserRow>,
    commands: seq<CommandRow>,
    products: seq<ProductRow>,
    lines: seq<LineRow>)

  /** `findOneBy`: the first row satisfying `p`, or None when no row does. */
  function FindFirst<T>(rows: seq<T>, p: T -> bool): (r: Option<T>)
    ensures r.Some? ==> r.value in rows && p(r.value)
    ensures r.None? <==> forall i :: 0 <= i < |rows| ==> !p(rows[i])
  {
    if rows == [] then None
    else if p(rows[0]) then Some(rows[0])
    else FindFirst(rows[1..], p)
  }

  /** `findAllBy`: every row satisfying `p`, in storage order. */
  function FindAll<T>(rows: seq<T>, p: T -> bool): (r: seq<T>)
    ensures forall i :: 0 <= i < |r| ==> r[i] in rows && p(r[i])
    ensures forall i :: 0 <= i < |rows| && p(rows[i]) ==> rows[i] in r
    ensures |r| <= |rows|
  {
    if rows == [] then []
    else (if p(rows[0]) then [rows[0]] else []) + FindAll(rows[1..], p)
  }

  /** A value is kept by findAllBy exactly when it is a row satisfying `p`. */
  lemma FindAllMembers<T>(rows: seq<T>, p: T -> bool, x: T)
    ensures x in FindAll(rows, p) <==> x in rows && p(x)
  {
    var r := FindAll(rows, p);
    if x in r {
      var i :| 0 <= i < |r| && r[i] == x;
    }
    if x in rows && p(x) {
      var i :| 0 <= i < |rows| && rows[i] == x;
    }
  }

  /** Filtering a sequence one row longer adds that row at the end when it matches. */
  lemma {:induction false} FindAllSnoc<T>(rows: seq<T>, p: T -> bool, x: T)
    ensures FindAll(rows + [x], p) == FindAll(rows, p) + (if p(x) then [x] else [])
  {
    if rows == [] {
      assert rows + [x] == [x];
      assert [x][1..] == [];
    } else {
      assert (rows + [x])[0] == rows[0];
      assert (rows + [x])[1..] == rows[1..] + [x];
      FindAllSnoc(rows[1..], p, x);
    }
  }

  function UserById(db: Db, id: Option<int>): Option<UserRow> {
    if id.None? then None else FindFirst(db.users, (u: UserRow) => u.idUser == id.value)
  }

  function CommandById(db: Db, id: Option<int>): Option<CommandRow> {
    if id.None? then None else FindFirst(db.commands, (c: CommandRow) => c.idCommand == id.value)
  }

  function ProductById(db: Db, id: Option<int>): Option<ProductRow> {
    if id.None? then None else FindFirst(db.products, (p: ProductRow) => p.idProduct == id.value)
  }

  function LineById(db: Db, id: Option<int>): Option<LineRow> {
    if id.None? then None else FindFirst(db.lines, (l: LineRow) => l.idLine == id.value)
  }
}
