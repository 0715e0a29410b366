/** The schema of models.py: three tables, their foreign keys and the unique
    email column, together with what a recursive delete removes from them. */
module Models {

  /** Primary key of a row (the table's integer rowid). */
  type Id = int

  /** The range of SQLite's INTEGER, a signed 64-bit value. The driver refuses to bind a
      Python int outside it (OverflowError), before any row is looked at. */
  const MIN_INTEGER: int := -0x8000_0000_0000_0000
  const MAX_INTEGER: int := 0x7FFF_FFFF_FFFF_FFFF

  predicate FitsInteger(n: int) {
    MIN_INTEGER <= n <= MAX_INTEGER
  }

  /** The value stored in a DateField. */
  datatype Date = Date(year: int, month: int, day: int)

  /** The value stored in a FloatField. No handler computes with a price, so it is left abstract. */
  type Price(==)

  /** A row of the Customer table; `email` is declared unique. */
  datatype Customer = Customer(name: string, email: string)

  /** A row of the Invoice table; `customer` is a foreign key into Customer. */
  datatype Invoice = Invoice(customer: Id, date: Date)

  /** A row of the Item table; `invoice` is a foreign key into Invoice. */
  datatype Item = Item(invoice: Id, description: string, quantity: int, price: Price)

  /** The whole database: each table maps a rowid to its row. */
  datatype Tables = Tables(customers: map<Id, Customer>, invoices: map<Id, Invoice>, items: map<Id, Item>)

  /** The backref `customer.invoices`. */
  function InvoicesOf(invoices: map<Id, Invoice>, customer: Id): set<Id> {
    set i | i in invoices && invoices[i].customer == customer
  }

  /** The backref `invoice.items`. */
  function ItemsOf(items: map<Id, Item>, invoice: Id): set<Id> {
    set k | k in items && items[k].invoice == invoice
  }

  /** The items whose invoice is one of `invoiceIds`. */
  function ItemsOfAny(items: map<Id, Item>, invoiceIds: set<Id>): set<Id> {
    set k | k in items && items[k].invoice in invoiceIds
  }

  /** Some customer already has this email. */
  predicate EmailTaken(customers: map<Id, Customer>, email: string) {
    exists c :: c in customers && customers[c].email == email
  }

  /** Some customer other than `self` has this email. */
  predicate EmailTakenByOther(customers: map<Id, Customer>, email: string, self: Id) {
    exists c :: c in customers && c != self && customers[c].email == email
  }

  /** The UNIQUE constraint on Customer.email. */
  predicate EmailsUnique(customers: map<Id, Customer>) {
    forall a, b :: a in customers && b in customers && customers[a].email == customers[b].email ==> a == b
  }

  /** Every invoice's `customer` names an existing customer. */
  predicate InvoicesHaveCustomers(t: Tables) {
    forall i :: i in t.invoices ==> t.invoices[i].customer in t.customers
  }

  /** Every item's `invoice` names an existing invoice. */
  predicate ItemsHaveInvoices(t: Tables) {
    forall k :: k in t.items ==> t.items[k].invoice in t.invoices
  }

  /** A rowid the tables can hold: positive (the handlers never insert another) and an INTEGER. */
  predicate IsRowid(n: int) {
    1 <= n <= MAX_INTEGER
  }

  /** Every row sits under a rowid, and every `quantity` (an IntegerField) is an INTEGER. */
  predicate StoredValuesFit(t: Tables) {
    && (forall c :: c in t.customers ==> IsRowid(c))
    && (forall i :: i in t.invoices ==> IsRowid(i))
    && (forall k :: k in t.items ==> IsRowid(k) && FitsInteger(t.items[k].quantity))
  }

  /** The integrity the schema declares (unique emails, no dangling foreign key) and the
      ranges the storage imposes. SQLite enforces only the unique email: foreign keys are
      off by default, so the two foreign keys hold because the handlers check existence
      and delete by cascade. */
  predicate Consistent(t: Tables) {
    EmailsUnique(t.customers) && InvoicesHaveCustomers(t) && ItemsHaveInvoices(t) && StoredValuesFit(t)
  }

  /** Some rowid is not yet used by a table whose rowids are `keys`. */
  predicate HasFreeRowid(keys: set<Id>) {
    exists k :: 1 <= k <= MAX_INTEGER && k !in keys
  }

  /** The rowids 1 to n. */
  ghost function Rowids(n: nat): (r: set<Id>)
    ensures forall k :: k in r <==> 1 <= k <= n
    ensures |r| == n
  {
    if n == 0 then {} else Rowids(n - 1) + {n}
  }

  /** A subset is no larger than its superset. */
  lemma SubsetSize<T>(a: set<T>, b: set<T>)
    requires a <= b
    ensures |a| <= |b|
  {
    assert b == a + (b - a) && a !! (b - a);
  }

  /** A table runs out of rowids only once it holds 2^63 - 1 rows. */
  lemma RoomForRowid(keys: set<Id>)
    requires |keys| < MAX_INTEGER
    ensures HasFreeRowid(keys)
  {
    var all := Rowids(MAX_INTEGER);
    var used := all * keys;
    SubsetSize(used, keys);
    assert all == used + (all - used) && used !! (all - used);
    assert |all - used| > 0;
    var k :| k in all - used;
    assert 1 <= k <= MAX_INTEGER && k !in keys;
  }

  /** Under the unique constraint an email identifies at most one customer. */
  lemma EmailIdentifiesCustomer(customers: map<Id, Customer>, email: string)
    requires EmailsUnique(customers)
    ensures |set c | c in customers && customers[c].email == email| <= 1
  {
    var holders := set c | c in customers && customers[c].email == email;
    if c :| c in holders {
      assert forall d :: d in holders ==> d == c;
      assert holders == {c};
    } else {
      assert forall d :: d !in holders;
      assert holders == {};
    }
  }

  /** In a consistent database an invoice belongs to exactly one customer, the one its
      foreign key names, and it is among that customer's backref `invoices`. */
  lemma InvoiceHasOneCustomer(t: Tables, i: Id, c: Id)
    requires Consistent(t) && i in t.invoices
    ensures t.invoices[i].customer in t.customers
    ensures i in InvoicesOf(t.invoices, c) <==> c == t.invoices[i].customer
  {
  }

  /** In a consistent database an item belongs to exactly one invoice, the one its
      foreign key names, and it is among that invoice's backref `items`. */
  lemma ItemHasOneInvoice(t: Tables, k: Id, i: Id)
    requires Consistent(t) && k in t.items
    ensures t.items[k].invoice in t.invoices
    ensures k in ItemsOf(t.items, i) <==> i == t.items[k].invoice
  {
  }

  /** `delete_instance(recursive=True)` on an invoice: the invoice goes, and so does every
      item whose foreign key points at it; every other row stays as it was. */
  function DeleteInvoiceCascade(t: Tables, id: Id): (r: Tables)
    ensures r.customers == t.customers
    ensures forall i :: i in r.invoices <==> i in t.invoices && i != id
    ensures forall i :: i in r.invoices ==> r.invoices[i] == t.invoices[i]
    ensures forall k :: k in r.items <==> k in t.items && t.items[k].invoice != id
    ensures forall k :: k in r.items ==> r.items[k] == t.items[k]
    ensures Consistent(t) ==> Consistent(r)
  {
    Tables(t.customers, t.invoices - {id}, t.items - ItemsOf(t.items, id))
  }

  /** `delete_instance(recursive=True)` on a customer: the customer goes, and so does every
      invoice whose foreign key points at it and every item whose invoice is one of those;
      every other row stays as it was. */
  function DeleteCustomerCascade(t: Tables, id: Id): (r: Tables)
    ensures forall c :: c in r.customers <==> c in t.customers && c != id
    ensures forall c :: c in r.customers ==> r.customers[c] == t.customers[c]
    ensures forall i :: i in r.invoices <==> i in t.invoices && t.invoices[i].customer != id
    ensures forall i :: i in r.invoices ==> r.invoices[i] == t.invoices[i]
    ensures forall k :: k in r.items <==>
      k in t.items && !(t.items[k].invoice in t.invoices && t.invoices[t.items[k].invoice].customer == id)
    ensures forall k :: k in r.items ==> r.items[k] == t.items[k]
    ensures Consistent(t) ==> Consistent(r)
  {
    var gone := InvoicesOf(t.invoices, id);
    Tables(t.customers - {id}, t.invoices - gone, t.items - ItemsOfAny(t.items, gone))
  }

  /** Deletes the invoices `ids`, one after another, each with its items. */
  function DeleteInvoicesInTurn(t: Tables, ids: seq<Id>): Tables
    decreases |ids|
  {
    if ids == [] then t else DeleteInvoicesInTurn(DeleteInvoiceCascade(t, ids[0]), ids[1..])
  }

  /** Deleting invoices one after another removes exactly those invoices and their items. */
  lemma {:induction false} DeleteInvoicesInTurnRemoves(t: Tables, ids: seq<Id>)
    ensures var gone := set i | i in ids;
      DeleteInvoicesInTurn(t, ids) == Tables(t.customers, t.invoices - gone, t.items - ItemsOfAny(t.items, gone))
    decreases |ids|
  {
    var gone := set i | i in ids;
    if ids == [] {
      assert gone == {};
      assert t.invoices - gone == t.invoices;
      assert t.items - ItemsOfAny(t.items, gone) == t.items;
    } else {
      var t1 := DeleteInvoiceCascade(t, ids[0]);
      var rest := set i | i in ids[1..];
      DeleteInvoicesInTurnRemoves(t1, ids[1..]);
      assert gone == {ids[0]} + rest;
      assert t1.invoices - rest == t.invoices - gone;
      assert t1.items - ItemsOfAny(t1.items, rest) == t.items - ItemsOfAny(t.items, gone);
    }
  }

  /** The recursive delete is transitive: deleting a customer removes the same invoices and
      items as deleting each of its invoices in turn (in any order), and then the customer. */
  lemma DeleteCustomerIsDeletingItsInvoices(t: Tables, c: Id, ids: seq<Id>)
    requires (set i | i in ids) == InvoicesOf(t.invoices, c)
    ensures var r := DeleteInvoicesInTurn(t, ids);
      DeleteCustomerCascade(t, c) == Tables(r.customers - {c}, r.invoices, r.items)
  {
    DeleteInvoicesInTurnRemoves(t, ids);
  }
}
