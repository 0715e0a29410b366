/** The request handlers of app.py over the three tables of models.py. Each mutating
    handler is a method of `InvoiceStore` returning the HTTP status it produces; each
    read handler is a function returning the row (with the rows its foreign keys
    name, as `model_to_dict` expands them), a 404, or the 500 of an id the database
    driver cannot bind. */
module App {
  import opened Wrappers
  import opened Models

  const OK := 200
  const CREATED := 201
  const BAD_REQUEST := 400
  const NOT_FOUND := 404
  /** An exception the handler does not catch, which the framework answers with 500. */
  const SERVER_ERROR := 500

  /** The JSON body of a customer request; None stands for a key the body lacks. */
  datatype CustomerData = CustomerData(name: Option<string>, email: Option<string>)

  /** The JSON body of an invoice request. */
  datatype InvoiceData = InvoiceData(customerId: Option<Id>, date: Option<Date>)

  /** The JSON body of an item request. */
  datatype ItemData = ItemData(
    invoiceId: Option<Id>, description: Option<string>, quantity: Option<int>, price: Option<Price>)

  /** A customer as a response shows it. */
  datatype CustomerView = CustomerView(id: Id, name: string, email: string)

  /** An invoice as a response shows it, its customer expanded. */
  datatype InvoiceView = InvoiceView(id: Id, customer: CustomerView, date: Date)

  /** An item as a response shows it, its invoice (and that invoice's customer) expanded. */
  datatype ItemView = ItemView(id: Id, invoice: InvoiceView, description: string, quantity: int, price: Price)

  /** What a read by id answers: the row (200), no such row (404), or an id outside
      SQLite's INTEGER, whose OverflowError the handler does not catch (500). */
  datatype Lookup<T> = Found(view: T) | Missing | Unbindable

  class InvoiceStore {
    var customers: map<Id, Customer>
    var invoices: map<Id, Invoice>
    var items: map<Id, Item>

    /** The database as a value. */
    function Snapshot(): Tables
      reads this
    {
      Tables(customers, invoices, items)
    }

    /** The store keeps the integrity the schema declares. */
    predicate Valid()
      reads this
    {
      Consistent(Snapshot())
    }

    /** A freshly created database. */
    constructor ()
      ensures Valid()
      ensures customers == map[] && invoices == map[] && items == map[]
    {
      customers, invoices, items := map[], map[], map[];
    }

    // ---- reads ----
    // A route's `<int:id>` matches digits only, so a URL id is never negative;
    // `Id` is kept as `int` because the same range test also guards the
    // `customer_id` and `invoice_id` a request body carries, which can be.

    /** Customer `c` as `model_to_dict` shows it. */
    function CustomerViewOf(c: Id): CustomerView
      requires c in customers
      reads this
    {
      CustomerView(c, customers[c].name, customers[c].email)
    }

    /** Invoice `i` as `model_to_dict` shows it, its customer expanded. */
    function InvoiceViewOf(i: Id): InvoiceView
      requires Valid() && i in invoices
      reads this
    {
      InvoiceView(i, CustomerViewOf(invoices[i].customer), invoices[i].date)
    }

    /** GET /customers/<id>: 500 for an id beyond INTEGER, 404 when no customer has it. */
    function GetCustomer(id: Id): (r: Lookup<CustomerView>)
      reads this
      ensures r.Unbindable? <==> !FitsInteger(id)
      ensures r.Missing? <==> FitsInteger(id) && id !in customers
      ensures r.Found? ==> (id in customers && r.view.id == id
        && r.view.name == customers[id].name && r.view.email == customers[id].email)
    {
      if !FitsInteger(id) then Unbindable
      else if id in customers then Found(CustomerViewOf(id))
      else Missing
    }

    /** GET /customers: every customer, each as GET /customers/<id> shows it. */
    function ListCustomers(): (r: map<Id, CustomerView>)
      requires Valid()
      reads this
      ensures r.Keys == customers.Keys
      ensures forall c :: c in r ==> GetCustomer(c) == Found(r[c])
    {
      map c | c in customers :: CustomerViewOf(c)
    }

    /** GET /invoices/<id>: 500 for an id beyond INTEGER, 404 when no invoice has it;
        otherwise the invoice with the customer its foreign key names. */
    function GetInvoice(id: Id): (r: Lookup<InvoiceView>)
      requires Valid()
      reads this
      ensures r.Unbindable? <==> !FitsInteger(id)
      ensures r.Missing? <==> FitsInteger(id) && id !in invoices
      ensures r.Found? ==> id in invoices && r.view.id == id && r.view.date == invoices[id].date
      ensures r.Found? ==> GetCustomer(invoices[id].customer) == Found(r.view.customer)
    {
      if !FitsInteger(id) then Unbindable
      else if id in invoices then Found(InvoiceViewOf(id))
      else Missing
    }

    /** GET /invoices: every invoice, each as GET /invoices/<id> shows it. */
    function ListInvoices(): (r: map<Id, InvoiceView>)
      requires Valid()
      reads this
      ensures r.Keys == invoices.Keys
      ensures forall i :: i in r ==> GetInvoice(i) == Found(r[i])
    {
      map i | i in invoices :: InvoiceViewOf(i)
    }

    /** GET /items/<id>: 500 for an id beyond INTEGER, 404 when no item has it; otherwise
        the item with the invoice its foreign key names. */
    function GetItem(id: Id): (r: Lookup<ItemView>)
      requires Valid()
      reads this
      ensures r.Unbindable? <==> !FitsInteger(id)
      ensures r.Missing? <==> FitsInteger(id) && id !in items
      ensures r.Found? ==> (id in items && r.view.id == id && r.view.description == items[id].description
        && r.view.quantity == items[id].quantity && r.view.price == items[id].price)
      ensures r.Found? ==> GetInvoice(items[id].invoice) == Found(r.view.invoice)
    {
      if !FitsInteger(id) then Unbindable
      else if id in items then
        var item := items[id];
        Found(ItemView(id, InvoiceViewOf(item.invoice), item.description, item.quantity, item.price))
      else Missing
    }

    /** GET /items: every item, each as GET /items/<id> shows it. */
    function ListItems(): (r: map<Id, ItemView>)
      requires Valid()
      reads this
      ensures r.Keys == items.Keys
      ensures forall k :: k in r ==> GetItem(k) == Found(r[k])
    {
      map k | k in items ::
        var item := items[k];
        ItemView(k, InvoiceViewOf(item.invoice), item.description, item.quantity, item.price)
    }

    // ---- customers ----

    /** POST /customers: 201 with a new row when both keys are present, the email is
        unused and the table has a rowid left; otherwise 400 and nothing changes. */
    method CreateCustomer(data: CustomerData) returns (status: int, id: Id)
      requires Valid()
      modifies this
      ensures Valid()
      ensures status == CREATED || status == BAD_REQUEST
      ensures status == CREATED <==> (data.name.Some? && data.email.Some?
        && !EmailTaken(old(customers), data.email.value) && HasFreeRowid(old(customers).Keys))
      ensures status == CREATED ==> (IsRowid(id) && id !in old(customers)
        && customers == old(customers)[id := Customer(data.name.value, data.email.value)])
      ensures status == CREATED ==> GetCustomer(id) == Found(CustomerView(id, data.name.value, data.email.value))
      ensures status == BAD_REQUEST ==> customers == old(customers)
      ensures invoices == old(invoices) && items == old(items)
    {
      if data.name.None? || data.email.None? || EmailTaken(customers, data.email.value)
        || !HasFreeRowid(customers.Keys)
      {
        return BAD_REQUEST, 0;
      }
      id :| 1 <= id <= MAX_INTEGER && id !in customers.Keys;
      customers := customers[id := Customer(data.name.value, data.email.value)];
      status := CREATED;
    }

    /** PUT /customers/<id>: 500 for an id beyond INTEGER, 404 for an unknown one;
        otherwise each present key replaces its field and an absent one keeps it.
        Saving an email another customer has violates the unique constraint, which the
        handler does not catch. */
    method UpdateCustomer(id: Id, data: CustomerData) returns (status: int)
      requires Valid()
      modifies this
      ensures Valid()
      ensures status in {OK, NOT_FOUND, SERVER_ERROR}
      ensures status == NOT_FOUND <==> FitsInteger(id) && id !in old(customers)
      ensures status == SERVER_ERROR <==> (!FitsInteger(id) || (id in old(customers)
        && EmailTakenByOther(old(customers), data.email.GetOr(old(customers)[id].email), id)))
      ensures status == OK ==> customers == old(customers)[id :=
        Customer(data.name.GetOr(old(customers)[id].name), data.email.GetOr(old(customers)[id].email))]
      ensures status != OK ==> customers == old(customers)
      ensures invoices == old(invoices) && items == old(items)
    {
      if !FitsInteger(id) {
        return SERVER_ERROR;
      }
      if id !in customers {
        return NOT_FOUND;
      }
      var customer := customers[id];
      customer := customer.(name := data.name.GetOr(customer.name));
      customer := customer.(email := data.email.GetOr(customer.email));
      if EmailTakenByOther(customers, customer.email, id) {
        return SERVER_ERROR;
      }
      customers := customers[id := customer];
      status := OK;
    }

    /** DELETE /customers/<id>: 500 for an id beyond INTEGER, 404 for an unknown one;
        otherwise the customer, its invoices and their items go, and nothing else. */
    method DeleteCustomer(id: Id) returns (status: int)
      requires Valid()
      modifies this
      ensures Valid()
      ensures status == (if !FitsInteger(id) then SERVER_ERROR else if id in old(customers) then OK else NOT_FOUND)
      ensures Snapshot() == if status == OK then DeleteCustomerCascade(old(Snapshot()), id) else old(Snapshot())
      ensures !GetCustomer(id).Found?
      ensures forall i :: i in InvoicesOf(old(invoices), id) ==> !GetInvoice(i).Found?
      ensures forall k :: k in ItemsOfAny(old(items), InvoicesOf(old(invoices), id)) ==> !GetItem(k).Found?
    {
      if !FitsInteger(id) {
        return SERVER_ERROR;
      }
      if id !in customers {
        return NOT_FOUND;
      }
      var gone := InvoicesOf(invoices, id);
      items := items - ItemsOfAny(items, gone);
      invoices := invoices - gone;
      customers := customers - {id};
      status := OK;
    }

    // ---- invoices ----

    /** POST /invoices: 201 with a new invoice of the named customer, dated `date` or,
        when the body has none, `today`; 400 when that customer does not exist. A body
        without `customer_id`, a `customer_id` beyond INTEGER and a table without a free
        rowid raise exceptions the handler does not catch. */
    method CreateInvoice(data: InvoiceData, today: Date) returns (status: int, id: Id)
      requires Valid()
      modifies this
      ensures Valid()
      ensures status == (if data.customerId.None? || !FitsInteger(data.customerId.value) then SERVER_ERROR
                         else if data.customerId.value !in old(customers) then BAD_REQUEST
                         else if !HasFreeRowid(old(invoices).Keys) then SERVER_ERROR
                         else CREATED)
      ensures status == CREATED ==> (IsRowid(id) && id !in old(invoices)
        && invoices == old(invoices)[id := Invoice(data.customerId.value, data.date.GetOr(today))])
      ensures status == CREATED ==> (GetInvoice(id).Found? && GetInvoice(id).view.date == data.date.GetOr(today)
        && GetCustomer(data.customerId.value) == Found(GetInvoice(id).view.customer))
      ensures status != CREATED ==> invoices == old(invoices)
      ensures customers == old(customers) && items == old(items)
    {
      if data.customerId.None? || !FitsInteger(data.customerId.value) {
        return SERVER_ERROR, 0;
      }
      if data.customerId.value !in customers {
        return BAD_REQUEST, 0;
      }
      if !HasFreeRowid(invoices.Keys) {
        return SERVER_ERROR, 0;
      }
      id :| 1 <= id <= MAX_INTEGER && id !in invoices.Keys;
      invoices := invoices[id := Invoice(data.customerId.value, data.date.GetOr(today))];
      status := CREATED;
    }

    /** PUT /invoices/<id>: `customer` changes only when `customer_id` is present and `date`
        only when `date` is. Every failure, an unknown invoice or an unknown new customer
        alike (an id beyond INTEGER among them), is 400 and nothing is saved. */
    method UpdateInvoice(id: Id, data: InvoiceData) returns (status: int)
      requires Valid()
      modifies this
      ensures Valid()
      ensures status == OK || status == BAD_REQUEST
      ensures status == BAD_REQUEST <==> (!FitsInteger(id) || id !in old(invoices)
        || (data.customerId.Some? && (!FitsInteger(data.customerId.value) || data.customerId.value !in old(customers))))
      ensures status == OK ==> invoices == old(invoices)[id :=
        Invoice(data.customerId.GetOr(old(invoices)[id].customer), data.date.GetOr(old(invoices)[id].date))]
      ensures status == BAD_REQUEST ==> invoices == old(invoices)
      ensures customers == old(customers) && items == old(items)
    {
      if !FitsInteger(id) || id !in invoices {
        return BAD_REQUEST;
      }
      var invoice := invoices[id];
      if data.customerId.Some? {
        if !FitsInteger(data.customerId.value) || data.customerId.value !in customers {
          return BAD_REQUEST;
        }
        invoice := invoice.(customer := data.customerId.value);
      }
      if data.date.Some? {
        invoice := invoice.(date := data.date.value);
      }
      invoices := invoices[id := invoice];
      status := OK;
    }

    /** DELETE /invoices/<id>: 500 for an id beyond INTEGER, 404 for an unknown one;
        otherwise the invoice and exactly its items go. */
    method DeleteInvoice(id: Id) returns (status: int)
      requires Valid()
      modifies this
      ensures Valid()
      ensures status == (if !FitsInteger(id) then SERVER_ERROR else if id in old(invoices) then OK else NOT_FOUND)
      ensures Snapshot() == if status == OK then DeleteInvoiceCascade(old(Snapshot()), id) else old(Snapshot())
      ensures !GetInvoice(id).Found?
      ensures forall k :: k in ItemsOf(old(items), id) ==> !GetItem(k).Found?
    {
      if !FitsInteger(id) {
        return SERVER_ERROR;
      }
      if id !in invoices {
        return NOT_FOUND;
      }
      items := items - ItemsOf(items, id);
      invoices := invoices - {id};
      status := OK;
    }

    // ---- items ----

    /** POST /items: 201 with a new item of the named invoice when that invoice exists,
        description, quantity and price are all present, the ids and the quantity are
        INTEGERs and the table has a rowid left; otherwise 400 and no item. */
    method CreateItem(data: ItemData) returns (status: int, id: Id)
      requires Valid()
      modifies this
      ensures Valid()
      ensures status == CREATED || status == BAD_REQUEST
      ensures status == CREATED <==> (data.invoiceId.Some? && FitsInteger(data.invoiceId.value)
        && data.invoiceId.value in old(invoices)
        && data.description.Some? && data.quantity.Some? && FitsInteger(data.quantity.value) && data.price.Some?
        && HasFreeRowid(old(items).Keys))
      ensures status == CREATED ==> (IsRowid(id) && id !in old(items) && items == old(items)[id :=
        Item(data.invoiceId.value, data.description.value, data.quantity.value, data.price.value)])
      ensures status == CREATED ==> (GetItem(id).Found? && GetInvoice(data.invoiceId.value) == Found(GetItem(id).view.invoice))
      ensures status == BAD_REQUEST ==> items == old(items)
      ensures customers == old(customers) && invoices == old(invoices)
    {
      if data.invoiceId.None? || !FitsInteger(data.invoiceId.value) || data.invoiceId.value !in invoices
        || data.description.None? || data.quantity.None? || data.price.None?
        || !FitsInteger(data.quantity.value) || !HasFreeRowid(items.Keys)
      {
        return BAD_REQUEST, 0;
      }
      id :| 1 <= id <= MAX_INTEGER && id !in items.Keys;
      items := items[id := Item(data.invoiceId.value, data.description.value, data.quantity.value, data.price.value)];
      status := CREATED;
    }

    /** PUT /items/<id>: each present key among description, quantity and price replaces
        its field and an absent one keeps it; the invoice never changes. An unknown id,
        an id beyond INTEGER and a quantity beyond INTEGER are 400 with nothing saved. */
    method UpdateItem(id: Id, data: ItemData) returns (status: int)
      requires Valid()
      modifies this
      ensures Valid()
      ensures status == OK || status == BAD_REQUEST
      ensures status == OK <==> (FitsInteger(id) && id in old(items)
        && (data.quantity.Some? ==> FitsInteger(data.quantity.value)))
      ensures status == OK ==> items == old(items)[id := Item(old(items)[id].invoice,
        data.description.GetOr(old(items)[id].description), data.quantity.GetOr(old(items)[id].quantity),
        data.price.GetOr(old(items)[id].price))]
      ensures status == BAD_REQUEST ==> items == old(items)
      ensures customers == old(customers) && invoices == old(invoices)
    {
      if !FitsInteger(id) || id !in items {
        return BAD_REQUEST;
      }
      var item := items[id];
      item := item.(description := data.description.GetOr(item.description));
      item := item.(quantity := data.quantity.GetOr(item.quantity));
      item := item.(price := data.price.GetOr(item.price));
      if !FitsInteger(item.quantity) {
        return BAD_REQUEST;
      }
      items := items[id := item];
      status := OK;
    }

    /** DELETE /items/<id>: 500 for an id beyond INTEGER, 404 for an unknown one;
        otherwise only that item goes. */
    method DeleteItem(id: Id) returns (status: int)
      requires Valid()
      modifies this
      ensures Valid()
      ensures status == (if !FitsInteger(id) then SERVER_ERROR else if id in old(items) then OK else NOT_FOUND)
      ensures items == (if status == OK then old(items) - {id} else old(items))
      ensures !GetItem(id).Found?
      ensures customers == old(customers) && invoices == old(invoices)
    {
      if !FitsInteger(id) {
        return SERVER_ERROR;
      }
      if id !in items {
        return NOT_FOUND;
      }
      items := items - {id};
      status := OK;
    }
  }
}
