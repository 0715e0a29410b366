# Invoices API: a Dafny model of the invoice store

This project models the invoicing REST API of the Invoices-Api repository: the
three tables declared in `models.py` (Customer, Invoice, Item) and the request
handlers of `app.py` that create, read, update and delete their rows.

- `wrappers.dfy` (module `Wrappers`): `Option`, which stands for a key a
  request body may lack.
- `models.dfy` (module `Models`): one datatype per table row, the database as
  three maps from rowid to row (`Tables`), the backrefs `customer.invoices`
  and `invoice.items` (`InvoicesOf`, `ItemsOf`), the integrity the schema
  declares (`EmailsUnique` for the unique email column, `InvoicesHaveCustomers`
  and `ItemsHaveInvoices` for the two foreign keys, together `Consistent`),
  and what `delete_instance(recursive=True)` removes for this schema. SQLite
  itself enforces only the unique email: peewee leaves `PRAGMA foreign_keys`
  off, so the two foreign keys hold only because the handlers check that the
  referenced row exists before they insert or save, and delete by cascade.
- `app.dfy` (module `App`): the class `InvoiceStore`. It holds the three tables
  as `map` fields. Its invariant `Valid()` is `Consistent`. Each of the nine
  mutating handlers is a method that returns the HTTP status the handler
  produces (and, for a create, the new rowid). Each method states the whole
  new state of the three tables. The six read handlers are functions. A single
  read returns a `Lookup`: `Found`, `Missing` for 404, or `Unbindable` for an
  id beyond INTEGER. A list returns a map of rows.

Each row datatype carries exactly the fields of its peewee model, with the
same types (models.py:11-25): `Customer(name, email)` has two strings.
`Invoice(customer, date)` has the customer's rowid and a `Date`.
`Item(invoice, description, quantity, price)` has the invoice's rowid, a
string, an `int` and an abstract `Price`. The primary key is the `Id` under
which the row sits in its table's map.

The ORM calls become map operations. `get_by_id` is a key lookup. `create`
inserts under a rowid from 1 to 2^63 - 1 that the table does not yet use. The
model chooses it nondeterministically. When no rowid is left the insert
fails; the lemma `RoomForRowid` shows that this happens only once the table
holds 2^63 - 1 rows. `save` overwrites the row. `delete_instance(recursive=True)`
removes the row and every row whose foreign key points at it, transitively.

SQLite's INTEGER is a signed 64-bit value (`FitsInteger`), and Python's
sqlite3 driver raises OverflowError for an int outside it. peewee passes that
exception on. Where a handler catches only `DoesNotExist`, such an id
becomes 500 (`Unbindable` for a read, `SERVER_ERROR` for a method). Where it
has a bare `except:`, the id, or a `quantity` that is out of range, becomes
400. Flask's `<int:id>` converter matches digits only, so an id taken from a
URL is never negative and can fall outside INTEGER only above 2^63 - 1. The
lower bound matters only for a `customer_id` or `invoice_id` in a body.

An exception that a handler does not catch becomes status 500 with no change
(`SERVER_ERROR`). This covers a duplicate email saved by `update_customer` and
a body without `customer_id` in `create_invoice`. The bare `except:` in
`update_invoice` and `update_item` turns an unknown id into 400, not 404, and
the model follows it.

A read returns what `model_to_dict` gives with its defaults: the row, and the
rows its foreign keys name, expanded. An invoice carries its customer. An item
carries its invoice, and that invoice carries its customer. A customer is flat,
since backrefs are not followed. `Missing` stands for the 404 answer.

Some of what the code does is unlike a conventional REST API, and the model
keeps it:
- `PUT /invoices/<id>` and `PUT /items/<id>` answer an unknown id with 400, not 404.
- `PUT /customers/<id>` can also fail with 500, on a duplicate email.
- `POST /invoices` creates no items; a body's `items` key is ignored.
- `POST /items` requires `quantity`; there is no implicit quantity of 1.
- `GET /invoices/<id>` does not include the invoice's items.
- There is no bearer-token check: `app.py:176` is only a comment.

## Model

| member | source | states |
|---|---|---|
| `Models.FitsInteger` | app.py:36 | an int the sqlite3 driver can bind as an INTEGER, from -2^63 to 2^63 - 1; any other raises OverflowError, which decides the 500 or 400 outcomes of the handlers |
| `Models.HasFreeRowid` | app.py:21 | `create` can insert only while some rowid from 1 to 2^63 - 1 is unused by the table |
| `Models.EmailTaken` | app.py:21 | the insert of `create_customer` violates the unique email when some customer already has that email |
| `Models.EmailTakenByOther` | app.py:49 | the `save` of `update_customer` violates the unique email when a customer other than the one saved has that email |
| `Models.ItemsOfAny` | app.py:59 | the items whose invoice is any of the given invoices, the `IN` subquery the customer cascade deletes by |
| `App.InvoiceStore.CustomerViewOf` | app.py:37 | `model_to_dict` of a customer: its id, name and email |
| `App.InvoiceStore.InvoiceViewOf` | app.py:88 | `model_to_dict` of an invoice with `recurse=True`: its id and date, with its customer expanded |
| `Models.EmailsUnique` | models.py:13 | the unique constraint: no two customers share an email |
| `Models.EmailIdentifiesCustomer` | models.py:13 | under the unique constraint at most one customer has a given email |
| `Models.InvoicesOf` | models.py:17 | the backref `invoices`: the invoices whose `customer` is the given id |
| `Models.ItemsOf` | models.py:22 | the backref `items`: the items whose `invoice` is the given id |
| `Models.InvoicesHaveCustomers` | models.py:17 | the foreign key `customer`: every invoice's customer exists |
| `Models.ItemsHaveInvoices` | models.py:22 | the foreign key `invoice`: every item's invoice exists |
| `Models.IsRowid` | models.py:6-8 | the implicit `id` primary key every `BaseModel` table gets is SQLite's rowid; since no handler supplies an id, every rowid is one SQLite assigns, from 1 to 2^63 - 1 |
| `Models.StoredValuesFit` | models.py:6-24 | every rowid is from 1 to 2^63 - 1 (the implicit primary key) and every `quantity` fits SQLite's INTEGER (models.py:24) |
| `Models.Consistent` | models.py:11-25 | the unique email, both foreign keys and the storage ranges together |
| `Models.InvoiceHasOneCustomer` | models.py:16-17 | definitional, by unfolding `Consistent` and `InvoicesOf`: an invoice's customer exists, and the invoice is in the backref `invoices` of that customer and of no other |
| `Models.ItemHasOneInvoice` | models.py:21-22 | definitional, by unfolding `Consistent` and `ItemsOf`: an item's invoice exists, and the item is in the backref `items` of that invoice and of no other |
| `Models.DeleteInvoiceCascade` | app.py:111-112 | a recursive delete of an invoice removes exactly that invoice and the items pointing at it, leaves every other row as it was, and keeps the database consistent |
| `Models.DeleteCustomerCascade` | app.py:58-59 | a recursive delete of a customer removes exactly that customer, its invoices and their items, leaves every other row as it was, and keeps the database consistent |
| `Models.DeleteInvoicesInTurnRemoves` | app.py:111-112 | deleting a sequence of invoices one after another removes exactly those invoices and the items of any of them |
| `Models.DeleteCustomerIsDeletingItsInvoices` | app.py:58-59 | the customer cascade is transitive: it removes the same invoices and items as deleting each of the customer's invoices in turn, in any order |
| `Models.RoomForRowid` | app.py:21 | a table with fewer than 2^63 - 1 rows always has an unused rowid, so a create fails for want of one only when the table is full |
| `App.InvoiceStore.Valid` | models.py:11-25 | the store's invariant is `Consistent`; every handler method requires and keeps it |
| `App.InvoiceStore.constructor` | app.py:8 | a freshly created database has three empty tables and is consistent |
| `App.InvoiceStore.GetCustomer` | app.py:34-39 | 500 exactly for an id beyond INTEGER; 404 exactly when no customer has the id; otherwise that customer's id, name and email |
| `App.InvoiceStore.ListCustomers` | app.py:28-30 | lists every customer and no other row, each as `GetCustomer` shows it |
| `App.InvoiceStore.GetInvoice` | app.py:85-90 | 500 exactly for an id beyond INTEGER; 404 exactly when no invoice has the id; otherwise its id and date, with its customer as `GetCustomer` shows it |
| `App.InvoiceStore.ListInvoices` | app.py:79-81 | lists every invoice and no other row, each as `GetInvoice` shows it |
| `App.InvoiceStore.GetItem` | app.py:143-148 | 500 exactly for an id beyond INTEGER; 404 exactly when no item has the id; otherwise its fields, with its invoice as `GetInvoice` shows it |
| `App.InvoiceStore.ListItems` | app.py:137-139 | lists every item and no other row, each as `GetItem` shows it |
| `App.InvoiceStore.CreateCustomer` | app.py:18-24 | 201 exactly when name and email are present, no customer has that email and a rowid is free: one new row under that rowid, which then reads back with the given name and email; otherwise 400 and no change; the other tables never change; emails stay unique |
| `App.InvoiceStore.UpdateCustomer` | app.py:43-52 | 500 for an id beyond INTEGER and 404 for an unknown one, with no change; each present key replaces its field and an absent one keeps its old value; 500 and no change when the resulting email belongs to another customer; emails stay unique |
| `App.InvoiceStore.DeleteCustomer` | app.py:56-62 | 500 for an id beyond INTEGER and 404 for an unknown one, with no change; otherwise the state is the customer cascade of the old state, and the customer, its invoices and their items all stop reading back |
| `App.InvoiceStore.CreateInvoice` | app.py:68-75 | 500 without `customer_id` or with one beyond INTEGER; 400 and no invoice when that customer does not exist; 500 when no rowid is free; otherwise 201 and one new invoice under a free rowid, dated with the given date or with today when none is given, which reads back with that customer |
| `App.InvoiceStore.UpdateInvoice` | app.py:94-105 | 400 and no change for an unknown invoice or an unknown new customer, ids beyond INTEGER included; otherwise `customer` changes only when `customer_id` is present and `date` only when `date` is; foreign keys stay valid |
| `App.InvoiceStore.DeleteInvoice` | app.py:109-115 | 500 for an id beyond INTEGER and 404 for an unknown one, with no change; otherwise the state is the invoice cascade of the old state, and the invoice and its items stop reading back |
| `App.InvoiceStore.CreateItem` | app.py:121-133 | 201 exactly when the named invoice exists, description, quantity and price are all present, the invoice id and quantity fit INTEGER and a rowid is free: one new item under that rowid, which reads back with that invoice; otherwise 400 and no change |
| `App.InvoiceStore.UpdateItem` | app.py:152-162 | 400 and no change for an unknown id, an id beyond INTEGER or a new quantity beyond INTEGER; otherwise each present key among description, quantity and price replaces its field, an absent one keeps its old value, and the item's invoice never changes |
| `App.InvoiceStore.DeleteItem` | app.py:166-172 | 500 for an id beyond INTEGER and 404 for an unknown one, with no change; otherwise only that item is removed, and it stops reading back |

## Left out

- HTTP routing, `request.get_json`, `jsonify`, `abort` and the debug server: framework plumbing. Each handler takes the parsed body as a value with an `Option` per key.
- A body that is not a JSON object, a key whose value is JSON `null`, and a value that peewee cannot coerce to the column's type (a string where an int belongs, say) are not modelled. Every value arrives with its column's type. Ints beyond SQLite's INTEGER are modelled, as described above.
- App.InvoiceStore.CreateItem: a `price` of `NaN`, which `json.loads` accepts, is not modelled. SQLite stores NaN as NULL, the NOT NULL column rejects it, and the bare `except:` answers 400 where the model, whose `Price` is abstract, answers 201. A string holding a lone surrogate (`"\ud800"`) cannot be encoded for SQLite and also gives 400; a Dafny `char` cannot hold a surrogate, so that input is outside the model.
- App.InvoiceStore.UpdateItem: the same two inputs, a `NaN` price or a lone-surrogate `description`, give 400 in the source where the model answers 200. They are outside the model for the same reasons.
- App.InvoiceStore.CreateCustomer: a `name` or `email` holding a lone surrogate cannot be encoded for SQLite and gives 400 in the source. A Dafny `char` cannot hold a surrogate, so that input is outside the model.
- App.InvoiceStore.UpdateCustomer: a `name` or `email` holding a lone surrogate raises an encoding error in `customer.save()` (app.py:49), which only `DoesNotExist` is caught around, so the source answers 500. A Dafny `char` cannot hold a surrogate, so that input is outside the model.
- The JSON a mutating handler answers with is not modelled beyond its status and, for a create, the new id. The rows it shows are those the read functions return.
- App.InvoiceStore.ListCustomers: returns the rows as a map from id to row, so the order of the listed rows is not modelled.
- App.InvoiceStore.ListInvoices: returns the rows as a map from id to row, so the order of the listed rows is not modelled.
- App.InvoiceStore.ListItems: returns the rows as a map from id to row, so the order of the listed rows is not modelled.
- `db.connect()`, `create_tables` and the SQLite file are I/O. The constructor stands for a new, empty database.
- The exact rowid SQLite assigns is not modelled. It is one above the largest in use, and random once that one is 2^63 - 1. A create picks any free rowid from 1 to 2^63 - 1, and fails only when no rowid is free. SQLite's random search can give up earlier; that is not modelled.
- `price` is a float that no handler computes with. It is an abstract type, `Price`.
- `datetime.now()` is a parameter, `today`, of `CreateInvoice`. A date is stored as given; the source does not validate it either.
- invoice_pdf.py is not part of this model. It is templating, HTML-to-PDF conversion and a file write.
- Concurrency and transactions are not modelled. Each handler runs as one atomic step.

