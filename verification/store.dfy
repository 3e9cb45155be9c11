/** The relational store behind both the chatbot actions and the HTTP API,
    as in-memory tables in storage order, with the order lookup and the
    complaint insert that `DatabaseManager` performs against it. */
module Store {
  import opened Outcomes

  /** A row of `products`: the 7-tuple `(id, name, brand, price, quantity, rating, tags)`. */
  datatype Product = Product(
    id: int, name: string, brand: string, price: real,
    quantity: int, rating: real, tags: string)

  datatype User = User(id: int, name: string, email: string, address: string)

  datatype Order = Order(
    id: int, userId: int, shippingAddress: string, amount: real,
    status: string, createdTime: string)

  datatype Complaint = Complaint(
    id: int, orderId: int, userId: int, status: string,
    topic: string, description: string, createdAt: string)

  /** The tables, plus SQLite's AUTOINCREMENT high-water mark for `complaints`. */
  datatype Db = Db(
    products: seq<Product>, users: seq<User>, orders: seq<Order>,
    complaints: seq<Complaint>, complaintSeq: int)

  /** A row of `SELECT o.*, u.name, u.email FROM orders o JOIN users u ...`. */
  datatype OrderRow = OrderRow(order: Order, userName: string, userEmail: string)

  /** User and order ids are unique and users' e-mails are unique (the
      schema's `PRIMARY KEY` and `UNIQUE` constraints): what the order
      lookup relies on. */
  ghost predicate AccountsKeyed(db: Db) {
    && (forall i, j :: 0 <= i < j < |db.users| ==>
          db.users[i].id != db.users[j].id && db.users[i].email != db.users[j].email)
    && (forall i, j :: 0 <= i < j < |db.orders| ==> db.orders[i].id != db.orders[j].id)
  }

  /** All the schema's keys: `AccountsKeyed`, complaint ids unique, and none
      above the AUTOINCREMENT high-water mark. */
  ghost predicate Keyed(db: Db) {
    && AccountsKeyed(db)
    && (forall i, j :: 0 <= i < j < |db.complaints| ==> db.complaints[i].id != db.complaints[j].id)
    && (forall i :: 0 <= i < |db.complaints| ==> db.complaints[i].id <= db.complaintSeq)
  }

  /** The order `o` belongs to the user `u`, and they match the lookup keys. */
  predicate OrderMatches(o: Order, u: User, orderId: int, email: string) {
    o.id == orderId && o.userId == u.id && u.email == email
  }

  function UsersOf(users: seq<User>, o: Order, orderId: int, email: string): (r: seq<OrderRow>)
    ensures forall k :: 0 <= k < |r| ==>
      r[k].order == o
      && (exists u :: u in users && OrderMatches(o, u, orderId, email)
            && r[k] == OrderRow(o, u.name, u.email))
    ensures |r| == 0 <==> forall u :: u in users ==> !OrderMatches(o, u, orderId, email)
  {
    if |users| == 0 then []
    else
      var rest := UsersOf(users[1..], o, orderId, email);
      if OrderMatches(o, users[0], orderId, email)
      then [OrderRow(o, users[0].name, users[0].email)] + rest
      else rest
  }

  /** All rows of the join that satisfy `o.id = ? AND u.email = ?`. */
  function Joined(db: Db, orders: seq<Order>, orderId: int, email: string): (r: seq<OrderRow>)
    ensures forall k :: 0 <= k < |r| ==>
      r[k].order in orders
      && (exists u :: u in db.users && OrderMatches(r[k].order, u, orderId, email)
            && r[k] == OrderRow(r[k].order, u.name, u.email))
    ensures |r| == 0 <==>
      forall o, u :: o in orders && u in db.users ==> !OrderMatches(o, u, orderId, email)
  {
    if |orders| == 0 then []
    else UsersOf(db.users, orders[0], orderId, email) + Joined(db, orders[1..], orderId, email)
  }

  /** `DatabaseManager.get_order_status`: the first joined row, or `None`. */
  function LookupOrder(db: Db, orderId: int, email: string): (r: Option<OrderRow>)
    ensures r.None? <==>
      forall o, u :: o in db.orders && u in db.users ==> !OrderMatches(o, u, orderId, email)
    ensures r.Some? ==>
      r.value.order in db.orders && r.value.order.id == orderId && r.value.userEmail == email
      && exists u :: u in db.users && OrderMatches(r.value.order, u, orderId, email)
           && r.value.userName == u.name
  {
    var rows := Joined(db, db.orders, orderId, email);
    if |rows| == 0 then None else Some(rows[0])
  }

  /** With unique keys the row `fetchone` returns does not depend on the
      join's row order: it is the one matching pair. */
  lemma LookupOrderUnique(db: Db, o: Order, u: User, orderId: int, email: string)
    requires AccountsKeyed(db)
    requires o in db.orders && u in db.users && OrderMatches(o, u, orderId, email)
    ensures LookupOrder(db, orderId, email) == Some(OrderRow(o, u.name, u.email))
  {
    var r := LookupOrder(db, orderId, email).value;
    var u' :| u' in db.users && OrderMatches(r.order, u', orderId, email) && r.userName == u'.name;
    var i :| 0 <= i < |db.orders| && db.orders[i] == o;
    var j :| 0 <= j < |db.orders| && db.orders[j] == r.order;
    var a :| 0 <= a < |db.users| && db.users[a] == u;
    var b :| 0 <= b < |db.users| && db.users[b] == u';
  }

  /** `SELECT id FROM users WHERE email = ?` with `fetchone`: the first
      user in storage order whose e-mail is exactly `email`. */
  function FindUser(users: seq<User>, email: string): (r: Option<User>)
    ensures r.None? <==> forall u :: u in users ==> u.email != email
    ensures r.Some? ==>
      (exists k :: 0 <= k < |users| && users[k] == r.value && r.value.email == email
         && forall k' :: 0 <= k' < k ==> users[k'].email != email)
  {
    if |users| == 0 then None
    else if users[0].email == email then Some(users[0])
    else
      var r := FindUser(users[1..], email);
      if r.None? then r
      else
        var k :| 0 <= k < |users[1..]| && users[1..][k] == r.value
          && r.value.email == email && forall k' :: 0 <= k' < k ==> users[1..][k'].email != email;
        assert users[k + 1] == r.value;
        r
  }

  function MaxComplaintId(cs: seq<Complaint>): (m: int)
    ensures forall c :: c in cs ==> c.id <= m
  {
    if |cs| == 0 then 0
    else
      var m := MaxComplaintId(cs[1..]);
      if cs[0].id > m then cs[0].id else m
  }

  /** The rowid SQLite's AUTOINCREMENT hands out next: one past both the
      largest id in the table and the largest ever handed out. */
  function NextComplaintId(db: Db): (id: int)
    ensures forall c :: c in db.complaints ==> c.id < id
    ensures db.complaintSeq < id
  {
    var m := MaxComplaintId(db.complaints);
    (if m > db.complaintSeq then m else db.complaintSeq) + 1
  }

  /** What `create_complaint` leaves behind: the store and the new id, if any. */
  datatype Filed = Filed(db: Db, id: Option<int>)

  /** `DatabaseManager.create_complaint`: resolve the user by e-mail; if there
      is none, return `None` and insert nothing; otherwise insert one row with
      status `'open'` and return its new id. `now` stands for `datetime.now()`. */
  function CreateComplaint(db: Db, orderId: int, email: string, topic: string,
                           description: string, now: string): (r: Filed)
    ensures r.id.None? <==> forall u :: u in db.users ==> u.email != email
    ensures r.id.None? ==> r.db == db
    ensures r.id.Some? ==>
      exists u :: u in db.users && u.email == email
        && r.db.complaints == db.complaints
             + [Complaint(r.id.value, orderId, u.id, "open", topic, description, now)]
    ensures r.id.Some? ==> forall c :: c in db.complaints ==> c.id != r.id.value
    ensures r.db.products == db.products && r.db.users == db.users && r.db.orders == db.orders
  {
    match FindUser(db.users, email)
    case None => Filed(db, None)
    case Some(u) =>
      var id := NextComplaintId(db);
      var row := Complaint(id, orderId, u.id, "open", topic, description, now);
      Filed(db.(complaints := db.complaints + [row], complaintSeq := id), Some(id))
  }

  /** The order id is stored as given: whether a complaint is filed, and for
      whom, does not depend on it (no ownership check). */
  lemma ComplaintIgnoresOrder(db: Db, o1: int, o2: int, email: string, topic: string,
                              description: string, now: string)
    ensures CreateComplaint(db, o1, email, topic, description, now).id
         == CreateComplaint(db, o2, email, topic, description, now).id
    ensures CreateComplaint(db, o1, email, topic, description, now).id.Some? ==>
      CreateComplaint(db, o1, email, topic, description, now).db.complaints[|db.complaints|].userId
      == CreateComplaint(db, o2, email, topic, description, now).db.complaints[|db.complaints|].userId
  {
  }

  /** Filing keeps every key unique: the new complaint's id differs from all
      earlier ones and the high-water mark moves up to it. */
  lemma CreateComplaintKeepsKeys(db: Db, orderId: int, email: string, topic: string,
                                 description: string, now: string)
    requires Keyed(db)
    ensures Keyed(CreateComplaint(db, orderId, email, topic, description, now).db)
    ensures var r := CreateComplaint(db, orderId, email, topic, description, now);
      r.id.Some? ==> NextComplaintId(r.db) > r.id.value
  {
  }
}
