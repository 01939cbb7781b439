/** The persistent entities the three services work on, and the database session that holds them.
    Each table is a map from identifier to record; the services reassign these maps in place. */
module Store {

  /** A primary key. The original uses random 128-bit UUIDs; only equality and freshness matter here. */
  type Id = nat

  datatype Option<T> = None | Some(value: T)

  /** The `ValueError`s the services raise, one per message. */
  datatype Error =
    | AccountNotFound     // "Account not found"
    | OrderNotFound       // "Order not found"
    | ProductNotFound     // "Product not found"
    | OrderItemNotFound   // "Order item not found"
    | JobNotFound         // "Job not found"

  datatype Result<T> = Ok(value: T) | Err(error: Error)

  /** `TransactionDirection`: the literal strings "IN" and "OUT". */
  datatype Direction = In | Out

  datatype Account = Account(name: string, balance: real)

  /** A financial transaction; the nullable links are `Option`s. */
  datatype Txn = Txn(
    account_id: Id,
    partner_id: Option<Id>,
    order_id: Option<Id>,
    purchase_order_id: Option<Id>,
    direction: Direction,
    amount: real,
    description: Option<string>)

  datatype Product = Product(name: string, base_price_sqm: real)

  /** `OrderStatus`: "TEKLIF", "SIPARIS", "URETIMDE", "TESLIM EDILDI". */
  datatype OrderStatus = Teklif | Siparis | Uretimde | TeslimEdildi

  datatype Order = Order(
    partner_id: Id,
    status: OrderStatus,
    total_amount: real,
    tax_amount: real,
    grand_total: real)

  /** A line item; width and height are millimetres. */
  datatype OrderItem = OrderItem(
    order_id: Id,
    product_id: Id,
    width: int,
    height: int,
    quantity: int,
    unit_price: real,
    total_price: real)

  /** `JobStatus`: "PENDING", "IN_PROGRESS", "COMPLETED". */
  datatype JobStatus = Pending | InProgress | Completed

  datatype Job = Job(
    order_item_id: Id,
    quantity_required: int,
    quantity_produced: int,
    status: JobStatus)

  /** One production step; its completion time is assigned by the database and is not modelled. */
  datatype LogEntry = LogEntry(job_id: Id, station_id: Id, user_id: Id, quantity: int)

  datatype Station = Station(name: string, code: string, order_index: int)

  /** The request-scoped database session: one table per entity, production logs append-only. */
  class Session {
    var accounts: map<Id, Account>
    var transactions: map<Id, Txn>
    var products: map<Id, Product>
    var orders: map<Id, Order>
    var orderItems: map<Id, OrderItem>
    var stations: map<Id, Station>
    var jobs: map<Id, Job>
    var logs: seq<LogEntry>

    /** An empty database. */
    constructor ()
      ensures accounts == map[] && transactions == map[] && products == map[]
      ensures orders == map[] && orderItems == map[]
      ensures stations == map[] && jobs == map[] && logs == []
    {
      accounts, transactions, products := map[], map[], map[];
      orders, orderItems := map[], map[];
      stations, jobs, logs := map[], map[], [];
    }
  }

  /** A key not yet used in `m`: stands in for the `uuid.uuid4` column default. */
  method FreshKey<V>(m: map<Id, V>) returns (k: Id)
    ensures k !in m
  {
    var pending := m.Keys;
    k := 0;
    while pending != {}
      invariant pending <= m.Keys
      invariant forall j :: j in m && j !in pending ==> j < k
      decreases pending
    {
      var j :| j in pending;
      if k <= j {
        k := j + 1;
      }
      pending := pending - {j};
    }
  }
}
