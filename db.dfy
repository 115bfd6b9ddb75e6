/**
 * The order store of src/db/index.ts, with the database replaced by a map
 * from order id to table row: the row/order conversion, the UPDATE builder
 * with its `$k` placeholders and the meaning of the SET list it builds,
 * createOrder, getOrderById, updateOrderStatus, and the lazily opened pool.
 */
module Db {
  import opened Wrappers
  import opened OrderModel

  // ---------------------------------------------------------------------
  // Rows and their conversion to orders
  // ---------------------------------------------------------------------

  /**
   * A row of the `orders` table. Field names are the column names. Numeric
   * columns are kept as numbers rather than the decimal text the driver
   * returns; `status` and `order_type` are the stored text.
   */
  datatype OrderRow = OrderRow(
    id: string,
    user_id: string,
    order_type: string,
    token_in: string,
    token_out: string,
    amount: real,
    limit_price: Option<real>,
    status: string,
    created_at: int,
    updated_at: int,
    attempts: int,
    last_error: Option<ErrorMessage>,
    executed_price: Option<real>,
    tx_hash: Option<string>,
    chosen_dex: Option<string>,
    chosen_quote: Option<Quote>,
    slippage_tolerance: real)

  /** A row whose status and order type are names of the enumerations (rowToOrder casts them unchecked). */
  predicate WellFormedRow(row: OrderRow) {
    ParseStatus(row.status).Some? && ParseOrderType(row.order_type).Some?
  }

  /**
   * rowToOrder: renames the columns, reads the status and type names, and
   * maps a null limit price or executed price to null.
   */
  function RowToOrder(row: OrderRow): (o: Order)
    requires WellFormedRow(row)
    ensures o.id == row.id && o.userId == row.user_id && o.tokenIn == row.token_in && o.tokenOut == row.token_out
    ensures StatusName(o.status) == row.status && OrderTypeName(o.orderType) == row.order_type
    ensures o.amount == row.amount && o.slippageTolerance == row.slippage_tolerance
    ensures row.limit_price.None? <==> o.limitPrice.None?
    ensures row.executed_price.None? <==> o.executedPrice.None?
    ensures o.limitPrice == row.limit_price && o.executedPrice == row.executed_price
    ensures o.createdAt == row.created_at && o.updatedAt == row.updated_at && o.attempts == row.attempts
    ensures o.lastError == row.last_error && o.txHash == row.tx_hash
    ensures o.chosenDex == row.chosen_dex && o.chosenQuote == row.chosen_quote
  {
    Order(
      row.id, row.user_id, ParseOrderType(row.order_type).value, row.token_in, row.token_out,
      row.amount, if row.limit_price.Some? then Some(row.limit_price.value) else None,
      ParseStatus(row.status).value, row.created_at, row.updated_at, row.attempts, row.last_error,
      if row.executed_price.Some? then Some(row.executed_price.value) else None,
      row.tx_hash, row.chosen_dex, row.chosen_quote, row.slippage_tolerance)
  }

  /** The row an order is stored as. */
  function OrderToRow(o: Order): OrderRow {
    OrderRow(
      o.id, o.userId, OrderTypeName(o.orderType), o.tokenIn, o.tokenOut, o.amount, o.limitPrice,
      StatusName(o.status), o.createdAt, o.updatedAt, o.attempts, o.lastError, o.executedPrice,
      o.txHash, o.chosenDex, o.chosenQuote, o.slippageTolerance)
  }

  /** Storing an order and reading it back gives the same order. */
  lemma OrderRowRoundTrip(o: Order)
    ensures WellFormedRow(OrderToRow(o))
    ensures RowToOrder(OrderToRow(o)) == o
  {
    StatusDomain(o.status, "");
    OrderTypeDomain(o.orderType);
  }

  /** Reading a well-formed row and storing the order gives the same row. */
  lemma RowOrderRoundTrip(row: OrderRow)
    requires WellFormedRow(row)
    ensures OrderToRow(RowToOrder(row)) == row
  {
  }

  // ---------------------------------------------------------------------
  // Partial updates
  // ---------------------------------------------------------------------

  /** An optional property of updateOrderStatus' `updates`: left `undefined`, or given (possibly as null). */
  datatype Patch<T> = Omit | Put(value: T) {
    function Or(current: T): T {
      match this
      case Omit => current
      case Put(v) => v
    }
  }

  datatype OrderUpdates = OrderUpdates(
    attempts: Patch<int>,
    lastError: Patch<Option<ErrorMessage>>,
    executedPrice: Patch<Option<real>>,
    txHash: Patch<Option<string>>,
    chosenDex: Patch<Option<string>>,
    chosenQuote: Patch<Option<Quote>>)

  /** `updates` left out altogether. */
  const NoUpdates := OrderUpdates(Omit, Omit, Omit, Omit, Omit, Omit)

  /**
   * The order updateOrderStatus promises: the new status and update time,
   * each given property written (null included), each omitted one kept.
   */
  function UpdatedOrder(o: Order, status: OrderStatus, u: OrderUpdates, now: int): Order {
    o.(status := status, updatedAt := now,
       attempts := u.attempts.Or(o.attempts),
       lastError := u.lastError.Or(o.lastError),
       executedPrice := u.executedPrice.Or(o.executedPrice),
       txHash := u.txHash.Or(o.txHash),
       chosenDex := u.chosenDex.Or(o.chosenDex),
       chosenQuote := u.chosenQuote.Or(o.chosenQuote))
  }

  /** The same update on the row. */
  function PatchRow(row: OrderRow, status: OrderStatus, u: OrderUpdates, now: int): OrderRow {
    row.(status := StatusName(status), updated_at := now,
         attempts := u.attempts.Or(row.attempts),
         last_error := u.lastError.Or(row.last_error),
         executed_price := u.executedPrice.Or(row.executed_price),
         tx_hash := u.txHash.Or(row.tx_hash),
         chosen_dex := u.chosenDex.Or(row.chosen_dex),
         chosen_quote := u.chosenQuote.Or(row.chosen_quote))
  }

  /** Updating the row and reading it is updating the order read from it. */
  lemma PatchRowIsUpdatedOrder(row: OrderRow, status: OrderStatus, u: OrderUpdates, now: int)
    requires WellFormedRow(row)
    ensures WellFormedRow(PatchRow(row, status, u, now))
    ensures RowToOrder(PatchRow(row, status, u, now)) == UpdatedOrder(RowToOrder(row), status, u, now)
  {
    StatusDomain(status, "");
  }

  /**
   * The update keeps the order's identity and its intake fields and sets the
   * status; with nothing given, only the status and update time change.
   */
  lemma UpdatedOrderKeeps(o: Order, status: OrderStatus, u: OrderUpdates, now: int)
    ensures var o' := UpdatedOrder(o, status, u, now);
      && o'.id == o.id && o'.userId == o.userId && o'.orderType == o.orderType
      && o'.tokenIn == o.tokenIn && o'.tokenOut == o.tokenOut && o'.amount == o.amount
      && o'.limitPrice == o.limitPrice && o'.createdAt == o.createdAt
      && o'.slippageTolerance == o.slippageTolerance
      && o'.status == status && o'.updatedAt == now
    ensures UpdatedOrder(o, status, NoUpdates, now) == o.(status := status, updatedAt := now)
  {
  }

  /** Writing an explicit null clears a value, where omitting the property keeps it. */
  lemma NullDiffersFromOmission(o: Order, status: OrderStatus, u: OrderUpdates, now: int)
    requires o.txHash.Some?
    ensures UpdatedOrder(o, status, u.(txHash := Put(None)), now).txHash == None
    ensures UpdatedOrder(o, status, u.(txHash := Omit), now).txHash == o.txHash
    ensures UpdatedOrder(o, status, u.(txHash := Put(None)), now) != UpdatedOrder(o, status, u.(txHash := Omit), now)
  {
    assert UpdatedOrder(o, status, u.(txHash := Put(None)), now).txHash != UpdatedOrder(o, status, u.(txHash := Omit), now).txHash;
  }

  // ---------------------------------------------------------------------
  // The UPDATE statement
  // ---------------------------------------------------------------------

  datatype Column = StatusColumn | UpdatedAtColumn | AttemptsColumn | LastErrorColumn
                  | ExecutedPriceColumn | TxHashColumn | ChosenDexColumn | ChosenQuoteColumn

  /** One entry of the SET list: `column = $k`, or `column = now()`. */
  datatype SetClause = SetParam(column: Column, placeholder: nat) | SetNow(column: Column)

  /** A bound parameter value. */
  datatype SqlValue =
    | Text(s: string)
    | Int(n: int)
    | NullableText(t: Option<string>)
    | NullablePrice(p: Option<real>)
    | NullableError(e: Option<ErrorMessage>)
    | Json(q: Option<Quote>)

  /** Writing a value into a column; `None` when the value does not fit the column's type. */
  function AssignColumn(row: OrderRow, column: Column, v: SqlValue): Option<OrderRow> {
    match column
    case StatusColumn => if v.Text? then Some(row.(status := v.s)) else None
    case UpdatedAtColumn => None
    case AttemptsColumn => if v.Int? then Some(row.(attempts := v.n)) else None
    case LastErrorColumn => if v.NullableError? then Some(row.(last_error := v.e)) else None
    case ExecutedPriceColumn => if v.NullablePrice? then Some(row.(executed_price := v.p)) else None
    case TxHashColumn => if v.NullableText? then Some(row.(tx_hash := v.t)) else None
    case ChosenDexColumn => if v.NullableText? then Some(row.(chosen_dex := v.t)) else None
    case ChosenQuoteColumn => if v.Json? then Some(row.(chosen_quote := v.q)) else None
  }

  /** One SET entry; `$k` refers to `values[k - 1]`, and `now()` is the statement's clock. */
  function AssignClause(row: OrderRow, c: SetClause, values: seq<SqlValue>, now: int): Option<OrderRow> {
    match c
    case SetNow(UpdatedAtColumn) => Some(row.(updated_at := now))
    case SetNow(_) => None
    case SetParam(column, k) => if 1 <= k <= |values| then AssignColumn(row, column, values[k - 1]) else None
  }

  /** The row a SET list makes of `row`, entry by entry; `None` when some entry is not executable. */
  function RunSet(row: OrderRow, clauses: seq<SetClause>, values: seq<SqlValue>, now: int): Option<OrderRow>
    decreases |clauses|
  {
    if clauses == [] then Some(row)
    else match RunSet(row, clauses[..|clauses| - 1], values, now)
      case None => None
      case Some(r) => AssignClause(r, clauses[|clauses| - 1], values, now)
  }

  /** Every `$k` of the list refers to one of the first `n` values. */
  predicate PlaceholdersWithin(clauses: seq<SetClause>, n: nat) {
    forall i :: 0 <= i < |clauses| && clauses[i].SetParam? ==> clauses[i].placeholder <= n
  }

  /** Values no placeholder refers to do not change what a SET list does. */
  lemma {:induction false} RunSetIgnoresExtraValues(row: OrderRow, clauses: seq<SetClause>, values: seq<SqlValue>,
                                                   extra: seq<SqlValue>, now: int)
    requires PlaceholdersWithin(clauses, |values|)
    ensures RunSet(row, clauses, values + extra, now) == RunSet(row, clauses, values, now)
    decreases |clauses|
  {
    if clauses != [] {
      var init, last := clauses[..|clauses| - 1], clauses[|clauses| - 1];
      assert PlaceholdersWithin(init, |values|) by {
        forall i | 0 <= i < |init| && init[i].SetParam? ensures init[i].placeholder <= |values| {
          assert init[i] == clauses[i];
        }
      }
      RunSetIgnoresExtraValues(row, init, values, extra, now);
      if last.SetParam? {
        assert clauses[|clauses| - 1].placeholder <= |values|;
        if 1 <= last.placeholder {
          assert (values + extra)[last.placeholder - 1] == values[last.placeholder - 1];
        }
      }
    }
  }

  /** Pushing `column = $k` together with the k-th value applies that write last. */
  lemma RunSetPush(row: OrderRow, clauses: seq<SetClause>, values: seq<SqlValue>, column: Column,
                   v: SqlValue, now: int)
    requires PlaceholdersWithin(clauses, |values|)
    ensures RunSet(row, clauses + [SetParam(column, |values| + 1)], values + [v], now) ==
      match RunSet(row, clauses, values, now)
      case None => None
      case Some(r) => AssignColumn(r, column, v)
  {
    var all := clauses + [SetParam(column, |values| + 1)];
    assert all[..|all| - 1] == clauses;
    RunSetIgnoresExtraValues(row, clauses, values, [v], now);
  }

  /** The shape updateOrderStatus' builder keeps: `$k` is the placeholder of entry k - 1 from the third on. */
  predicate BuilderShape(orderId: string, status: OrderStatus, fields: seq<SetClause>, values: seq<SqlValue>) {
    && |fields| == |values| >= 2
    && fields[0] == SetParam(StatusColumn, 2) && fields[1] == SetNow(UpdatedAtColumn)
    && values[0] == Text(orderId) && values[1] == Text(StatusName(status))
    && forall i :: 2 <= i < |fields| ==> fields[i].SetParam? && fields[i].placeholder == i + 1
  }

  lemma ShapeBounded(orderId: string, status: OrderStatus, fields: seq<SetClause>, values: seq<SqlValue>)
    requires BuilderShape(orderId, status, fields, values)
    ensures PlaceholdersWithin(fields, |values|)
  {
  }

  /**
   * One `if (updates?.x !== undefined)` block of the builder: for a given
   * value, pushes `column = $paramIndex` and the value and advances the
   * counter; for an omitted one, changes nothing. `before` is the row the
   * list built so far makes, `after` the row it should make afterwards.
   */
  method PushIfGiven(fields: seq<SetClause>, values: seq<SqlValue>, paramIndex: nat, column: Column,
                     v: Option<SqlValue>, ghost orderId: string, ghost status: OrderStatus, ghost row: OrderRow,
                     ghost now: int, ghost before: OrderRow, ghost after: OrderRow)
    returns (fields': seq<SetClause>, values': seq<SqlValue>, paramIndex': nat)
    requires BuilderShape(orderId, status, fields, values) && paramIndex == |values| + 1
    requires RunSet(row, fields, values, now) == Some(before)
    requires v.Some? ==> AssignColumn(before, column, v.value) == Some(after)
    requires v.None? ==> after == before
    ensures v.Some? ==> fields' == fields + [SetParam(column, paramIndex)] && values' == values + [v.value]
    ensures v.None? ==> fields' == fields && values' == values
    ensures |fields'| == |fields| + Count(v)
    ensures paramIndex' == |values'| + 1
    ensures BuilderShape(orderId, status, fields', values')
    ensures RunSet(row, fields', values', now) == Some(after)
  {
    fields', values', paramIndex' := fields, values, paramIndex;
    if v.Some? {
      RunSetPush(row, fields, values, column, v.value, now);
      fields' := fields + [SetParam(column, paramIndex)];
      values' := values + [v.value];
      paramIndex' := paramIndex + 1;
    }
  }

  /** The value the builder binds for an optional column, `None` when that property is omitted. */
  function Given(u: OrderUpdates, column: Column): Option<SqlValue> {
    match column
    case AttemptsColumn => if u.attempts.Put? then Some(Int(u.attempts.value)) else None
    case LastErrorColumn => if u.lastError.Put? then Some(NullableError(u.lastError.value)) else None
    case ExecutedPriceColumn => if u.executedPrice.Put? then Some(NullablePrice(u.executedPrice.value)) else None
    case TxHashColumn => if u.txHash.Put? then Some(NullableText(u.txHash.value)) else None
    case ChosenDexColumn => if u.chosenDex.Put? then Some(NullableText(u.chosenDex.value)) else None
    case ChosenQuoteColumn => if u.chosenQuote.Put? then Some(Json(u.chosenQuote.value)) else None
    case _ => None
  }

  /** What PatchRow does to one optional column. */
  function Effect(r: OrderRow, u: OrderUpdates, column: Column): OrderRow {
    match column
    case AttemptsColumn => r.(attempts := u.attempts.Or(r.attempts))
    case LastErrorColumn => r.(last_error := u.lastError.Or(r.last_error))
    case ExecutedPriceColumn => r.(executed_price := u.executedPrice.Or(r.executed_price))
    case TxHashColumn => r.(tx_hash := u.txHash.Or(r.tx_hash))
    case ChosenDexColumn => r.(chosen_dex := u.chosenDex.Or(r.chosen_dex))
    case ChosenQuoteColumn => r.(chosen_quote := u.chosenQuote.Or(r.chosen_quote))
    case _ => r
  }

  /** Binding a given property writes exactly its effect; an omitted one has none. */
  lemma GivenFits(r: OrderRow, u: OrderUpdates, column: Column)
    ensures Given(u, column).Some? ==> AssignColumn(r, column, Given(u, column).value) == Some(Effect(r, u, column))
    ensures Given(u, column).None? ==> Effect(r, u, column) == r
  {
  }

  /** The six effects in the builder's order make up PatchRow. */
  lemma EffectsArePatch(row: OrderRow, status: OrderStatus, u: OrderUpdates, now: int)
    ensures
      var r0 := row.(status := StatusName(status), updated_at := now);
      Effect(Effect(Effect(Effect(Effect(Effect(r0, u, AttemptsColumn), u, LastErrorColumn), u, ExecutedPriceColumn),
        u, TxHashColumn), u, ChosenDexColumn), u, ChosenQuoteColumn) == PatchRow(row, status, u, now)
  {
  }

  /** One for a bound value, zero for none. */
  function Count(v: Option<SqlValue>): nat {
    if v.Some? then 1 else 0
  }

  /** How many of the optional properties are given. */
  function PutCount(u: OrderUpdates): nat {
    Count(Given(u, AttemptsColumn)) + Count(Given(u, LastErrorColumn)) + Count(Given(u, ExecutedPriceColumn))
    + Count(Given(u, TxHashColumn)) + Count(Given(u, ChosenDexColumn)) + Count(Given(u, ChosenQuoteColumn))
  }

  /**
   * The SET list and parameter values updateOrderStatus builds. `paramIndex`
   * is always one past the last value; the list writes the status, the update
   * time and exactly the given properties, so executing it on the stored row
   * `row` yields PatchRow.
   */
  method BuildUpdate(orderId: string, status: OrderStatus, updates: OrderUpdates, ghost row: OrderRow, ghost now: int)
    returns (fields: seq<SetClause>, values: seq<SqlValue>, paramIndex: nat)
    ensures BuilderShape(orderId, status, fields, values)
    ensures paramIndex == |values| + 1
    ensures |fields| == 2 + PutCount(updates)
    ensures RunSet(row, fields, values, now) == Some(PatchRow(row, status, updates, now))
  {
    fields := [SetParam(StatusColumn, 2), SetNow(UpdatedAtColumn)];
    values := [Text(orderId), Text(StatusName(status))];
    paramIndex := 3;
    ghost var r0 := row.(status := StatusName(status), updated_at := now);
    assert fields[..1] == [SetParam(StatusColumn, 2)] && fields[..1][..0] == [];
    assert RunSet(row, fields, values, now) == Some(r0);

    ghost var r1 := Effect(r0, updates, AttemptsColumn);
    GivenFits(r0, updates, AttemptsColumn);
    fields, values, paramIndex := PushIfGiven(fields, values, paramIndex, AttemptsColumn,
      Given(updates, AttemptsColumn), orderId, status, row, now, r0, r1);
    ghost var r2 := Effect(r1, updates, LastErrorColumn);
    GivenFits(r1, updates, LastErrorColumn);
    fields, values, paramIndex := PushIfGiven(fields, values, paramIndex, LastErrorColumn,
      Given(updates, LastErrorColumn), orderId, status, row, now, r1, r2);
    ghost var r3 := Effect(r2, updates, ExecutedPriceColumn);
    GivenFits(r2, updates, ExecutedPriceColumn);
    fields, values, paramIndex := PushIfGiven(fields, values, paramIndex, ExecutedPriceColumn,
      Given(updates, ExecutedPriceColumn), orderId, status, row, now, r2, r3);
    ghost var r4 := Effect(r3, updates, TxHashColumn);
    GivenFits(r3, updates, TxHashColumn);
    fields, values, paramIndex := PushIfGiven(fields, values, paramIndex, TxHashColumn,
      Given(updates, TxHashColumn), orderId, status, row, now, r3, r4);
    ghost var r5 := Effect(r4, updates, ChosenDexColumn);
    GivenFits(r4, updates, ChosenDexColumn);
    fields, values, paramIndex := PushIfGiven(fields, values, paramIndex, ChosenDexColumn,
      Given(updates, ChosenDexColumn), orderId, status, row, now, r4, r5);
    ghost var r6 := Effect(r5, updates, ChosenQuoteColumn);
    GivenFits(r5, updates, ChosenQuoteColumn);
    fields, values, paramIndex := PushIfGiven(fields, values, paramIndex, ChosenQuoteColumn,
      Given(updates, ChosenQuoteColumn), orderId, status, row, now, r5, r6);
    EffectsArePatch(row, status, updates, now);
  }

  // ---------------------------------------------------------------------
  // The store
  // ---------------------------------------------------------------------

  /** The fields createOrder is given. */
  datatype NewOrder = NewOrder(
    userId: string, orderType: OrderType, tokenIn: string, tokenOut: string,
    amount: real, limitPrice: Option<real>, slippageTolerance: real)

  /**
   * The row the INSERT creates: the given fields, status `pending`, and the
   * table's defaults for the rest (a generated id, the insertion time, zero
   * attempts and nulls).
   */
  function InsertedRow(o: NewOrder, id: string, now: int): OrderRow {
    OrderRow(id, o.userId, OrderTypeName(o.orderType), o.tokenIn, o.tokenOut, o.amount, o.limitPrice,
             StatusName(Pending), now, now, 0, None, None, None, None, None, o.slippageTolerance)
  }

  /** Every row is stored under its own id and is well formed. */
  predicate ValidRows(rows: map<string, OrderRow>) {
    forall id :: id in rows ==> rows[id].id == id && WellFormedRow(rows[id])
  }

  /** The table after updateOrderStatus on a stored order: that row patched, every other row as it was. */
  function WriteRow(rows: map<string, OrderRow>, orderId: string, status: OrderStatus, u: OrderUpdates, now: int)
    : (rows': map<string, OrderRow>)
    requires orderId in rows
    ensures rows'.Keys == rows.Keys
    ensures rows'[orderId] == PatchRow(rows[orderId], status, u, now)
    ensures forall id :: id in rows && id != orderId ==> rows'[id] == rows[id]
  {
    rows[orderId := PatchRow(rows[orderId], status, u, now)]
  }

  /** A write keeps the table valid. */
  lemma WriteKeepsValid(rows: map<string, OrderRow>, orderId: string, status: OrderStatus, u: OrderUpdates, now: int)
    requires ValidRows(rows) && orderId in rows
    ensures ValidRows(WriteRow(rows, orderId, status, u, now))
  {
    PatchRowIsUpdatedOrder(rows[orderId], status, u, now);
  }

  /** The message of the TypeError rowToOrder raises when the UPDATE matched no row. */
  const UndefinedRowError: string := "Cannot read properties of undefined (reading 'id')"

  /** The message getPool raises without a connection string. */
  const NoDatabaseUrlError: string := "DATABASE_URL environment variable is not set"

  class OrderStore {
    /** The `orders` table, keyed by id. */
    var rows: map<string, OrderRow>
    /** Whether the module-level pool is set. */
    var poolOpen: bool
    /** How many times `pool.end()` has been called. */
    var poolEndCalls: nat

    ghost predicate Valid()
      reads this
    {
      ValidRows(rows)
    }

    constructor ()
      ensures Valid() && rows == map[] && !poolOpen && poolEndCalls == 0
    {
      rows := map[];
      poolOpen := false;
      poolEndCalls := 0;
    }

    /**
     * getPool: an open pool is reused; otherwise a pool is created, which
     * fails when DATABASE_URL is unset or empty.
     */
    method GetPool(databaseUrl: Option<string>) returns (r: Result<(), string>)
      modifies this
      ensures rows == old(rows) && poolEndCalls == old(poolEndCalls)
      ensures old(poolOpen) ==> r.Success? && poolOpen
      ensures !old(poolOpen) && (databaseUrl == None || databaseUrl == Some("")) ==>
        r == Failure(NoDatabaseUrlError) && !poolOpen
      ensures !old(poolOpen) && databaseUrl.Some? && databaseUrl.value != "" ==> r.Success? && poolOpen
    {
      if !poolOpen {
        if databaseUrl == None || databaseUrl == Some("") {
          r := Failure(NoDatabaseUrlError);
          return;
        }
        poolOpen := true;
      }
      r := Success(());
    }

    /** closePool: ends an open pool and clears it; with no pool it does nothing. */
    method ClosePool()
      modifies this
      ensures !poolOpen && rows == old(rows)
      ensures poolEndCalls == old(poolEndCalls) + (if old(poolOpen) then 1 else 0)
    {
      if poolOpen {
        poolEndCalls := poolEndCalls + 1;
        poolOpen := false;
      }
    }

    /** Closing twice ends the pool at most once. */
    method ClosePoolTwice()
      modifies this
      ensures !poolOpen && rows == old(rows)
      ensures poolEndCalls == old(poolEndCalls) + (if old(poolOpen) then 1 else 0)
    {
      ClosePool();
      ClosePool();
    }

    /** createOrder: inserts a `pending` row under the generated id `id` and returns it as an order. */
    method CreateOrder(o: NewOrder, id: string, now: int) returns (r: Order)
      requires Valid() && id !in rows
      modifies this
      ensures Valid()
      ensures rows == old(rows)[id := InsertedRow(o, id, now)]
      ensures poolOpen == old(poolOpen) && poolEndCalls == old(poolEndCalls)
      ensures r.id == id && r.status == Pending && r.attempts == 0
      ensures r.userId == o.userId && r.orderType == o.orderType && r.tokenIn == o.tokenIn
      ensures r.tokenOut == o.tokenOut && r.amount == o.amount && r.limitPrice == o.limitPrice
      ensures r.slippageTolerance == o.slippageTolerance && r.createdAt == now && r.updatedAt == now
      ensures r.lastError == None && r.executedPrice == None && r.txHash == None
      ensures r.chosenDex == None && r.chosenQuote == None
    {
      var row := InsertedRow(o, id, now);
      StatusDomain(Pending, "");
      OrderTypeDomain(o.orderType);
      rows := rows[id := row];
      r := RowToOrder(row);
    }

    /** getOrderById: the stored order, or nothing for an unknown id. */
    function GetOrderById(orderId: string): (r: Option<Order>)
      reads this
      requires Valid()
      ensures r.None? <==> orderId !in rows
      ensures r.Some? ==> r.value.id == orderId && OrderToRow(r.value) == rows[orderId]
    {
      if orderId in rows then Some(RowToOrder(rows[orderId])) else None
    }

    /**
     * updateOrderStatus: runs the built UPDATE on the order's row. An unknown
     * id matches no row, and reading the missing result raises a TypeError.
     */
    method UpdateOrderStatus(orderId: string, status: OrderStatus, updates: OrderUpdates, now: int)
      returns (r: Result<Order, ErrorMessage>)
      requires Valid()
      modifies this
      ensures Valid()
      ensures poolOpen == old(poolOpen) && poolEndCalls == old(poolEndCalls)
      ensures orderId in old(rows) ==>
        && rows == WriteRow(old(rows), orderId, status, updates, now)
        && r == Success(UpdatedOrder(RowToOrder(old(rows)[orderId]), status, updates, now))
        && r.value.id == orderId && r.value.status == status
      ensures orderId !in old(rows) ==> rows == old(rows) && r == Failure(Thrown(UndefinedRowError))
    {
      if orderId !in rows {
        r := Failure(Thrown(UndefinedRowError));
        return;
      }
      var row := rows[orderId];
      var fields, values, paramIndex := BuildUpdate(orderId, status, updates, row, now);
      var updated := RunSet(row, fields, values, now);
      PatchRowIsUpdatedOrder(row, status, updates, now);
      WriteKeepsValid(rows, orderId, status, updates, now);
      rows := rows[orderId := updated.value];
      r := Success(RowToOrder(updated.value));
    }
  }

  /** The store tests: a created order reads back as pending, and an update to routing keeps its id. */
  method StoreScenario(id: string, now: int) returns (created: Order, fetched: Option<Order>, updated: Result<Order, ErrorMessage>)
    ensures created.status == Pending && created.userId == "test-user-2" && created.id == id
    ensures fetched == Some(created)
    ensures updated.Success? && updated.value.id == id && updated.value.status == Routing
  {
    var store := new OrderStore();
    created := store.CreateOrder(NewOrder("test-user-2", Limit, "SOL", "USDC", 1.0, Some(25.5), 0.01), id, now);
    fetched := store.GetOrderById(id);
    OrderRowRoundTrip(created);
    updated := store.UpdateOrderStatus(id, Routing, NoUpdates, now);
  }
}
