/**
 * The order data model of src/models/order.ts: the status and order-type
 * enumerations with their wire names, the order record, the update message
 * sent to observers, and the intake constraints of CreateOrderSchema as a
 * validation function with its defaulting step.
 */
module OrderModel {
  import opened Wrappers

  // ---------------------------------------------------------------------
  // Status and order type
  // ---------------------------------------------------------------------

  datatype OrderStatus = Pending | Routing | Building | Submitted | Confirmed | Failed

  /** Every status, in pipeline order. */
  const AllStatuses: seq<OrderStatus> := [Pending, Routing, Building, Submitted, Confirmed, Failed]

  /** The string each status is stored and published as. */
  function StatusName(s: OrderStatus): string {
    match s
    case Pending => "pending"
    case Routing => "routing"
    case Building => "building"
    case Submitted => "submitted"
    case Confirmed => "confirmed"
    case Failed => "failed"
  }

  /** Reading a stored status string back; `None` for a string that names no status. */
  function ParseStatus(name: string): (r: Option<OrderStatus>)
    ensures r.Some? ==> StatusName(r.value) == name
  {
    if name == "pending" then Some(Pending)
    else if name == "routing" then Some(Routing)
    else if name == "building" then Some(Building)
    else if name == "submitted" then Some(Submitted)
    else if name == "confirmed" then Some(Confirmed)
    else if name == "failed" then Some(Failed)
    else None
  }

  /** A status after which the pipeline promises no further status change. */
  predicate IsTerminal(s: OrderStatus) {
    s == Confirmed || s == Failed
  }

  /** Position of a status along pending -> routing -> building -> submitted -> confirmed. */
  function Stage(s: OrderStatus): nat {
    match s
    case Pending => 0
    case Routing => 1
    case Building => 2
    case Submitted => 3
    case Confirmed => 4
    case Failed => 5
  }

  /** The status domain has exactly six members with six distinct names. */
  lemma StatusDomain(s: OrderStatus, name: string)
    ensures s in AllStatuses && |AllStatuses| == 6
    ensures forall i, j :: 0 <= i < j < |AllStatuses| ==> StatusName(AllStatuses[i]) != StatusName(AllStatuses[j])
    ensures ParseStatus(StatusName(s)) == Some(s)
    ensures ParseStatus(name).Some? <==> exists t :: t in AllStatuses && StatusName(t) == name
  {
    if ParseStatus(name).Some? {
      var t := ParseStatus(name).value;
      assert t in AllStatuses && StatusName(t) == name;
    }
  }

  datatype OrderType = Limit | Market | Sniper

  const AllOrderTypes: seq<OrderType> := [Limit, Market, Sniper]

  function OrderTypeName(t: OrderType): string {
    match t
    case Limit => "limit"
    case Market => "market"
    case Sniper => "sniper"
  }

  function ParseOrderType(name: string): (r: Option<OrderType>)
    ensures r.Some? ==> OrderTypeName(r.value) == name
  {
    if name == "limit" then Some(Limit)
    else if name == "market" then Some(Market)
    else if name == "sniper" then Some(Sniper)
    else None
  }

  /** Three order types with three distinct names, each read back to itself. */
  lemma OrderTypeDomain(t: OrderType)
    ensures t in AllOrderTypes && |AllOrderTypes| == 3
    ensures forall i, j :: 0 <= i < j < |AllOrderTypes| ==> OrderTypeName(AllOrderTypes[i]) != OrderTypeName(AllOrderTypes[j])
    ensures ParseOrderType(OrderTypeName(t)) == Some(t)
  {
  }

  // ---------------------------------------------------------------------
  // Records
  // ---------------------------------------------------------------------

  /**
   * The price/fee/liquidity triple a quote source returns (declared with the
   * quote sources in src/services/mockDex.ts); it is also the structured
   * record kept as an order's chosen-quote snapshot.
   */
  datatype Quote = Quote(price: real, fee: real, liquidity: real)

  /**
   * The text of the errors the execution pipeline raises and records as an
   * order's last error. The two decimal numbers of the limit-price message
   * are kept as numbers; `relation` is the operator the message prints.
   */
  datatype ErrorMessage =
    | OrderNotFound(orderId: string)        // `Order ${orderId} not found`
    | NoQuotesAvailable                     // 'No quotes available from any DEX'
    | DexSelectionFailed                    // 'Failed to select DEX'
    | LimitPriceNotMet(expected: real, relation: string, limit: real)
    | Thrown(message: string)               // any other error, by its message

  datatype Order = Order(
    id: string,
    userId: string,
    orderType: OrderType,
    tokenIn: string,
    tokenOut: string,
    amount: real,
    limitPrice: Option<real>,
    status: OrderStatus,
    createdAt: int,
    updatedAt: int,
    attempts: int,
    lastError: Option<ErrorMessage>,
    executedPrice: Option<real>,
    txHash: Option<string>,
    chosenDex: Option<string>,
    chosenQuote: Option<Quote>,
    slippageTolerance: real)

  /** JavaScript truthiness of a nullable limit price: null and 0 are both false. */
  predicate LimitPriceSet(limitPrice: Option<real>) {
    limitPrice.Some? && limitPrice.value != 0.0
  }

  /** `limitPrice || fallback`. */
  function LimitPriceOr(limitPrice: Option<real>, fallback: real): (p: real)
    ensures LimitPriceSet(limitPrice) ==> p == limitPrice.value
    ensures !LimitPriceSet(limitPrice) ==> p == fallback
  {
    if LimitPriceSet(limitPrice) then limitPrice.value else fallback
  }

  /** The per-venue part of the routing detail of an update message. */
  datatype QuoteSummary = QuoteSummary(raydium: Option<Quote>, meteora: Option<Quote>, chosen: Option<string>)

  datatype UpdateDetails = UpdateDetails(
    quotes: Option<QuoteSummary>,
    txHash: Option<string>,
    executedPrice: Option<real>,
    error: Option<ErrorMessage>,
    attempt: Option<int>)

  const NoDetails := UpdateDetails(None, None, None, None, None)

  /** OrderUpdateMessage; the ISO timestamp is kept as milliseconds. */
  datatype OrderUpdateMessage = OrderUpdateMessage(
    orderId: string,
    status: OrderStatus,
    timestamp: int,
    details: Option<UpdateDetails>)

  // ---------------------------------------------------------------------
  // Intake validation (CreateOrderSchema)
  // ---------------------------------------------------------------------

  /** A property of the JSON request body: absent, present with the schema's type, or present with another type. */
  datatype JsonField<T> = Missing | Present(value: T) | WrongType

  datatype CreateOrderInput = CreateOrderInput(
    userId: JsonField<string>,
    orderType: JsonField<string>,
    tokenIn: JsonField<string>,
    tokenOut: JsonField<string>,
    amount: JsonField<real>,
    limitPrice: JsonField<real>,
    slippageTolerance: JsonField<real>)

  /** The validated request. The schema admits only limit orders and fills in the slippage tolerance. */
  datatype CreateOrderRequest = CreateOrderRequest(
    userId: string,
    orderType: OrderType,
    tokenIn: string,
    tokenOut: string,
    amount: real,
    limitPrice: real,
    slippageTolerance: real)

  datatype SchemaField = UserIdField | OrderTypeField | TokenInField | TokenOutField
                       | AmountField | LimitPriceField | SlippageField

  /** The schema's keys in declaration order, which is the order its issues are reported in. */
  const SchemaOrder: seq<SchemaField> :=
    [UserIdField, OrderTypeField, TokenInField, TokenOutField, AmountField, LimitPriceField, SlippageField]

  const DefaultSlippageTolerance: real := 0.01

  /** `z.string().min(1)` */
  predicate NonEmptyString(v: JsonField<string>) {
    v.Present? && |v.value| >= 1
  }

  /** `z.number().positive()` */
  predicate PositiveNumber(v: JsonField<real>) {
    v.Present? && v.value > 0.0
  }

  /** `z.number().min(0).max(1).optional()` */
  predicate OptionalFraction(v: JsonField<real>) {
    v.Missing? || (v.Present? && 0.0 <= v.value <= 1.0)
  }

  /** The constraint the schema puts on one key. */
  predicate FieldValid(input: CreateOrderInput, f: SchemaField) {
    match f
    case UserIdField => NonEmptyString(input.userId)
    case OrderTypeField => input.orderType == Present("limit")
    case TokenInField => NonEmptyString(input.tokenIn)
    case TokenOutField => NonEmptyString(input.tokenOut)
    case AmountField => PositiveNumber(input.amount)
    case LimitPriceField => PositiveNumber(input.limitPrice)
    case SlippageField => OptionalFraction(input.slippageTolerance)
  }

  /** The keys among `fs` whose constraint fails, in the order of `fs`. */
  function InvalidAmong(input: CreateOrderInput, fs: seq<SchemaField>): seq<SchemaField> {
    if fs == [] then []
    else (if FieldValid(input, fs[0]) then [] else [fs[0]]) + InvalidAmong(input, fs[1..])
  }

  lemma {:induction false} InvalidAmongExact(input: CreateOrderInput, fs: seq<SchemaField>)
    ensures forall f :: f in InvalidAmong(input, fs) <==> f in fs && !FieldValid(input, f)
  {
    if fs != [] {
      InvalidAmongExact(input, fs[1..]);
      assert fs == [fs[0]] + fs[1..];
    }
  }

  /** Every validation issue the schema reports for a request body, in schema order. */
  function Issues(input: CreateOrderInput): seq<SchemaField> {
    InvalidAmong(input, SchemaOrder)
  }

  /** Every key of the schema occurs in SchemaOrder. */
  lemma SchemaOrderComplete(f: SchemaField)
    ensures f in SchemaOrder
  {
    match f
    case UserIdField => assert SchemaOrder[0] == f;
    case OrderTypeField => assert SchemaOrder[1] == f;
    case TokenInField => assert SchemaOrder[2] == f;
    case TokenOutField => assert SchemaOrder[3] == f;
    case AmountField => assert SchemaOrder[4] == f;
    case LimitPriceField => assert SchemaOrder[5] == f;
    case SlippageField => assert SchemaOrder[6] == f;
  }

  /** A key is reported as an issue exactly when its constraint fails. */
  lemma IssuesExact(input: CreateOrderInput)
    ensures forall f :: f in Issues(input) <==> !FieldValid(input, f)
  {
    InvalidAmongExact(input, SchemaOrder);
    forall f ensures f in SchemaOrder { SchemaOrderComplete(f); }
  }

  /** The value the schema's `.optional().default(0.01)` gives the slippage tolerance. */
  function SlippageOrDefault(v: JsonField<real>): real {
    match v
    case Present(x) => x
    case _ => DefaultSlippageTolerance
  }

  /**
   * `CreateOrderSchema.parse`: the validated request when every constraint
   * holds, otherwise the list of failing keys.
   */
  function ValidateCreateOrder(input: CreateOrderInput): (r: Result<CreateOrderRequest, seq<SchemaField>>)
    ensures r.Success? <==> forall f :: FieldValid(input, f)
    ensures r.Failure? ==> r.error == Issues(input) && r.error != []
    ensures r.Success? ==>
      && input.userId == Present(r.value.userId) && |r.value.userId| >= 1
      && r.value.orderType == Limit
      && input.tokenIn == Present(r.value.tokenIn) && |r.value.tokenIn| >= 1
      && input.tokenOut == Present(r.value.tokenOut) && |r.value.tokenOut| >= 1
      && input.amount == Present(r.value.amount) && r.value.amount > 0.0
      && input.limitPrice == Present(r.value.limitPrice) && r.value.limitPrice > 0.0
      && 0.0 <= r.value.slippageTolerance <= 1.0
      && (input.slippageTolerance.Missing? ==> r.value.slippageTolerance == DefaultSlippageTolerance)
      && (input.slippageTolerance.Present? ==> r.value.slippageTolerance == input.slippageTolerance.value)
  {
    IssuesExact(input);
    if Issues(input) != [] then
      assert !FieldValid(input, Issues(input)[0]);
      Failure(Issues(input))
    else
      assert FieldValid(input, UserIdField) && FieldValid(input, TokenInField) && FieldValid(input, TokenOutField);
      assert FieldValid(input, AmountField) && FieldValid(input, LimitPriceField) && FieldValid(input, SlippageField);
      Success(CreateOrderRequest(
        input.userId.value, Limit, input.tokenIn.value, input.tokenOut.value,
        input.amount.value, input.limitPrice.value, SlippageOrDefault(input.slippageTolerance)))
  }

  /** Only `"limit"` passes: market and sniper orders, though they exist, are refused at intake. */
  lemma ValidationAdmitsOnlyLimit(input: CreateOrderInput)
    requires ValidateCreateOrder(input).Success?
    ensures input.orderType == Present(OrderTypeName(Limit))
    ensures input.orderType != Present(OrderTypeName(Market)) && input.orderType != Present(OrderTypeName(Sniper))
  {
    assert FieldValid(input, OrderTypeField);
  }

  /** An empty user id, an empty token or a non-positive amount or limit price is refused. */
  lemma ValidationRejects(input: CreateOrderInput)
    requires || input.userId == Present("") || input.tokenIn == Present("") || input.tokenOut == Present("")
             || (input.amount.Present? && input.amount.value <= 0.0)
             || (input.limitPrice.Present? && input.limitPrice.value <= 0.0)
             || (input.slippageTolerance.Present? && !(0.0 <= input.slippageTolerance.value <= 1.0))
    ensures ValidateCreateOrder(input).Failure?
  {
    if input.userId == Present("") { assert !FieldValid(input, UserIdField); }
    else if input.tokenIn == Present("") { assert !FieldValid(input, TokenInField); }
    else if input.tokenOut == Present("") { assert !FieldValid(input, TokenOutField); }
    else if input.amount.Present? && input.amount.value <= 0.0 { assert !FieldValid(input, AmountField); }
    else if input.limitPrice.Present? && input.limitPrice.value <= 0.0 { assert !FieldValid(input, LimitPriceField); }
    else { assert !FieldValid(input, SlippageField); }
  }

  /**
   * The request of the API test (empty user id, amount -1) fails on exactly the
   * user id and the amount; a well-formed body without a slippage tolerance
   * is accepted with the default 0.01.
   */
  lemma ValidationExamples()
    ensures Issues(CreateOrderInput(Present(""), Present("limit"), Present("SOL"), Present("USDC"),
                                    Present(-1.0), Present(25.5), Missing)) == [UserIdField, AmountField]
    ensures ValidateCreateOrder(CreateOrderInput(Present("test-user-get"), Present("limit"), Present("SOL"),
                                                 Present("USDC"), Present(1.0), Present(25.5), Missing))
         == Success(CreateOrderRequest("test-user-get", Limit, "SOL", "USDC", 1.0, 25.5, 0.01))
  {
    var bad := CreateOrderInput(Present(""), Present("limit"), Present("SOL"), Present("USDC"),
                                Present(-1.0), Present(25.5), Missing);
    assert SchemaOrder[1..] == [OrderTypeField, TokenInField, TokenOutField, AmountField, LimitPriceField, SlippageField];
    var good := CreateOrderInput(Present("test-user-get"), Present("limit"), Present("SOL"),
                                 Present("USDC"), Present(1.0), Present(25.5), Missing);
    forall f ensures FieldValid(good, f) { }
  }
}
