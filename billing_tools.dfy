/** The billing agent's tools (agents/billing/_tools/billing_tools.py):
    mock bill lookups, a mock send and a refund ticket, and the map from
    tool names to them that the model's function calls go through. */
module BillingTools {
  import opened Wrappers
  import opened Json
  import opened PyText
  import opened BaseAgent

  /** The tool names the schema declares, in its order. */
  const BillingToolNames: seq<string> := ["get_bills", "get_bill_by_id", "send_bill", "refund_ticket"]

  /** The parameters each schema entry declares, all of them required. */
  function BillingParams(name: string): set<string> {
    if name == "get_bills" then {"ph_number"}
    else if name == "get_bill_by_id" then {"ph_number", "bill_id"}
    else if name == "send_bill" then {"ph_number", "bill_id", "mode"}
    else if name == "refund_ticket" then {"ph_number", "bill_id", "amount", "reason"}
    else {}
  }

  function LineItem(product: string, price: real): Json {
    JObj(map["product" := JStr(product), "price" := JFloat(price)])
  }

  function Bill(id: string, due: string, mode: string, total: real, items: seq<Json>): Json {
    JObj(map["bill_id" := JStr(id), "due_date" := JStr(due), "mode" := JStr(mode),
             "total_amount" := JFloat(total), "items" := JArr(items)])
  }

  /** The two mock bills. */
  const MockBills: seq<Json> := [
    Bill("B001", "2024-07-15", "UPI", 299.97, [
      LineItem("Robotic Floor Cleaner M612", 249.99),
      LineItem("Cleaner Solution (1L)", 19.99),
      LineItem("Replacement Mop Pads (Pack of 3)", 29.99)]),
    Bill("B002", "2024-09-05", "Credit Card", 488.23, [
      LineItem("Robotic Floor Cleaner M612", 249.99),
      LineItem("Dust Filter Cartridge", 15.49),
      LineItem("Mop Head Replacement Kit", 22.75)])]

  const CustomerName := "John Doe"

  /** The one customer record, under the phone number as text. */
  function CustomerRecord(phone: string): Json {
    JObj(map["ph_number" := JStr(phone), "name" := JStr(CustomerName), "user_id" := JStr("U123456"),
             "bills" := JArr(MockBills)])
  }

  /** `get_bills`: the same record whatever the number, except that it
      carries `str(ph_number)`. */
  function GetBills(py: Py, phNumber: Json): Json {
    JArr([CustomerRecord(Str(py, phNumber))])
  }

  /** One record, whose number is the input as text and whose bills are B001
      and B002. */
  lemma GetBillsShape(py: Py, phNumber: Json)
    ensures var r := GetBills(py, phNumber);
      r.JArr? && |r.items| == 1 && r.items[0].JObj?
      && r.items[0].fields["ph_number"] == JStr(Str(py, phNumber))
      && r.items[0].fields["bills"] == JArr(MockBills)
      && |MockBills| == 2 && BillIdOf(MockBills[0]) == "B001" && BillIdOf(MockBills[1]) == "B002"
  {
  }

  /** Two calls differ in nothing but the number. */
  lemma GetBillsIgnoresInput(py: Py, a: Json, b: Json)
    ensures GetBills(py, a).items[0].fields - {"ph_number"} == GetBills(py, b).items[0].fields - {"ph_number"}
  {
    var ra, rb := CustomerRecord(Str(py, a)).fields, CustomerRecord(Str(py, b)).fields;
    assert (ra - {"ph_number"}).Keys == (rb - {"ph_number"}).Keys;
  }

  /** The id of a mock bill. */
  function BillIdOf(bill: Json): string {
    if bill.JObj? && "bill_id" in bill.fields && bill.fields["bill_id"].JStr? then bill.fields["bill_id"].s else ""
  }

  /** The first bill whose id matches `key` ignoring case. */
  function FindBill(bills: seq<Json>, key: string): (r: Option<nat>)
    ensures r.Some? ==> r.value < |bills| && Lower(BillIdOf(bills[r.value])) == Lower(key)
    ensures r.Some? ==> forall k :: 0 <= k < r.value ==> Lower(BillIdOf(bills[k])) != Lower(key)
    ensures r.None? ==> forall k :: 0 <= k < |bills| ==> Lower(BillIdOf(bills[k])) != Lower(key)
  {
    if bills == [] then None
    else if Lower(BillIdOf(bills[0])) == Lower(key) then Some(0)
    else match FindBill(bills[1..], key)
      case None => None
      case Some(k) => Some(k + 1)
  }

  /** What a match returns: the customer's number and name with the bill. */
  function BillMatch(py: Py, phNumber: Json, bill: Json): Json {
    JObj(map["ph_number" := JStr(Str(py, phNumber)), "name" := JStr(CustomerName), "bill" := bill])
  }

  /** `get_bill_by_id`: the first bill whose id equals `bill_id` ignoring
      case, or `None`; an id that is not text has no `.lower()`. */
  function BillById(py: Py, phNumber: Json, billId: Json): (r: Result<Json, Fault>)
    ensures !billId.JStr? <==> r == Failure(NoAttribute)
    ensures billId.JStr? ==> r.Success?
    ensures billId.JStr? ==> (r.value == JNull <==> forall k :: 0 <= k < |MockBills| ==> Lower(BillIdOf(MockBills[k])) != Lower(billId.s))
    ensures billId.JStr? && r.value != JNull ==>
      exists k :: 0 <= k < |MockBills| && Lower(BillIdOf(MockBills[k])) == Lower(billId.s)
        && r.value == BillMatch(py, phNumber, MockBills[k])
  {
    if !billId.JStr? then Failure(NoAttribute)
    else match FindBill(MockBills, billId.s)
      case None => Success(JNull)
      case Some(k) => Success(BillMatch(py, phNumber, MockBills[k]))
  }

  /** The lookup ignores case: ids equal up to case find the same bill. */
  lemma BillByIdIgnoresCase(py: Py, phNumber: Json, a: string, b: string)
    requires Lower(a) == Lower(b)
    ensures BillById(py, phNumber, JStr(a)) == BillById(py, phNumber, JStr(b))
  {
    LowerFindBill(MockBills, a, b);
  }

  lemma {:induction false} LowerFindBill(bills: seq<Json>, a: string, b: string)
    requires Lower(a) == Lower(b)
    ensures FindBill(bills, a) == FindBill(bills, b)
  {
    if bills != [] {
      LowerFindBill(bills[1..], a, b);
    }
  }

  /** `get_bill_by_id` as the loop over the customer's bills. */
  method GetBillById(py: Py, phNumber: Json, billId: Json) returns (r: Result<Json, Fault>)
    ensures r == BillById(py, phNumber, billId)
  {
    var bills := MockBills;
    var k := 0;
    while k < |bills|
      invariant bills == MockBills && k <= |bills|
      invariant !billId.JStr? ==> k == 0
      invariant billId.JStr? ==> forall j :: 0 <= j < k ==> Lower(BillIdOf(bills[j])) != Lower(billId.s)
    {
      if !billId.JStr? {
        return Failure(NoAttribute);
      }
      if Lower(BillIdOf(bills[k])) == Lower(billId.s) {
        var found := FindBill(bills, billId.s);
        assert found == Some(k);
        return Success(BillMatch(py, phNumber, bills[k]));
      }
      k := k + 1;
    }
    r := Success(JNull);
  }

  /** `send_bill`: a confirmation naming the bill, the number and the mode
      (the f-string's parts, joined). */
  function SendBill(py: Py, phNumber: Json, billId: Json, mode: Json): (r: string)
    ensures Contains(r, Str(py, billId)) && Contains(r, Str(py, phNumber)) && Contains(r, Str(py, mode))
  {
    var parts := ["Bill ", Str(py, billId), " has been sent to phone number ", Str(py, phNumber), " via ", Str(py, mode), "."];
    JoinContainsPart(parts, "", 1);
    JoinContainsPart(parts, "", 3);
    JoinContainsPart(parts, "", 5);
    Join(parts, "")
  }

  const InvalidAmount := "Invalid amount provided. Please enter a numeric value."
  const MissingAmount := "Please calculate the refund amount before raising a refund ticket."

  /** The amount after `float(amount)` on text: `None` stands for the
      ValueError of text that is not a number. Other values pass as they are. */
  function AmountValue(py: Py, amount: Json): Option<Json> {
    if amount.JStr? then
      (match py.parseFloat(amount.s) case None => None case Some(x) => Some(JFloat(x)))
    else Some(amount)
  }

  /** The amount as a number, when it is one (booleans are the numbers 0
      and 1 in Python). */
  function AsNumber(v: Json): Option<real> {
    match v
    case JInt(i) => Some(i as real)
    case JFloat(f) => Some(f)
    case JBool(b) => Some(if b then 1.0 else 0.0)
    case _ => None
  }

  /** The success message. */
  function RefundParts(py: Py, phNumber: Json, billId: Json, amount: real, reason: Json): seq<string> {
    ["A refund ticket of $", py.money(amount), " for bill ", Str(py, billId),
     " has been raised for phone number ", Str(py, phNumber), " due to '", Str(py, reason), "'."]
  }

  function RefundMessage(py: Py, phNumber: Json, billId: Json, amount: real, reason: Json): string {
    Join(RefundParts(py, phNumber, billId, amount, reason), "")
  }

  /** `refund_ticket`. Text that is not a number is refused; a missing, zero
      or negative amount is refused with a request to calculate it; a list
      or dict cannot be compared with 0 and raises; any other amount raises
      the ticket. */
  function RefundTicket(py: Py, phNumber: Json, billId: Json, amount: Json, reason: Json): (r: Result<string, Fault>)
    ensures AmountValue(py, amount).None? ==> r == Success(InvalidAmount)
    ensures AmountValue(py, amount) == Some(JNull) ==> r == Success(MissingAmount)
    ensures AmountValue(py, amount).Some? && AsNumber(AmountValue(py, amount).value).Some? ==>
      var x := AsNumber(AmountValue(py, amount).value).value;
      r == if x <= 0.0 then Success(MissingAmount) else Success(RefundMessage(py, phNumber, billId, x, reason))
    ensures AmountValue(py, amount).Some? && (AmountValue(py, amount).value.JArr? || AmountValue(py, amount).value.JObj?) ==>
      r == Failure(NotComparable)
  {
    match AmountValue(py, amount)
    case None => Success(InvalidAmount)
    case Some(v) =>
      if v == JNull then Success(MissingAmount)
      else match AsNumber(v)
        case None => Failure(NotComparable)
        case Some(x) => if x <= 0.0 then Success(MissingAmount) else Success(RefundMessage(py, phNumber, billId, x, reason))
  }

  /** The ticket names the bill, the number and the reason. */
  lemma RefundMessageNames(py: Py, phNumber: Json, billId: Json, x: real, reason: Json)
    ensures var m := RefundMessage(py, phNumber, billId, x, reason);
      Contains(m, Str(py, billId)) && Contains(m, Str(py, phNumber)) && Contains(m, Str(py, reason))
  {
    var parts := RefundParts(py, phNumber, billId, x, reason);
    JoinContainsPart(parts, "", 3);
    JoinContainsPart(parts, "", 5);
    JoinContainsPart(parts, "", 7);
  }

  /** A tool called by name with keyword arguments, as `func(**params)`. */
  function CallBillingTool(py: Py, name: string, args: map<string, Json>): (r: Result<Json, Fault>)
    ensures !Binds(args, BillingParams(name)) ==> r == Failure(BadKeywords)
  {
    if !Binds(args, BillingParams(name)) then Failure(BadKeywords)
    else if name == "get_bills" then Success(GetBills(py, args["ph_number"]))
    else if name == "get_bill_by_id" then BillById(py, args["ph_number"], args["bill_id"])
    else if name == "send_bill" then Success(JStr(SendBill(py, args["ph_number"], args["bill_id"], args["mode"])))
    else if name == "refund_ticket" then
      (match RefundTicket(py, args["ph_number"], args["bill_id"], args["amount"], args["reason"])
       case Success(t) => Success(JStr(t))
       case Failure(e) => Failure(e))
    else Failure(BadKeywords)
  }

  /** `BILLING_TOOL_MAP`. */
  function BillingToolMap(py: Py): (m: map<string, ToolFn>)
    ensures m.Keys == set n | n in BillingToolNames
    ensures forall n :: n in m ==> forall args :: m[n](args) == CallBillingTool(py, n, args)
  {
    map["get_bills" := (args: map<string, Json>) => CallBillingTool(py, "get_bills", args),
        "get_bill_by_id" := (args: map<string, Json>) => CallBillingTool(py, "get_bill_by_id", args),
        "send_bill" := (args: map<string, Json>) => CallBillingTool(py, "send_bill", args),
        "refund_ticket" := (args: map<string, Json>) => CallBillingTool(py, "refund_ticket", args)]
  }

  /** Every name in the map has a schema entry with parameters. */
  lemma BillingSchemaCovers(py: Py)
    ensures forall n :: n in BillingToolMap(py) ==> BillingParams(n) != {}
  {
  }

  /** Through the worker's tool executor, a billing call whose keywords are
      not the declared ones is reported as a failed execution, and a
      `send_bill` call that binds reports the confirmation. */
  lemma BillingCallsThroughExecutor(py: Py, parse: string -> Option<Json>, call: ToolCall, fields: map<string, Json>)
    requires call.name in BillingToolNames && parse(call.arguments) == Some(JObj(fields))
    ensures !Binds(fields, BillingParams(call.name)) ==>
      ToolResult(py, BillingToolMap(py), parse, call) == ExecutionFailed + py.describe(BadKeywords)
    ensures call.name == "send_bill" && Binds(fields, BillingParams(call.name)) ==>
      ToolResult(py, BillingToolMap(py), parse, call)
      == SendBill(py, fields["ph_number"], fields["bill_id"], fields["mode"])
  {
    var m := BillingToolMap(py);
    assert call.name in m;
  }
}
