/** The bookkeeping records of the application (bill items, transactions,
    bills, the three kinds of party and stock items) and the seed data the
    screens start from, with the rules that data keeps: totals agree with
    items, ids are unique, counterparties name existing parties, each
    transaction mirrors a bill, and stock is scoped by company. Amounts,
    quantities and prices are whole numbers throughout the seed data and
    are modelled as `int`. */
module Records {

  datatype Unit = Kg | Ton | Bags
  datatype TransactionType = Sale | Purchase
  datatype Company = Company1 | Company2
  datatype CounterpartyType = CustomerParty | FarmerParty | OrganizationParty
  datatype BillType = Receivable | Payable
  datatype Status = Paid | Pending | Overdue
  datatype ProductType = Fertilizer | Seeds | Maize

  datatype BillItem = BillItem(id: string, productName: string, quantity: int, unit: Unit, price: int)

  datatype Transaction = Transaction(
    id: string,
    date: string,
    kind: TransactionType,
    company: Company,
    counterparty: string,
    counterpartyType: CounterpartyType,
    items: seq<BillItem>,
    totalAmount: int)

  datatype Customer = Customer(id: string, name: string, phone: string, email: string, address: string, lastPurchaseDate: string)

  datatype Farmer = Farmer(id: string, name: string, location: string, phone: string)

  datatype Organization = Organization(id: string, name: string, contactPerson: string, phone: string, email: string, productTypes: string)

  datatype StockItem = StockItem(id: string, productName: string, kind: ProductType, company: Company, quantity: int, unit: Unit, location: string)

  /** A bill; its counterparty's name is kept in the field `customer`,
      whatever kind of party it is. */
  datatype Bill = Bill(
    invoiceId: string,
    customer: string,
    counterpartyType: CounterpartyType,
    billType: BillType,
    company: Company,
    totalAmount: int,
    dueDate: string,
    status: Status,
    items: seq<BillItem>)

  // ---------------------------------------------------------------------
  // Totals

  /** Σ quantity × price over the items. */
  function Total(items: seq<BillItem>): int
  {
    if |items| == 0 then 0 else items[0].quantity * items[0].price + Total(items[1..])
  }

  /** The total of two item lists laid end to end is the sum of their totals. */
  lemma {:induction false} TotalAppend(a: seq<BillItem>, b: seq<BillItem>)
    ensures Total(a + b) == Total(a) + Total(b)
  {
    if |a| > 0 {
      assert (a + b)[1..] == a[1..] + b;
      TotalAppend(a[1..], b);
    } else {
      assert a + b == b;
    }
  }

  predicate PositiveItems(items: seq<BillItem>)
  {
    forall i :: 0 <= i < |items| ==> items[i].quantity > 0 && items[i].price > 0
  }

  /** A non-empty list of items with positive quantities and prices has a
      positive total, at least as large as any one line. */
  lemma {:induction false} TotalPositive(items: seq<BillItem>)
    requires PositiveItems(items)
    ensures Total(items) >= 0
    ensures |items| > 0 ==> Total(items) > 0
    ensures forall i :: 0 <= i < |items| ==> Total(items) >= items[i].quantity * items[i].price
  {
    if |items| > 0 {
      TotalPositive(items[1..]);
      var q, p := items[0].quantity, items[0].price;
      assert q * p > 0 by { assert q >= 1 && p >= 1; }
      forall i | 1 <= i < |items|
        ensures Total(items) >= items[i].quantity * items[i].price
      {
        assert items[1..][i - 1] == items[i];
      }
    }
  }

  /** The bookkeeping rule a bill or transaction keeps: at least one item,
      positive quantities and prices, and a total that is the sum of its lines. */
  predicate WellFormedLines(items: seq<BillItem>, totalAmount: int)
  {
    |items| > 0 && PositiveItems(items) && totalAmount == Total(items)
  }

  /** The transaction type a bill of the given type is recorded as. */
  function TypeFor(billType: BillType): TransactionType
  {
    if billType == Receivable then Sale else Purchase
  }

  /** An item as a line: everything except its id. */
  datatype Line = Line(productName: string, quantity: int, unit: Unit, price: int)

  function Lines(items: seq<BillItem>): (lines: seq<Line>)
    ensures |lines| == |items|
    ensures forall i :: 0 <= i < |items| ==>
      lines[i] == Line(items[i].productName, items[i].quantity, items[i].unit, items[i].price)
  {
    if |items| == 0 then []
    else [Line(items[0].productName, items[0].quantity, items[0].unit, items[0].price)] + Lines(items[1..])
  }

  /** Items with the same lines have the same total, whatever their ids. */
  lemma {:induction false} SameLinesSameTotal(a: seq<BillItem>, b: seq<BillItem>)
    requires Lines(a) == Lines(b)
    ensures Total(a) == Total(b)
  {
    if |a| > 0 {
      assert Lines(a[1..]) == Lines(a)[1..] == Lines(b)[1..] == Lines(b[1..]);
      SameLinesSameTotal(a[1..], b[1..]);
    }
  }

  /** Transaction `t` mirrors bill `b`: same counterparty, kind of party,
      company, lines and total, and a Sale exactly when the bill is Receivable. */
  predicate Mirrors(t: Transaction, b: Bill)
  {
    && t.counterparty == b.customer
    && t.counterpartyType == b.counterpartyType
    && t.company == b.company
    && t.totalAmount == b.totalAmount
    && Lines(t.items) == Lines(b.items)
    && t.kind == TypeFor(b.billType)
  }

  /** A transaction that mirrors a well-formed bill is well formed itself. */
  lemma MirrorKeepsTotals(t: Transaction, b: Bill)
    requires Mirrors(t, b) && WellFormedLines(b.items, b.totalAmount)
    ensures WellFormedLines(t.items, t.totalAmount)
    ensures (t.kind == Sale) == (b.billType == Receivable)
  {
    SameLinesSameTotal(t.items, b.items);
    forall i | 0 <= i < |t.items|
      ensures t.items[i].quantity > 0 && t.items[i].price > 0
    {
      assert Lines(t.items)[i] == Lines(b.items)[i];
    }
  }

  /** Only Company 1 trades fertilizer and seeds, only Company 2 maize. */
  predicate ScopedToCompany(kind: ProductType, company: Company)
  {
    match company
    case Company1 => kind == Fertilizer || kind == Seeds
    case Company2 => kind == Maize
  }

  // ---------------------------------------------------------------------
  // Seed data

  const InitialTransactions: seq<Transaction> := [
    Transaction("TRN001", "2024-07-15", Sale, Company1, "John Doe Farms", CustomerParty,
      [BillItem("STK001", "Urea Fertilizer", 50, Bags, 25)], 1250),
    Transaction("TRN002", "2024-07-14", Purchase, Company2, "Samuel Miller", FarmerParty,
      [BillItem("STK003", "Yellow Maize", 20, Ton, 200)], 4000),
    Transaction("TRN003", "2024-07-12", Purchase, Company1, "Agri Supplies Co.", OrganizationParty,
      [BillItem("STK004", "DAP Fertilizer", 100, Bags, 35)], 3500),
    Transaction("TRN004", "2024-07-11", Sale, Company1, "Jane Smith Fields", CustomerParty,
      [BillItem("STK002", "Hybrid Maize Seeds", 10, Bags, 50),
       BillItem("STK001", "Urea Fertilizer", 5, Bags, 25)], 625)
  ]

  const Customers: seq<Customer> := [
    Customer("CUS001", "John Doe Farms", "555-0101", "john.doe@example.com", "123 Farm Rd, Rural Town", "2024-05-15"),
    Customer("CUS002", "Jane Smith Fields", "555-0102", "jane.smith@example.com", "456 Meadow Ln, Greenfield", "2024-06-01"),
    Customer("CUS003", "Local Coop", "555-0103", "contact@localcoop.com", "789 Market St, Cityville", "2024-05-28"),
    Customer("CUS004", "Green Valley Gardens", "555-0104", "info@gvgardens.net", "321 Orchard Ave, Fruitdale", "2024-06-10")
  ]

  const Farmers: seq<Farmer> := [
    Farmer("FARM001", "Samuel Miller", "West Valley", "555-0301"),
    Farmer("FARM002", "Isabella Garcia", "East Ridge", "555-0302"),
    Farmer("FARM003", "William Brown", "North Plains", "555-0303"),
    Farmer("FARM004", "Sophia Nguyen", "South Delta", "555-0304")
  ]

  const Organizations: seq<Organization> := [
    Organization("ORG001", "Agri Supplies Co.", "Mark Johnson", "555-0201", "sales@agrisupplies.com", "Fertilizer, Seeds"),
    Organization("ORG002", "Global Exports Inc.", "Susan Lee", "555-0202", "susan.lee@globalexports.com", "Maize"),
    Organization("ORG003", "Maize Traders LLC", "David Chen", "555-0203", "david.chen@maizetraders.com", "Maize"),
    Organization("ORG004", "Heritage Seeds Ltd.", "Maria Garcia", "555-0204", "maria.g@heritageseeds.com", "Seeds")
  ]

  const Stock: seq<StockItem> := [
    StockItem("STK001", "Urea Fertilizer", Fertilizer, Company1, 500, Bags, "Warehouse A"),
    StockItem("STK002", "Hybrid Maize Seeds", Seeds, Company1, 200, Bags, "Warehouse B"),
    StockItem("STK003", "Imported Yellow Maize", Maize, Company2, 150, Ton, "Silo 3"),
    StockItem("STK004", "DAP Fertilizer", Fertilizer, Company1, 300, Bags, "Warehouse A"),
    StockItem("STK005", "Sorghum Seeds", Seeds, Company1, 150, Bags, "Warehouse B"),
    StockItem("STK006", "Local White Maize", Maize, Company2, 250, Ton, "Silo 1")
  ]

  const InitialBills: seq<Bill> := [
    Bill("INV-2024001", "John Doe Farms", CustomerParty, Receivable, Company1, 1250, "2024-07-30", Paid,
      [BillItem("STK001", "Urea Fertilizer", 50, Bags, 25)]),
    Bill("BILL-001", "Agri Supplies Co.", OrganizationParty, Payable, Company1, 3500, "2024-08-20", Pending,
      [BillItem("STK004", "DAP Fertilizer", 100, Bags, 35)]),
    Bill("INV-2024002", "Global Exports Inc.", OrganizationParty, Receivable, Company2, 15000, "2024-08-15", Pending,
      [BillItem("STK003", "Imported Yellow Maize", 75, Ton, 200)]),
    Bill("BILL-002", "Samuel Miller", FarmerParty, Payable, Company2, 4000, "2024-08-10", Paid,
      [BillItem("FARM001", "Yellow Maize", 20, Ton, 200)]),
    Bill("INV-2024003", "Jane Smith Fields", CustomerParty, Receivable, Company1, 625, "2024-08-05", Pending,
      [BillItem("STK002", "Hybrid Maize Seeds", 10, Bags, 50),
       BillItem("STK001", "Urea Fertilizer", 5, Bags, 25)])
  ]

  predicate Distinct(ids: seq<string>)
  {
    forall i, j :: 0 <= i < j < |ids| ==> ids[i] != ids[j]
  }

  /** Whether some party of the given kind goes by `name`. */
  predicate NamesParty(name: string, kind: CounterpartyType)
  {
    match kind
    case CustomerParty => exists c :: c in Customers && c.name == name
    case FarmerParty => exists f :: f in Farmers && f.name == name
    case OrganizationParty => exists o :: o in Organizations && o.name == name
  }

  // ---------------------------------------------------------------------
  // Rules the seed data keeps

  /** Every seed transaction and bill has at least one item, positive
      quantities and prices, and a total equal to Σ quantity × price. */
  lemma SeedTotals()
    ensures forall t :: t in InitialTransactions ==> WellFormedLines(t.items, t.totalAmount)
    ensures forall b :: b in InitialBills ==> WellFormedLines(b.items, b.totalAmount)
    ensures InitialTransactions[3].totalAmount == 10 * 50 + 5 * 25 == 625
    ensures InitialBills[2].totalAmount == 75 * 200 == 15000
  {
  }

  /** Ids are pairwise distinct in every seed collection. */
  lemma SeedIdsDistinct()
    ensures Distinct(seq(|InitialTransactions|, i requires 0 <= i < |InitialTransactions| => InitialTransactions[i].id))
    ensures Distinct(seq(|Customers|, i requires 0 <= i < |Customers| => Customers[i].id))
    ensures Distinct(seq(|Farmers|, i requires 0 <= i < |Farmers| => Farmers[i].id))
    ensures Distinct(seq(|Organizations|, i requires 0 <= i < |Organizations| => Organizations[i].id))
    ensures Distinct(seq(|Stock|, i requires 0 <= i < |Stock| => Stock[i].id))
    ensures Distinct(seq(|InitialBills|, i requires 0 <= i < |InitialBills| => InitialBills[i].invoiceId))
  {
  }

  /** Every seed transaction and bill names an existing party of its stated kind. */
  lemma SeedCounterpartiesExist()
    ensures forall t :: t in InitialTransactions ==> NamesParty(t.counterparty, t.counterpartyType)
    ensures forall b :: b in InitialBills ==> NamesParty(b.customer, b.counterpartyType)
  {
    assert Customers[0].name == "John Doe Farms" && Customers[1].name == "Jane Smith Fields";
    assert Farmers[0].name == "Samuel Miller";
    assert Organizations[0].name == "Agri Supplies Co." && Organizations[1].name == "Global Exports Inc.";
  }

  /** Every seed transaction mirrors some seed bill; in particular it is a
      Sale exactly when that bill is Receivable. */
  lemma SeedTransactionsMirrorBills()
    ensures forall t :: t in InitialTransactions ==> exists b :: b in InitialBills && Mirrors(t, b)
  {
    assert Mirrors(InitialTransactions[0], InitialBills[0]);
    assert Mirrors(InitialTransactions[1], InitialBills[3]);
    assert Mirrors(InitialTransactions[2], InitialBills[1]);
    assert Mirrors(InitialTransactions[3], InitialBills[4]);
  }

  /** The mirror is up to item ids: TRN002 records its maize under the stock
      id STK003 while its bill BILL-002 records it under FARM001. */
  lemma SeedMirrorIgnoresItemIds()
    ensures InitialTransactions[1].items != InitialBills[3].items
    ensures Lines(InitialTransactions[1].items) == Lines(InitialBills[3].items)
  {
    assert InitialTransactions[1].items[0].id != InitialBills[3].items[0].id;
  }

  /** Company 1 stocks only fertilizer and seeds, Company 2 only maize, and
      no stock quantity is negative. */
  lemma SeedStockScoped()
    ensures forall s :: s in Stock ==> ScopedToCompany(s.kind, s.company) && s.quantity >= 0
  {
  }
}
