/** The demonstration transactions bundled with the app and the purchase
    strip derived from them. */
module TransactionData {
  import opened Lists
  import opened Glyphs

  datatype Kind = Transfer | Payment | Deposit

  /** A transaction of the bundled list; `amount` is in dollars, negative for
      money going out. */
  datatype Transaction = Transaction(
    id: string, kind: Kind, name: string, amount: real, date: string, time: string, icon: string)

  const BankTransfer1 := Transaction("NF - 0000001", Transfer, "Transfer from bank", 1000.0, "October 19, 2025", "09:09 AM", BankIcon)
  const Internet := Transaction("NF - 0000002", Payment, "Internet", -200.4, "October 17, 2025", "10:58 AM", SatelliteIcon)
  const Wholefoods := Transaction("NF - 0000003", Payment, "Wholefoods", -345.8, "October 16, 2025", "07:21 PM", CartIcon)
  const Starbucks := Transaction("NF - 0000004", Payment, "Starbucks", -7.49, "October 16, 2025", "02:35 PM", CoffeeIcon)
  const Gas := Transaction("NF - 0000005", Payment, "Gas", -183.5, "October 12, 2025", "08:29 AM", FuelPumpIcon)
  const Salary := Transaction("NF - 0000006", Deposit, "Salary", 20000.0, "October 10, 2025", "11:11 AM", MoneyBagIcon)
  const TraderJoe := Transaction("NF - 0000007", Payment, "Trader Joe", -45.89, "October 9, 2025", "04:34 PM", CartIcon)
  const JewelOsco := Transaction("NF - 0000008", Payment, "Jewel Osco", -200.0, "October 9, 2025", "12:09 PM", CartIcon)
  const Deposit1 := Transaction("NF - 0000009", Deposit, "Deposit", 570.0, "October 8, 2025", "03:11 PM", CardIcon)
  const Bobashop := Transaction("NF - 00000010", Payment, "Bobashop", -20.0, "October 5, 2025", "03:47 PM", BubbleTeaIcon)
  const BankTransfer2 := Transaction("NF - 00000011", Transfer, "Transfer from bank", 500.0, "October 3, 2025", "12:09 PM", BankIcon)
  const Spotify := Transaction("NF - 00000012", Payment, "Spotify Purchase", -10.59, "October 2, 2025", "03:58 PM", NoteIcon)
  const Deposit2 := Transaction("NF - 00000013", Deposit, "Deposit", 900.0, "October 1, 2025", "08:59 AM", CardIcon)

  /** `transactions`, newest first. */
  const Fixture: seq<Transaction> := [
    BankTransfer1, Internet, Wholefoods, Starbucks, Gas, Salary, TraderJoe,
    JewelOsco, Deposit1, Bobashop, BankTransfer2, Spotify, Deposit2
  ]

  /** No two bundled transactions share an id. */
  lemma FixtureIdsDistinct()
    ensures forall i, j :: 0 <= i < j < |Fixture| ==> Fixture[i].id != Fixture[j].id
  {
    forall i, j | 0 <= i < j < |Fixture|
      ensures Fixture[i].id != Fixture[j].id
    {
      FixtureIdShape(i);
      FixtureIdShape(j);
    }
  }

  /** The ids are "NF - 000000" followed by the position counted from 1: the
      first nine end in that digit, the last four in "10" to "13". */
  lemma FixtureIdShape(i: int)
    requires 0 <= i < |Fixture|
    ensures i < 9 ==> |Fixture[i].id| == 12 && Fixture[i].id[11] == ('1' as int + i) as char
    ensures i >= 9 ==> |Fixture[i].id| == 13 && Fixture[i].id[12] == ('0' as int + i - 9) as char
  {
  }

  /** The filter of the strip: a payment that takes money out. */
  predicate IsPurchase(t: Transaction)
  {
    t.kind == Payment && t.amount < 0.0
  }

  /** What the strip shows of a purchase. */
  datatype RecentIcon = RecentIcon(icon: string, name: string, date: string)

  function Project(t: Transaction): (r: RecentIcon)
    ensures r.icon == t.icon && r.name == t.name && r.date == t.date
  {
    RecentIcon(t.icon, t.name, t.date)
  }

  /** `.filter(purchase).slice(0, limit).map(project)` over any list. */
  function RecentIcons(ts: seq<Transaction>, limit: int): (r: seq<RecentIcon>)
    ensures limit >= 0 ==> |r| <= limit
    ensures var purchases := Filter(ts, IsPurchase);
            && |r| == |SliceTo(purchases, limit)| <= |purchases|
            && (forall i :: 0 <= i < |r| ==> r[i] == Project(purchases[i]))
            && (0 <= limit <= |purchases| ==> |r| == limit)
    ensures forall i :: 0 <= i < |r| ==> exists t :: t in ts && IsPurchase(t) && r[i] == Project(t)
  {
    var purchases := Filter(ts, IsPurchase);
    FilterMembers(ts, IsPurchase);
    var prefix := SliceTo(purchases, limit);
    seq(|prefix|, i requires 0 <= i < |prefix| => Project(prefix[i]))
  }

  /** `getRecentTransactionIcons`, with the code's default limit of 6. */
  function GetRecentTransactionIcons(limit: int := 6): (r: seq<RecentIcon>)
    ensures limit >= 0 ==> |r| <= limit
    ensures |r| == |SliceTo(Filter(Fixture, IsPurchase), limit)|
    ensures forall i :: 0 <= i < |r| ==> r[i] == Project(Filter(Fixture, IsPurchase)[i])
    ensures forall i :: 0 <= i < |r| ==> exists t :: t in Fixture && IsPurchase(t) && r[i] == Project(t)
  {
    RecentIcons(Fixture, limit)
  }

  /** The bundled list holds eight purchases: Internet, Wholefoods,
      Starbucks, Gas, Trader Joe, Jewel Osco, Bobashop and Spotify, in order. */
  lemma FixturePurchases()
    ensures Filter(Fixture, IsPurchase)
         == [Internet, Wholefoods, Starbucks, Gas, TraderJoe, JewelOsco, Bobashop, Spotify]
  {
    PurchasesOf(Fixture);
  }

  lemma PurchasesOf(f: seq<Transaction>)
    requires f == Fixture
    ensures Filter(f, IsPurchase)
         == [Internet, Wholefoods, Starbucks, Gas, TraderJoe, JewelOsco, Bobashop, Spotify]
  {
    EarlyPurchases(f);
    LaterPurchases(f);
  }

  lemma EarlyPurchases(f: seq<Transaction>)
    requires f == Fixture
    ensures Filter(f, IsPurchase) == [Internet, Wholefoods, Starbucks, Gas] + Filter(f[5..], IsPurchase)
  {
    OpeningPurchases(f);
    SecondPurchases(f);
  }

  lemma OpeningPurchases(f: seq<Transaction>)
    requires f == Fixture
    ensures Filter(f, IsPurchase) == [Internet, Wholefoods] + Filter(f[3..], IsPurchase)
  {
    OpeningTransfer(f);
    FirstPurchases(f);
  }

  lemma LaterPurchases(f: seq<Transaction>)
    requires f == Fixture
    ensures Filter(f[5..], IsPurchase) == [TraderJoe, JewelOsco, Bobashop, Spotify]
  {
    MiddlePurchases(f);
    LastPurchases(f);
  }

  lemma FirstPurchases(f: seq<Transaction>)
    requires f == Fixture
    ensures Filter(f[1..], IsPurchase) == [Internet, Wholefoods] + Filter(f[3..], IsPurchase)
  {
    PurchaseFacts();
    FilterStep(f, 2);
    FilterStep(f, 1);
  }

  lemma SecondPurchases(f: seq<Transaction>)
    requires f == Fixture
    ensures Filter(f[3..], IsPurchase) == [Starbucks, Gas] + Filter(f[5..], IsPurchase)
  {
    PurchaseFacts();
    FilterStep(f, 4);
    FilterStep(f, 3);
  }

  /** The list opens with a transfer, which the filter drops. */
  lemma OpeningTransfer(f: seq<Transaction>)
    requires f == Fixture
    ensures Filter(f, IsPurchase) == Filter(f[1..], IsPurchase)
  {
    PurchaseFacts();
    assert f == [f[0]] + f[1..];
    FilterCons(f[0], f[1..], IsPurchase);
  }

  lemma MiddlePurchases(f: seq<Transaction>)
    requires f == Fixture
    ensures Filter(f[5..], IsPurchase) == [TraderJoe, JewelOsco] + Filter(f[9..], IsPurchase)
  {
    PurchaseFacts();
    FilterStep(f, 8);
    FilterStep(f, 7);
    FilterStep(f, 6);
    FilterStep(f, 5);
  }

  lemma LastPurchases(f: seq<Transaction>)
    requires f == Fixture
    ensures Filter(f[9..], IsPurchase) == [Bobashop, Spotify]
  {
    PurchaseFacts();
    assert f[13..] == [];
    FilterStep(f, 12);
    FilterStep(f, 11);
    FilterStep(f, 10);
    FilterStep(f, 9);
  }

  /** One step of the filter over the bundled list. */
  lemma FilterStep(f: seq<Transaction>, k: int)
    requires 0 <= k < |f|
    ensures Filter(f[k..], IsPurchase) == (if IsPurchase(f[k]) then [f[k]] else []) + Filter(f[k + 1..], IsPurchase)
  {
    assert f[k..] == [f[k]] + f[k + 1..];
    FilterCons(f[k], f[k + 1..], IsPurchase);
  }

  /** Which bundled transactions are purchases. */
  lemma PurchaseFacts()
    ensures !IsPurchase(BankTransfer1) && !IsPurchase(Salary) && !IsPurchase(Deposit1)
    ensures !IsPurchase(BankTransfer2) && !IsPurchase(Deposit2)
    ensures IsPurchase(Internet) && IsPurchase(Wholefoods) && IsPurchase(Starbucks) && IsPurchase(Gas)
    ensures IsPurchase(TraderJoe) && IsPurchase(JewelOsco) && IsPurchase(Bobashop) && IsPurchase(Spotify)
  {
  }

  /** With the default limit the strip shows Internet, Wholefoods,
      Starbucks, Gas, Trader Joe and Jewel Osco. */
  lemma DefaultStrip()
    ensures GetRecentTransactionIcons()
         == [Project(Internet), Project(Wholefoods), Project(Starbucks), Project(Gas),
             Project(TraderJoe), Project(JewelOsco)]
  {
    FixturePurchases();
    StripOf(Fixture);
  }

  lemma StripOf(ts: seq<Transaction>)
    requires Filter(ts, IsPurchase)
          == [Internet, Wholefoods, Starbucks, Gas, TraderJoe, JewelOsco, Bobashop, Spotify]
    ensures RecentIcons(ts, 6)
         == [Project(Internet), Project(Wholefoods), Project(Starbucks), Project(Gas),
             Project(TraderJoe), Project(JewelOsco)]
  {
    var r := RecentIcons(ts, 6);
    assert |r| == 6;
    assert r[0] == Project(Internet) && r[1] == Project(Wholefoods) && r[2] == Project(Starbucks);
    assert r[3] == Project(Gas) && r[4] == Project(TraderJoe) && r[5] == Project(JewelOsco);
  }
}
