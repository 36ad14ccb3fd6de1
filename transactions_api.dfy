/** The record shaping of the transactions service: the category icon lookup,
    the demonstration rules that assign an account to each record, and the
    transforms applied to the records the API returns. The HTTP requests and
    the fallback payloads are not modelled; the parsed records are inputs. */
module TransactionsApi {
  import opened Text
  import opened JsObject
  import opened Lists
  import opened Glyphs

  // ---------------------------------------------------------------------------
  // getCategoryIcon

  /** The `categoryMap` of `getCategoryIcon`, keys as the code spells them. */
  const IconMap: map<string, string> := map[
    "Food & Groceries" := AppleIcon,
    "food" := AppleIcon,
    "groceries" := AppleIcon,
    "Transportation" := CarIcon,
    "transport" := CarIcon,
    "gas" := FuelPumpIcon,
    "Housing & Utilities" := HouseIcon,
    "housing" := HouseIcon,
    "utilities" := BulbIcon,
    "Entertainment" := ClapperIcon,
    "entertainment" := ClapperIcon,
    "Healthcare" := HospitalIcon,
    "health" := HospitalIcon,
    "Education" := BooksIcon,
    "education" := BooksIcon,
    "Shopping" := ShoppingBagsIcon,
    "shopping" := ShoppingBagsIcon,
    "Transfer" := BankIcon,
    "transfer" := BankIcon,
    "bank" := BankIcon,
    "Deposit" := MoneyBagIcon,
    "deposit" := MoneyBagIcon,
    "income" := MoneyBagIcon,
    "Other" := CardIcon,
    "default" := CardIcon
  ]

  /** Every icon the map can produce. */
  const Icons: set<string> := {AppleIcon, CarIcon, FuelPumpIcon, HouseIcon, BulbIcon, ClapperIcon,
                               HospitalIcon, BooksIcon, ShoppingBagsIcon, BankIcon, MoneyBagIcon,
                               CardIcon}

  lemma IconMapValues()
    ensures IconMap.Values == Icons
    ensures IconMap["default"] == CardIcon
  {
    assert IconMap["food"] == AppleIcon;
    assert IconMap["transport"] == CarIcon;
    assert IconMap["gas"] == FuelPumpIcon;
    assert IconMap["housing"] == HouseIcon;
    assert IconMap["utilities"] == BulbIcon;
    assert IconMap["entertainment"] == ClapperIcon;
    assert IconMap["health"] == HospitalIcon;
    assert IconMap["education"] == BooksIcon;
    assert IconMap["shopping"] == ShoppingBagsIcon;
    assert IconMap["bank"] == BankIcon;
    assert IconMap["income"] == MoneyBagIcon;
    assert IconMap["default"] == CardIcon;
  }

  /** `getCategoryIcon`: the icon of the lower-cased category, or the default
      card icon. The lookup consults the map's own keys only (see
      `GetCategoryIconAsWritten` for the lookup as the code performs it). */
  function GetCategoryIcon(category: string): (r: string)
    ensures r in Icons
    ensures Lower(category) !in IconMap ==> r == CardIcon
  {
    IconMapValues();
    var lower := Lower(category);
    if lower in IconMap then IconMap[lower] else IconMap["default"]
  }

  /** The lookup is case-insensitive. */
  lemma IconIsCaseInsensitive(category: string)
    ensures GetCategoryIcon(category) == GetCategoryIcon(Lower(category))
  {
    LowerIdempotent(category);
  }

  /** Every key without an upper-case letter is reached by itself. */
  lemma LowerCaseKeyReached(key: string)
    requires key in IconMap
    requires forall i :: 0 <= i < |key| ==> !IsUpper(key[i])
    ensures GetCategoryIcon(key) == IconMap[key]
  {
    LowerOfLowerCase(key);
  }

  /** A key holding an upper-case letter is never the key looked up: the
      capitalised entries of the map are dead. */
  lemma CapitalisedKeyUnreachable(category: string, key: string, j: int)
    requires 0 <= j < |key| && IsUpper(key[j])
    ensures Lower(category) != key
  {
    LowerHasNoUpper(category);
  }

  /** "Food & Groceries" is a key, yet it gets the default icon. */
  lemma FoodAndGroceriesGetsDefaultIcon()
    ensures "Food & Groceries" in IconMap
    ensures GetCategoryIcon("Food & Groceries") == CardIcon
  {
    FoodAndGroceriesFacts();
  }

  lemma FoodAndGroceriesFacts()
    ensures Lower("Food & Groceries") !in IconMap
  {
    CapitalisedKeyUnreachable("Food & Groceries", "Food & Groceries", 0);
    assert Lower("Food & Groceries") == "food & groceries";
  }

  lemma TransferGetsBankIcon()
    ensures GetCategoryIcon("Transfer") == BankIcon
  {
    TransferFacts();
    IconIsCaseInsensitive("Transfer");
    LowerCaseKeyReached("transfer");
  }

  lemma TransferFacts()
    ensures Lower("Transfer") == "transfer" && IconMap["transfer"] == BankIcon
  {
    assert Lower("Transfer") == "transfer";
  }

  lemma UpperCaseGasGetsFuelPumpIcon()
    ensures GetCategoryIcon("GAS") == FuelPumpIcon
  {
    GasFacts();
    IconIsCaseInsensitive("GAS");
    LowerCaseKeyReached("gas");
  }

  lemma GasFacts()
    ensures Lower("GAS") == "gas" && IconMap["gas"] == FuelPumpIcon
  {
    assert Lower("GAS") == "gas";
  }

  /** The lookup as written: `categoryMap[lower] || categoryMap['default']`
      also finds the members inherited from Object.prototype. */
  function GetCategoryIconAsWritten(category: string): (r: JsValue)
    ensures r.Str? || r.Inherited?
    ensures r.Str? ==> r.s == GetCategoryIcon(category)
    ensures r.Inherited? <==> Lower(category) !in IconMap && Lower(category) in ObjectPrototypeMembers
  {
    IconMapValues();
    var found := Get(IconMap, Lower(category));
    if Truthy(found) then found else Get(IconMap, "default")
  }

  /** Away from the inherited names the code returns the corrected icon. */
  lemma IconAsWrittenAgreesOffPrototype(category: string)
    requires Lower(category) !in ObjectPrototypeMembers
    ensures GetCategoryIconAsWritten(category) == Str(GetCategoryIcon(category))
  {
    IconMapValues();
  }

  /** "Constructor" is not a category, yet the lookup returns the inherited
      `constructor` function instead of an icon. */
  lemma ConstructorEscapesIconMap()
    ensures GetCategoryIconAsWritten("Constructor") == Inherited("constructor")
    ensures GetCategoryIcon("Constructor") == CardIcon
  {
    ConstructorFacts();
  }

  lemma ConstructorFacts()
    ensures Lower("Constructor") == "constructor"
    ensures "constructor" !in IconMap && "constructor" in ObjectPrototypeMembers
  {
    assert Lower("Constructor") == "constructor";
  }

  // ---------------------------------------------------------------------------
  // assignAccountToTransaction

  const Accounts: seq<string> := ["acc-001", "acc-002", "acc-003", "acc-004", "acc-005", "acc-006", "acc-007"]

  /** The first rule: a food or groceries category, or a Starbucks or
      Whole Foods description. */
  predicate FoodRule(category: string, description: string)
  {
    Contains(Lower(category), "food") || Contains(Lower(category), "groceries")
    || Contains(Lower(description), "starbucks") || Contains(Lower(description), "wholefoods")
  }

  /** The second rule: a transport or gas category, or a gas or Uber description. */
  predicate TransportRule(category: string, description: string)
  {
    Contains(Lower(category), "transport") || Contains(Lower(category), "gas")
    || Contains(Lower(description), "gas") || Contains(Lower(description), "uber")
  }

  predicate NoCategoryRule(category: string, description: string)
  {
    !FoodRule(category, description) && !TransportRule(category, description)
  }

  /** `assignAccountToTransaction`: always one of the seven accounts, and each
      account receives exactly the records its rule describes. The food rule
      decides on its own, whatever the amount and index; the transport rule
      decides only when the food rule does not. */
  function AssignAccount(category: string, description: string, amount: real, index: nat): (r: string)
    ensures r in Accounts
    ensures r == "acc-002" <==> FoodRule(category, description)
    ensures r == "acc-003" <==> !FoodRule(category, description) && TransportRule(category, description)
    ensures r == "acc-001" <==> NoCategoryRule(category, description)
                                && ((amount > 0.0 && index % 2 == 0) || (amount <= -100.0 && index % 3 == 0))
    ensures r == "acc-004" <==> NoCategoryRule(category, description) && amount <= -100.0 && index % 3 == 1
    ensures r == "acc-005" <==> NoCategoryRule(category, description) && -100.0 < amount <= 0.0 && index % 2 == 0
    ensures r == "acc-006" <==> NoCategoryRule(category, description)
                                && ((amount > 0.0 && index % 2 == 1) || (amount <= -100.0 && index % 3 == 2))
    ensures r == "acc-007" <==> NoCategoryRule(category, description) && -100.0 < amount <= 0.0 && index % 2 == 1
  {
    if FoodRule(category, description) then "acc-002"
    else if TransportRule(category, description) then "acc-003"
    else if amount > 0.0 then (if index % 2 == 0 then "acc-001" else "acc-006")
    else if amount > -100.0 then (if index % 2 == 0 then "acc-005" else "acc-007")
    else if index % 3 == 0 then "acc-001"
    else if index % 3 == 1 then "acc-004"
    else "acc-006"
  }

  /** A record no category rule claims lands on a checking account when it is
      a deposit, on a credit card when it is a small purchase (under 100), and
      on checking or savings when it is a large one. */
  lemma FallThroughAccounts(category: string, description: string, amount: real, index: nat)
    requires NoCategoryRule(category, description)
    ensures var r := AssignAccount(category, description, amount, index);
            && (amount > 0.0 ==> r in {"acc-001", "acc-006"})
            && (-100.0 < amount <= 0.0 ==> r in {"acc-005", "acc-007"})
            && (amount <= -100.0 ==> r in {"acc-001", "acc-004", "acc-006"})
  {
  }

  /** The index only enters through its parity and its remainder by 3, so
      the assignment repeats every six records. */
  lemma {:induction false} AssignmentPeriodic(category: string, description: string, amount: real, index: nat)
    ensures AssignAccount(category, description, amount, index + 6)
         == AssignAccount(category, description, amount, index)
  {
    assert (index + 6) % 2 == index % 2;
    assert (index + 6) % 3 == index % 3;
  }

  // ---------------------------------------------------------------------------
  // The record transforms

  /** A transaction as the API returns it. */
  datatype RawTransaction = RawTransaction(
    id: int, accountId: string, date: string, description: string, amount: real, category: string)

  /** The `Transaction` interface, with the derived `name`, `time` and `icon`. */
  datatype Transaction = Transaction(
    id: int, accountId: string, date: string, description: string, amount: real, category: string,
    name: string, time: string, icon: string)

  /** The record shaping shared by both transforms; `time` is the clock
      reading the code takes from `generateTime()`. */
  function Shape(raw: RawTransaction, accountId: string, time: string): (t: Transaction)
    ensures t.id == raw.id && t.date == raw.date && t.description == raw.description
    ensures t.amount == raw.amount && t.category == raw.category
    ensures t.name == raw.description && t.icon == GetCategoryIcon(raw.category)
    ensures t.accountId == accountId && t.time == time
  {
    Transaction(raw.id, accountId, raw.date, raw.description, raw.amount, raw.category,
                raw.description, time, GetCategoryIcon(raw.category))
  }

  /** The transform of `fetchTransactionsData`: every record is kept, in
      order, with its account reassigned by the demonstration rules. */
  function TransformTransactions(raw: seq<RawTransaction>, now: string): (r: seq<Transaction>)
    ensures |r| == |raw|
    ensures forall i :: 0 <= i < |raw| ==>
              && r[i].id == raw[i].id && r[i].date == raw[i].date
              && r[i].description == raw[i].description && r[i].amount == raw[i].amount
              && r[i].category == raw[i].category
              && r[i].name == raw[i].description
              && r[i].icon == GetCategoryIcon(raw[i].category)
              && r[i].accountId == AssignAccount(raw[i].category, raw[i].description, raw[i].amount, i)
              && r[i].time == now
  {
    seq(|raw|, i requires 0 <= i < |raw| =>
      Shape(raw[i], AssignAccount(raw[i].category, raw[i].description, raw[i].amount, i), now))
  }

  /** The part of the `fetchTransactionsData` response that depends on the
      records: the transformed list and its first five records as `recent`. */
  datatype Payload = Payload(transactions: seq<Transaction>, recent: seq<Transaction>)

  function TransactionsPayload(raw: seq<RawTransaction>, now: string): (p: Payload)
    ensures p.transactions == TransformTransactions(raw, now)
    ensures |p.recent| == if |raw| < 5 then |raw| else 5
    ensures forall i :: 0 <= i < |p.recent| ==> p.recent[i] == p.transactions[i]
  {
    var transactions := TransformTransactions(raw, now);
    Payload(transactions, SliceTo(transactions, 5))
  }

  /** The transform of `fetchAccountTransactions`: the same shaping, but the
      account id the API sent is kept. */
  function AccountTransactions(data: seq<RawTransaction>, now: string): (r: seq<Transaction>)
    ensures |r| == |data|
    ensures forall i :: 0 <= i < |data| ==> r[i].accountId == data[i].accountId
  {
    seq(|data|, i requires 0 <= i < |data| => Shape(data[i], data[i].accountId, now))
  }

  /** The two transforms differ only in the account id. */
  lemma AccountTransformDiffersOnlyInAccount(data: seq<RawTransaction>, now: string, i: int)
    requires 0 <= i < |data|
    ensures AccountTransactions(data, now)[i]
         == TransformTransactions(data, now)[i].(accountId := data[i].accountId)
  {
  }
}
