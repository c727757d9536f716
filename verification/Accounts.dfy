/** Bank accounts with 32-bit balances, and the four indexes over them. */
module Accounts {
  import opened Wrappers
  import opened Int32
  import opened Queues

  datatype Kind = Unknown | Checking | Saving | MoneyMarket | LineOfCredit | Loan | Equities

  datatype Transaction = Transaction(number: nat, seqNumber: nat, amount: int, desc: string)

  function Sum(txns: seq<Transaction>): int {
    if txns == [] then 0 else Sum(txns[..|txns|-1]) + txns[|txns|-1].amount
  }

  /** From a balance in range, the sign of the wrapped sum tells exactly whether the true sum is in range. */
  lemma SignTestIsExact(balance: int, amount: int)
    requires 0 <= balance <= MAX32 && MIN32 <= amount <= MAX32
    ensures Wrap32(balance + amount) >= 0 <==> 0 <= balance + amount <= MAX32
    ensures Wrap32(balance + amount) >= 0 ==> Wrap32(balance + amount) == balance + amount
  {
  }

  class Account {
    const number: nat
    const kind: Kind
    var balance: int
    var transactions: seq<Transaction>

    /** The balance is the exact sum of the transactions, and in range; they are numbered from 1. */
    ghost predicate Valid()
      reads this
    {
      && 0 <= balance <= MAX32
      && balance == Sum(transactions)
      && forall i :: 0 <= i < |transactions| ==> transactions[i].seqNumber == i + 1 && transactions[i].number == number
    }

    constructor (number: nat, kind: Kind, initial: int)
      requires 0 <= initial <= MAX32
      ensures Valid() && this.number == number && this.kind == kind && balance == initial
      ensures transactions == [Transaction(number, 1, initial, "initial deposit")]
    {
      this.number, this.kind, balance := number, kind, initial;
      transactions := [Transaction(number, 1, initial, "initial deposit")];
    }

    /** newTransaction */
    method NewTransaction(amount: int, desc: string) returns (r: Option<int>)
      requires Valid() && MIN32 <= amount <= MAX32
      modifies this
      ensures Valid()
      ensures r.Some? <==> 0 <= old(balance) + amount <= MAX32
      ensures r.Some? ==> r.value == balance == old(balance) + amount
      ensures r.Some? ==> transactions == old(transactions) + [Transaction(number, |old(transactions)| + 1, amount, desc)]
      ensures r.None? ==> balance == old(balance) && transactions == old(transactions)
    {
      var bal := Wrap32(balance + amount);
      SignTestIsExact(balance, amount);
      if bal < 0 {
        return None;
      }
      balance := bal;
      var longer := transactions + [Transaction(number, |transactions| + 1, amount, desc)];
      assert longer[..|longer|-1] == transactions;
      transactions := longer;
      r := Some(bal);
    }
  }

  // ---- the indexes ------------------------------------------------------------------------------

  ghost predicate Increasing(s: seq<nat>) {
    forall i, j :: 0 <= i < j < |s| ==> s[i] < s[j]
  }

  function NumbersOf(byCustomer: map<string, seq<nat>>, customer: string): seq<nat> {
    if customer in byCustomer then byCustomer[customer] else []
  }

  ghost predicate UpTo(numbers: seq<nat>, last: nat) {
    forall i :: 0 <= i < |numbers| ==> numbers[i] <= last
  }

  /** A customer's own list is in order, and of known numbers. */
  ghost predicate ListOk(list: seq<nat>, numbers: seq<nat>) {
    Increasing(list) && forall n :: n in list ==> n in numbers
  }

  /** Number n, if listed, is some customer's. */
  ghost predicate Owned(byCustomer: map<string, seq<nat>>, numbers: seq<nat>, n: nat) {
    n in numbers ==> exists c :: c in byCustomer && n in byCustomer[c]
  }

  /** Two customers have no number in common. */
  ghost predicate Apart(byCustomer: map<string, seq<nat>>, c: string, d: string) {
    c in byCustomer && d in byCustomer && c != d ==> forall n :: n in byCustomer[c] ==> n !in byCustomer[d]
  }

  ghost predicate ListOkOf(byCustomer: map<string, seq<nat>>, numbers: seq<nat>, c: string) {
    c in byCustomer ==> ListOk(byCustomer[c], numbers)
  }

  ghost predicate ListsOk(byCustomer: map<string, seq<nat>>, numbers: seq<nat>) {
    && (forall c :: ListOkOf(byCustomer, numbers, c))
    && (forall n: nat :: Owned(byCustomer, numbers, n))
    && (forall c, d :: Apart(byCustomer, c, d))
  }

  ghost predicate Named(byCustomer: map<string, seq<nat>>, customers: seq<string>, c: string) {
    c in customers <==> c in byCustomer
  }

  /** The lists agree: all numbers in increasing order up to the last one given out, each with
      exactly one customer, whose own list is in order too; the customers each once. */
  ghost predicate IndexOk(byCustomer: map<string, seq<nat>>, numbers: seq<nat>, customers: seq<string>, last: nat) {
    && Increasing(numbers)
    && UpTo(numbers, last)
    && NoDup(customers)
    && (forall c :: Named(byCustomer, customers, c))
    && ListsOk(byCustomer, numbers)
  }

  /** The first of an increasing list is below whatever is left of the rest. */
  lemma BelowAll(s: seq<nat>, r: seq<nat>)
    requires Increasing(s) && s != [] && Increasing(r) && forall y :: y in r ==> y in s && y != s[0]
    ensures Increasing([s[0]] + r)
  {
    forall j | 0 <= j < |r| ensures s[0] < r[j] {
      assert r[j] in r;
      var i :| 0 <= i < |s| && s[i] == r[j];
      assert s[0] < s[i];
    }
  }

  lemma {:induction false} IncreasingAfterRemoval(s: seq<nat>, x: nat)
    requires Increasing(s)
    ensures Increasing(RemoveFirst(s, x)) && forall y :: y in RemoveFirst(s, x) <==> y in s && y != x
  {
    RemoveFromNoDup(s, x);
    if s != [] {
      assert Increasing(s[1..]);
      IncreasingAfterRemoval(s[1..], x);
      if s[0] != x { BelowAll(s, RemoveFirst(s[1..], x)); }
    }
  }

  lemma NoneIsNew(list: seq<nat>, numbers: seq<nat>, last: nat)
    requires UpTo(numbers, last) && ListOk(list, numbers)
    ensures UpTo(list, last) && last + 1 !in list
  {
    forall i | 0 <= i < |list| ensures list[i] <= last {
      assert list[i] in numbers;
    }
  }

  lemma SnocOk(list: seq<nat>, numbers: seq<nat>, last: nat)
    requires UpTo(numbers, last) && ListOk(list, numbers)
    ensures ListOk(list + [last + 1], numbers + [last + 1])
  {
    NoneIsNew(list, numbers, last);
  }

  lemma OpenKeepsLists(byCustomer: map<string, seq<nat>>, numbers: seq<nat>, last: nat, customer: string)
    requires ListsOk(byCustomer, numbers) && UpTo(numbers, last)
    ensures ListsOk(byCustomer[customer := NumbersOf(byCustomer, customer) + [last + 1]], numbers + [last + 1])
  {
    var after := byCustomer[customer := NumbersOf(byCustomer, customer) + [last + 1]];
    var more := numbers + [last + 1];
    forall c ensures ListOkOf(after, more, c) {
      assert ListOkOf(byCustomer, numbers, c);
      if c in byCustomer {
        SnocOk(byCustomer[c], numbers, last);
      } else {
        SnocOk([], numbers, last);
      }
    }
    forall n: nat ensures Owned(after, more, n) {
      assert Owned(byCustomer, numbers, n);
      if n == last + 1 {
        assert n in after[customer];
      } else if n in numbers {
        var c :| c in byCustomer && n in byCustomer[c];
        assert n in after[c];
      }
    }
    forall c, d ensures Apart(after, c, d) {
      assert Apart(byCustomer, c, d);
      if c in byCustomer { assert ListOkOf(byCustomer, numbers, c); NoneIsNew(byCustomer[c], numbers, last); }
      if d in byCustomer { assert ListOkOf(byCustomer, numbers, d); NoneIsNew(byCustomer[d], numbers, last); }
    }
  }

  lemma OpenKeepsIndex(byCustomer: map<string, seq<nat>>, numbers: seq<nat>, customers: seq<string>, last: nat, customer: string)
    requires IndexOk(byCustomer, numbers, customers, last)
    ensures IndexOk(byCustomer[customer := NumbersOf(byCustomer, customer) + [last + 1]], numbers + [last + 1],
                    if customer in byCustomer then customers else customers + [customer], last + 1)
    ensures last + 1 !in numbers
  {
    OpenKeepsLists(byCustomer, numbers, last, customer);
    var after := byCustomer[customer := NumbersOf(byCustomer, customer) + [last + 1]];
    var known := if customer in byCustomer then customers else customers + [customer];
    assert Named(byCustomer, customers, customer);
    forall c ensures Named(after, known, c) {
      assert Named(byCustomer, customers, c);
    }
  }

  lemma CloseKeepsLists(byCustomer: map<string, seq<nat>>, numbers: seq<nat>, customer: string, n: nat)
    requires ListsOk(byCustomer, numbers) && Increasing(numbers) && customer in byCustomer && n in byCustomer[customer]
    ensures ListsOk(byCustomer[customer := RemoveFirst(byCustomer[customer], n)], RemoveFirst(numbers, n))
  {
    var after := byCustomer[customer := RemoveFirst(byCustomer[customer], n)];
    var fewer := RemoveFirst(numbers, n);
    assert ListOkOf(byCustomer, numbers, customer);
    IncreasingAfterRemoval(numbers, n);
    IncreasingAfterRemoval(byCustomer[customer], n);
    forall c ensures ListOkOf(after, fewer, c) {
      assert ListOkOf(byCustomer, numbers, c) && Apart(byCustomer, customer, c);
    }
    forall m: nat ensures Owned(after, fewer, m) {
      assert Owned(byCustomer, numbers, m);
      if m in fewer {
        var c :| c in byCustomer && m in byCustomer[c];
        assert m in after[c];
      }
    }
    forall c, d ensures Apart(after, c, d) {
      assert Apart(byCustomer, c, d);
    }
  }

  lemma CloseKeepsIndex(byCustomer: map<string, seq<nat>>, numbers: seq<nat>, customers: seq<string>, last: nat, customer: string, n: nat)
    requires IndexOk(byCustomer, numbers, customers, last) && customer in byCustomer && n in byCustomer[customer]
    ensures IndexOk(byCustomer[customer := RemoveFirst(byCustomer[customer], n)], RemoveFirst(numbers, n), customers, last)
    ensures n in numbers && forall m :: m in RemoveFirst(numbers, n) <==> m in numbers && m != n
  {
    assert ListOkOf(byCustomer, numbers, customer);
    CloseKeepsLists(byCustomer, numbers, customer, n);
    var after := byCustomer[customer := RemoveFirst(byCustomer[customer], n)];
    forall c ensures Named(after, customers, c) {
      assert Named(byCustomer, customers, c);
    }
    IncreasingAfterRemoval(numbers, n);
    forall i | 0 <= i < |RemoveFirst(numbers, n)| ensures RemoveFirst(numbers, n)[i] <= last {
      assert RemoveFirst(numbers, n)[i] in numbers;
    }
  }

  datatype CloseError = NotFound | NonZeroBalance(balance: int)

  class Ledger {
    var numbersByCustomer: map<string, seq<nat>>
    var byNumber: map<nat, Account>
    var numbers: seq<nat>
    var customers: seq<string>
    var lastNumber: nat

    /** Account n is there exactly when the number is listed, under its own number. */
    ghost predicate Filed(n: nat)
      reads this, byNumber.Values
    {
      && (n in byNumber <==> n in numbers)
      && (n in byNumber ==> byNumber[n].number == n && byNumber[n].Valid())
    }

    ghost predicate Valid()
      reads this, byNumber.Values
    {
      IndexOk(numbersByCustomer, numbers, customers, lastNumber) && forall n: nat :: Filed(n)
    }

    constructor ()
      ensures Valid() && byNumber == map[] && numbersByCustomer == map[] && lastNumber == 0
    {
      numbersByCustomer, byNumber, numbers, customers, lastNumber := map[], map[], [], [], 0;
    }

    /** The part of openAccount that gives out the next number and lists it. */
    method Enlist(customer: string) returns (num: nat)
      requires IndexOk(numbersByCustomer, numbers, customers, lastNumber)
      modifies this`numbersByCustomer, this`numbers, this`customers, this`lastNumber
      ensures IndexOk(numbersByCustomer, numbers, customers, lastNumber)
      ensures num == lastNumber == old(lastNumber) + 1 && num !in old(numbers)
      ensures numbers == old(numbers) + [num]
      ensures numbersByCustomer == old(numbersByCustomer)[customer := NumbersOf(old(numbersByCustomer), customer) + [num]]
    {
      hide IndexOk;
      var accountNums := NumbersOf(numbersByCustomer, customer);
      OpenKeepsIndex(numbersByCustomer, numbers, customers, lastNumber, customer);
      num := lastNumber + 1;
      customers := if customer in numbersByCustomer then customers else customers + [customer];
      lastNumber := num;
      numbers := numbers + [num];
      numbersByCustomer := numbersByCustomer[customer := accountNums + [num]];
    }

    /** openAccount */
    method OpenAccount(customer: string, kind: Kind, initial: int) returns (acct: Account)
      requires Valid() && 0 <= initial <= MAX32
      modifies this
      ensures Valid() && fresh(acct)
      ensures lastNumber == old(lastNumber) + 1 && acct.number == lastNumber && acct.kind == kind && acct.balance == initial
      ensures lastNumber !in old(byNumber) && byNumber == old(byNumber)[lastNumber := acct]
      ensures numbers == old(numbers) + [lastNumber]
      ensures numbersByCustomer == old(numbersByCustomer)[customer := NumbersOf(old(numbersByCustomer), customer) + [lastNumber]]
    {
      var num := Enlist(customer);
      acct := new Account(num, kind, initial);
      assert old(Filed(num));
      byNumber := byNumber[num := acct];
      forall n: nat ensures Filed(n) {
        assert old(Filed(n));
      }
    }

    /** The linear search of closeAccount and getAccount. */
    method Find(nums: seq<nat>, number: nat) returns (found: int)
      ensures found == -1 <==> number !in nums
      ensures found != -1 ==> 0 <= found < |nums| && nums[found] == number && number !in nums[..found]
    {
      var i := 0;
      while i < |nums|
        invariant 0 <= i <= |nums| && number !in nums[..i]
      {
        if nums[i] == number {
          return i;
        }
        i := i + 1;
      }
      assert nums[..i] == nums;
      found := -1;
    }

    /** The part of closeAccount that strikes a number from the lists. */
    method Strike(customer: string, number: nat, found: nat)
      requires IndexOk(numbersByCustomer, numbers, customers, lastNumber) && customer in numbersByCustomer
      requires found < |numbersByCustomer[customer]| && numbersByCustomer[customer][found] == number
      requires number !in numbersByCustomer[customer][..found]
      modifies this`numbersByCustomer, this`numbers
      ensures IndexOk(numbersByCustomer, numbers, customers, lastNumber)
      ensures numbers == RemoveFirst(old(numbers), number)
      ensures forall m :: m in numbers <==> m in old(numbers) && m != number
      ensures numbersByCustomer == old(numbersByCustomer)[customer := RemoveFirst(old(numbersByCustomer)[customer], number)]
    {
      CloseKeepsIndex(numbersByCustomer, numbers, customers, lastNumber, customer, number);
      var acctNums := numbersByCustomer[customer];
      var at := Find(numbers, number);
      if at != -1 {
        numbers := DeleteAt(numbers, at, number);
      }
      acctNums := DeleteAt(acctNums, found, number);
      numbersByCustomer := numbersByCustomer[customer := acctNums];
    }

    lemma ListedIsThere(customer: string, number: nat)
      requires Valid() && number in NumbersOf(numbersByCustomer, customer)
      ensures customer in numbersByCustomer && number in byNumber
    {
      assert ListOkOf(numbersByCustomer, numbers, customer) && Filed(number);
    }

    /** The part of closeAccount after its checks. */
    method Drop(customer: string, number: nat, found: nat)
      requires Valid() && customer in numbersByCustomer
      requires found < |numbersByCustomer[customer]| && numbersByCustomer[customer][found] == number
      requires number !in numbersByCustomer[customer][..found]
      modifies this`numbersByCustomer, this`numbers, this`byNumber
      ensures Valid()
      ensures byNumber == old(byNumber) - {number}
      ensures numbers == RemoveFirst(old(numbers), number)
      ensures numbersByCustomer == old(numbersByCustomer)[customer := RemoveFirst(old(numbersByCustomer)[customer], number)]
    {
      Strike(customer, number, found);
      byNumber := byNumber - {number};
      forall n: nat ensures Filed(n) {
        assert old(Filed(n));
      }
    }

    /** closeAccount */
    method CloseAccount(customer: string, number: nat) returns (r: Option<CloseError>)
      requires Valid()
      modifies this`numbersByCustomer, this`numbers, this`byNumber
      ensures Valid()
      ensures r == Some(NotFound) <==> number !in NumbersOf(old(numbersByCustomer), customer)
      ensures number in NumbersOf(old(numbersByCustomer), customer) ==>
                number in old(byNumber) && (r.None? <==> old(byNumber[number].balance) == 0)
      ensures r.Some? ==> byNumber == old(byNumber) && numbers == old(numbers) && numbersByCustomer == old(numbersByCustomer)
      ensures r.None? ==> byNumber == old(byNumber) - {number}
      ensures r.None? ==> numbers == RemoveFirst(old(numbers), number)
      ensures r.None? ==> numbersByCustomer == old(numbersByCustomer)[customer := RemoveFirst(NumbersOf(old(numbersByCustomer), customer), number)]
    {
      var found := Find(NumbersOf(numbersByCustomer, customer), number);
      if found == -1 {
        return Some(NotFound);
      }
      ListedIsThere(customer, number);
      var acct := byNumber[number];
      if acct.balance != 0 {
        return Some(NonZeroBalance(acct.balance));
      }
      Drop(customer, number, found);
      r := None;
    }

    /** getAccount: never an account that is not there. */
    method GetAccount(customer: string, number: nat) returns (acct: Option<Account>)
      requires Valid()
      ensures acct.Some? <==> number in NumbersOf(numbersByCustomer, customer)
      ensures acct.Some? ==> number in byNumber && acct.value == byNumber[number]
      ensures acct.Some? ==> acct.value.number == number && acct.value.Valid()
    {
      var nums := NumbersOf(numbersByCustomer, customer);
      var found := Find(nums, number);
      if found == -1 {
        return None;
      }
      ListedIsThere(customer, number);
      assert Filed(number);
      acct := Some(byNumber[nums[found]]);
    }

    /** newTransaction on an account of the ledger: the rest of the ledger is as it was. */
    method Post(acct: Account, amount: int, desc: string) returns (r: Option<int>)
      requires Valid() && acct.number in byNumber && byNumber[acct.number] == acct
      requires MIN32 <= amount <= MAX32
      modifies acct
      ensures Valid()
      ensures 0 <= old(acct.balance) <= MAX32 && (r.Some? <==> 0 <= old(acct.balance) + amount <= MAX32)
      ensures acct.balance == if r.Some? then old(acct.balance) + amount else old(acct.balance)
      ensures r.Some? ==> r.value == acct.balance
      ensures acct.transactions == if r.None? then old(acct.transactions)
                                   else old(acct.transactions) + [Transaction(acct.number, |old(acct.transactions)| + 1, amount, desc)]
      ensures forall n :: n in byNumber && n != acct.number ==> byNumber[n] != acct
    {
      assert Filed(acct.number);
      r := acct.NewTransaction(amount, desc);
      forall n: nat ensures Filed(n) && (n in byNumber && n != acct.number ==> byNumber[n] != acct) {
        assert old(Filed(n));
      }
    }

    /** getAllAccounts */
    method GetAllAccounts(customer: string) returns (accts: seq<Account>)
      requires Valid()
      ensures |accts| == |NumbersOf(numbersByCustomer, customer)|
      ensures forall i :: 0 <= i < |accts| ==>
                NumbersOf(numbersByCustomer, customer)[i] in byNumber && accts[i] == byNumber[NumbersOf(numbersByCustomer, customer)[i]]
    {
      var nums := NumbersOf(numbersByCustomer, customer);
      accts := [];
      var i := 0;
      while i < |nums|
        invariant 0 <= i <= |nums| && |accts| == i
        invariant forall j :: 0 <= j < i ==> nums[j] in byNumber && accts[j] == byNumber[nums[j]]
      {
        ListedIsThere(customer, nums[i]);
        accts := accts + [byNumber[nums[i]]];
        i := i + 1;
      }
    }
  }
}
