/** The bank's RPCs: each validates its request and then changes the ledger. */
module Bank {
  import opened Wrappers
  import opened Int32
  import opened Accounts
  import opened Transfers

  datatype Status = Unauthenticated | InvalidArgument | NotFound | FailedPrecondition

  datatype DepositSource = UnknownSource | Cash | Check | Ach | Wire

  datatype Party = Unset | External(routing: nat, account: nat) | Local(number: nat)
  {
    function Number(): Option<nat> {
      if Local? then Some(number) else None
    }
  }

  /** BalanceResponse. */
  datatype Balance = Balance(account: nat, cents: int)

  datatype TransferResponse = TransferResponse(src: nat, srcCents: int, dst: nat, dstCents: int)

  /** Why an account may not be opened: a negative deposit, or any deposit where none is taken. */
  function OpenRefusal(cust: string, kind: Kind, initial: int): Option<Status> {
    if cust == "" then Some(Unauthenticated)
    else match kind
      case Checking | Saving | MoneyMarket => if initial < 0 then Some(InvalidArgument) else None
      case LineOfCredit | Loan | Equities => if initial != 0 then Some(InvalidArgument) else None
      case Unknown => Some(InvalidArgument)
  }

  function PartyRefusal(listed: seq<nat>, party: Party): Option<Status> {
    match party
    case Unset => None
    case External(routing, account) => if account == 0 || routing == 0 then Some(InvalidArgument) else None
    case Local(number) => if number !in listed then Some(Status.NotFound) else None
  }

  /** Why a transfer is turned down before anything is posted; the first reason found counts. */
  function TransferRefusal(cust: string, listed: seq<nat>, src: Party, dst: Party, amount: int): Option<Status> {
    if cust == "" then Some(Unauthenticated)
    else if amount <= 0 then Some(InvalidArgument)
    else if PartyRefusal(listed, src).Some? then PartyRefusal(listed, src)
    else PartyRefusal(listed, dst)
  }

  function SourceName(source: DepositSource): string {
    match source
    case UnknownSource => "UNKNOWN_SOURCE"
    case Cash => "CASH"
    case Check => "CHECK"
    case Ach => "ACH"
    case Wire => "WIRE"
  }

  function WithNote(base: string, note: string): string {
    if note != "" then base + ": " + note else base
  }

  /** What the history says of a deposit. */
  ghost function DepositText(source: DepositSource, note: string): string {
    (match source case Ach => "ACH deposit" case Cash => "CASH deposit" case Check => "CHECK deposit" case Wire => "WIRE deposit"
                  case UnknownSource => "UNKNOWN_SOURCE deposit") + Noted(note)
  }

  /** A note follows a colon. */
  ghost function Noted(note: string): string {
    if note == "" then "" else ": " + note
  }

  lemma NoteFollows(base: string, note: string)
    ensures WithNote(base, note) == base + Noted(note)
  {
  }

  lemma DepositIsNoted(source: DepositSource, note: string)
    ensures WithNote(SourceName(source) + " deposit", note) == DepositText(source, note)
  {
    NoteFollows(SourceName(source) + " deposit", note);
  }

  ghost function Balances(ledger: Ledger): map<nat, int>
    reads ledger, ledger.byNumber.Values
  {
    map n | n in ledger.byNumber :: ledger.byNumber[n].balance
  }

  ghost function Histories(ledger: Ledger): map<nat, seq<Transaction>>
    reads ledger, ledger.byNumber.Values
  {
    map n | n in ledger.byNumber :: ledger.byNumber[n].transactions
  }

  /** The histories with one transaction more. */
  function Logged(histories: map<nat, seq<Transaction>>, n: nat, amount: int, desc: string): map<nat, seq<Transaction>>
    requires n in histories
  {
    histories[n := histories[n] + [Transaction(n, |histories[n]| + 1, amount, desc)]]
  }

  function LoggedTo(histories: map<nat, seq<Transaction>>, party: Party, amount: int, desc: string): map<nat, seq<Transaction>>
    requires party.Local? ==> party.number in histories
  {
    if party.Local? then Logged(histories, party.number, amount, desc) else histories
  }

  /** What the wrapping addition and its sign test come to. */
  lemma PostedIs(balances: map<nat, int>, n: nat, amount: int)
    requires n in balances && 0 <= balances[n] <= MAX32 && MIN32 <= amount <= MAX32
    ensures Posted(balances, n, amount) ==
            if 0 <= balances[n] + amount <= MAX32 then Some(balances[n := balances[n] + amount]) else None
  {
    SignTestIsExact(balances[n], amount);
  }

  /** A transfer that passed validation: it ends where Transfers.Alone says, logs each transaction that
      went through, and answers with the source's balance after the debit and the destination's at the end. */
  ghost predicate Settled(before: map<nat, int>, logBefore: map<nat, seq<Transaction>>, src: Party, dst: Party, amount: int,
                          toDesc: string, fromDesc: string,
                          after: map<nat, int>, logAfter: map<nat, seq<Transaction>>, r: Result<TransferResponse, Status>)
  {
    && (src.Local? ==> src.number in before && src.number in logBefore)
    && (dst.Local? ==> dst.number in before && dst.number in logBefore)
    && var (phase, balances) := Alone(before, src.Number(), dst.Number(), amount);
       var debited := LoggedTo(logBefore, src, -amount, toDesc);
    && after == balances
    && match phase
       case Refused => r == Err(FailedPrecondition) && logAfter == logBefore
       case Stranded => r == Err(FailedPrecondition) && logAfter == debited
       case _ =>
         && logAfter == LoggedTo(debited, dst, amount, fromDesc)
         && r == Ok(TransferResponse(
                 if src.Local? then src.number else 0, if src.Local? then before[src.number] - amount else 0,
                 if dst.Local? then dst.number else 0, if dst.Local? && dst.number in after then after[dst.number] else 0))
  }

  /** One transaction of a transfer, or none where the party has no account here. */
  ghost predicate Entered(before: map<nat, int>, logBefore: map<nat, seq<Transaction>>, after: map<nat, int>, logAfter: map<nat, seq<Transaction>>,
                          party: Party, amount: int, desc: string, r: Option<int>)
  {
    && (party.Local? ==> party.number in before && party.number in logBefore)
    && after.Keys == before.Keys && logAfter.Keys == logBefore.Keys
    && var posted := PostedTo(before, party.Number(), amount);
    && r.Some? == posted.Some?
    && after == (if posted.Some? then posted.value else before)
    && logAfter == (if r.Some? then LoggedTo(logBefore, party, amount, desc) else logBefore)
    && (r.Some? && party.Local? ==> r.value == after[party.number] == before[party.number] + amount)
    && (!party.Local? ==> r == Some(0))
  }

  lemma TwoEntriesSettle(b0: map<nat, int>, h0: map<nat, seq<Transaction>>, src: Party, dst: Party, amount: int,
                         toDesc: string, fromDesc: string,
                         b1: map<nat, int>, h1: map<nat, seq<Transaction>>, r1: Option<int>,
                         b2: map<nat, int>, h2: map<nat, seq<Transaction>>, r2: Option<int>)
    requires Entered(b0, h0, b1, h1, src, -amount, toDesc, r1) && (dst.Local? ==> dst.number in b0 && dst.number in h0)
    requires r1.Some? ==> Entered(b1, h1, b2, h2, dst, amount, fromDesc, r2)
    ensures r1.None? ==> Settled(b0, h0, src, dst, amount, toDesc, fromDesc, b1, h1, Err(FailedPrecondition))
    ensures r1.Some? && r2.None? ==> Settled(b0, h0, src, dst, amount, toDesc, fromDesc, b2, h2, Err(FailedPrecondition))
    ensures r1.Some? && r2.Some? ==>
              Settled(b0, h0, src, dst, amount, toDesc, fromDesc, b2, h2,
                Ok(TransferResponse(if src.Local? then src.number else 0, r1.value, if dst.Local? then dst.number else 0, r2.value)))
  {
  }

  class Server {
    const ledger: Ledger

    constructor ()
      ensures ledger.Valid() && fresh(ledger) && Balances(ledger) == map[]
    {
      var l := new Ledger();
      ledger := l;
    }

    /** newTransaction on an account of the ledger. */
    method Post(acct: Account, amount: int, desc: string) returns (r: Option<int>)
      requires ledger.Valid() && acct.number in ledger.byNumber && ledger.byNumber[acct.number] == acct
      requires MIN32 <= amount <= MAX32
      modifies acct
      ensures ledger.Valid()
      ensures var after := Posted(old(Balances(ledger)), acct.number, amount);
              && r.Some? == after.Some?
              && Balances(ledger) == (if after.Some? then after.value else old(Balances(ledger)))
              && (r.Some? ==> r.value == Balances(ledger)[acct.number] == old(Balances(ledger))[acct.number] + amount)
      ensures Histories(ledger) == if r.Some? then Logged(old(Histories(ledger)), acct.number, amount, desc)
                                   else old(Histories(ledger))
    {
      ghost var before := Balances(ledger);
      r := ledger.Post(acct, amount, desc);
      PostedIs(before, acct.number, amount);
    }

    /** OpenAccount */
    method OpenAccount(cust: string, kind: Kind, initial: int) returns (r: Result<Account, Status>)
      requires ledger.Valid() && MIN32 <= initial <= MAX32
      modifies ledger
      ensures ledger.Valid()
      ensures var refusal := OpenRefusal(cust, kind, initial);
              match r
              case Err(e) => refusal == Some(e) && ledger.byNumber == old(ledger.byNumber) && Balances(ledger) == old(Balances(ledger))
              case Ok(acct) =>
                && refusal == None && fresh(acct)
                && acct.number !in old(ledger.byNumber) && ledger.byNumber == old(ledger.byNumber)[acct.number := acct]
                && acct.kind == kind && acct.balance == initial
                && Balances(ledger) == old(Balances(ledger))[acct.number := initial]
    {
      if cust == "" {
        return Err(Unauthenticated);
      }
      match kind {
        case Checking | Saving | MoneyMarket =>
          if initial < 0 {
            return Err(InvalidArgument);
          }
        case LineOfCredit | Loan | Equities =>
          if initial != 0 {
            return Err(InvalidArgument);
          }
        case Unknown =>
          return Err(InvalidArgument);
      }
      var acct := ledger.OpenAccount(cust, kind, initial);
      r := Ok(acct);
    }

    /** CloseAccount */
    method CloseAccount(cust: string, number: nat) returns (r: Result<(), Status>)
      requires ledger.Valid()
      modifies ledger
      ensures ledger.Valid()
      ensures r == Err(Unauthenticated) <==> cust == ""
      ensures r == Err(Status.NotFound) <==> cust != "" && number !in NumbersOf(old(ledger.numbersByCustomer), cust)
      ensures r.Err? ==> Balances(ledger) == old(Balances(ledger))
      ensures number in NumbersOf(old(ledger.numbersByCustomer), cust) ==> number in old(Balances(ledger))
      ensures r.Ok? <==> cust != "" && number in NumbersOf(old(ledger.numbersByCustomer), cust) && old(Balances(ledger))[number] == 0
      ensures r.Ok? ==> Balances(ledger) == old(Balances(ledger)) - {number}
      ensures r.Ok? ==> number !in NumbersOf(ledger.numbersByCustomer, cust)
    {
      if number in NumbersOf(ledger.numbersByCustomer, cust) { ledger.ListedIsThere(cust, number); }
      if cust == "" {
        return Err(Unauthenticated);
      }
      var error := ledger.CloseAccount(cust, number);
      if number in NumbersOf(ledger.numbersByCustomer, cust) { ledger.ListedIsThere(cust, number); }
      match error {
        case None => r := Ok(());
        case Some(NotFound) => r := Err(Status.NotFound);
        case Some(NonZeroBalance(_)) => r := Err(FailedPrecondition);
      }
    }

    /** The way Deposit and Withdraw end. */
    method PostListed(cust: string, number: nat, amount: int, desc: string) returns (r: Result<Balance, Status>)
      requires ledger.Valid() && MIN32 <= amount <= MAX32
      modifies ledger.byNumber.Values
      ensures ledger.Valid()
      ensures number !in NumbersOf(ledger.numbersByCustomer, cust) ==>
                r == Err(Status.NotFound) && Balances(ledger) == old(Balances(ledger)) && Histories(ledger) == old(Histories(ledger))
      ensures number in NumbersOf(ledger.numbersByCustomer, cust) ==> number in old(Balances(ledger))
      ensures number in NumbersOf(ledger.numbersByCustomer, cust) ==>
                var before := old(Balances(ledger));
                0 <= before[number] <= MAX32 &&
                if 0 <= before[number] + amount <= MAX32 then
                  && r == Ok(Balance(number, before[number] + amount))
                  && Balances(ledger) == before[number := before[number] + amount]
                  && Histories(ledger) == Logged(old(Histories(ledger)), number, amount, desc)
                else
                  r == Err(FailedPrecondition) && Balances(ledger) == before && Histories(ledger) == old(Histories(ledger))
    {
      var acct := ledger.GetAccount(cust, number);
      if acct.None? {
        return Err(Status.NotFound);
      }
      var newBalance := Post(acct.value, amount, desc);
      r := if newBalance.Some? then Ok(Balance(number, newBalance.value)) else Err(FailedPrecondition);
    }

    /** Deposit */
    method Deposit(cust: string, source: DepositSource, amount: int, number: nat, note: string) returns (r: Result<Balance, Status>)
      requires ledger.Valid() && MIN32 <= amount <= MAX32
      modifies ledger.byNumber.Values
      ensures ledger.Valid()
      ensures r == Err(Unauthenticated) <==> cust == ""
      ensures r == Err(InvalidArgument) <==> cust != "" && (source == UnknownSource || amount <= 0)
      ensures r.Err? ==> Balances(ledger) == old(Balances(ledger)) && Histories(ledger) == old(Histories(ledger))
      ensures r == Err(Status.NotFound) <==>
                cust != "" && source != UnknownSource && amount > 0 && number !in NumbersOf(ledger.numbersByCustomer, cust)
      ensures number in NumbersOf(ledger.numbersByCustomer, cust) ==> number in old(Balances(ledger))
      ensures r.Ok? <==> && cust != "" && source != UnknownSource && amount > 0
                         && number in NumbersOf(ledger.numbersByCustomer, cust)
                         && old(Balances(ledger))[number] + amount <= MAX32
      ensures r.Ok? ==> r.value == Balance(number, old(Balances(ledger))[number] + amount) && 0 < r.value.cents <= MAX32
      ensures r.Ok? ==> Balances(ledger) == old(Balances(ledger))[number := r.value.cents]
      ensures r.Ok? ==> Histories(ledger) == Logged(old(Histories(ledger)), number, amount, DepositText(source, note))
      ensures r == Err(FailedPrecondition) ==> number in old(Balances(ledger)) && old(Balances(ledger))[number] + amount > MAX32
    {
      if number in NumbersOf(ledger.numbersByCustomer, cust) { ledger.ListedIsThere(cust, number); }
      if cust == "" {
        return Err(Unauthenticated);
      }
      match source {
        case Ach | Cash | Check | Wire =>
        case UnknownSource => return Err(InvalidArgument);
      }
      if amount <= 0 {
        return Err(InvalidArgument);
      }
      DepositIsNoted(source, note);
      r := PostListed(cust, number, amount, WithNote(SourceName(source) + " deposit", note));
    }

    /** Withdraw: the amount is negative. */
    method Withdraw(cust: string, amount: int, number: nat, note: string) returns (r: Result<Balance, Status>)
      requires ledger.Valid() && MIN32 <= amount <= MAX32
      modifies ledger.byNumber.Values
      ensures ledger.Valid()
      ensures r == Err(Unauthenticated) <==> cust == ""
      ensures r == Err(InvalidArgument) <==> cust != "" && amount >= 0
      ensures r.Err? ==> Balances(ledger) == old(Balances(ledger)) && Histories(ledger) == old(Histories(ledger))
      ensures r == Err(Status.NotFound) <==> cust != "" && amount < 0 && number !in NumbersOf(ledger.numbersByCustomer, cust)
      ensures number in NumbersOf(ledger.numbersByCustomer, cust) ==> number in old(Balances(ledger))
      ensures r.Ok? <==> && cust != "" && amount < 0 && number in NumbersOf(ledger.numbersByCustomer, cust)
                         && 0 <= old(Balances(ledger))[number] + amount
      ensures r.Ok? ==> r.value == Balance(number, old(Balances(ledger))[number] + amount) && 0 <= r.value.cents < MAX32
      ensures r.Ok? ==> Balances(ledger) == old(Balances(ledger))[number := r.value.cents]
      ensures r.Ok? ==> Histories(ledger) == Logged(old(Histories(ledger)), number, amount, note)
      ensures r == Err(FailedPrecondition) ==> number in old(Balances(ledger)) && old(Balances(ledger))[number] + amount < 0
    {
      if number in NumbersOf(ledger.numbersByCustomer, cust) { ledger.ListedIsThere(cust, number); }
      if cust == "" {
        return Err(Unauthenticated);
      }
      if amount >= 0 {
        return Err(InvalidArgument);
      }
      r := PostListed(cust, number, amount, note);
    }

    /** The account of one party of a transfer, if it has one. */
    method Resolve(cust: string, party: Party) returns (r: Result<Option<Account>, Status>)
      requires ledger.Valid()
      ensures var refusal := PartyRefusal(NumbersOf(ledger.numbersByCustomer, cust), party);
              match r
              case Err(e) => refusal == Some(e)
              case Ok(acct) =>
                && refusal == None
                && acct.Some? == party.Local?
                && (acct.Some? ==> party.number in ledger.byNumber && acct.value == ledger.byNumber[party.number])
                && (acct.Some? ==> acct.value.number == party.number)
    {
      match party {
        case Unset =>
          r := Ok(None);
        case External(routing, account) =>
          r := if account == 0 || routing == 0 then Err(InvalidArgument) else Ok(None);
        case Local(number) =>
          var acct := ledger.GetAccount(cust, number);
          r := if acct.None? then Err(Status.NotFound) else Ok(acct);
      }
    }

    /** newTransaction where the party has an account here, nothing otherwise. */
    method PostParty(party: Party, acct: Option<Account>, amount: int, desc: string) returns (r: Option<int>)
      requires ledger.Valid() && MIN32 <= amount <= MAX32 && acct.Some? == party.Local?
      requires acct.Some? ==> party.number in ledger.byNumber && acct.value == ledger.byNumber[party.number]
      requires acct.Some? ==> acct.value.number == party.number
      modifies if acct.Some? then {acct.value} else {}
      ensures ledger.Valid()
      ensures Entered(old(Balances(ledger)), old(Histories(ledger)), Balances(ledger), Histories(ledger), party, amount, desc, r)
    {
      if acct.None? {
        return Some(0);
      }
      r := Post(acct.value, amount, desc);
    }

    /** The two transactions of Transfer. */
    method Move(src: Party, srcAcct: Option<Account>, dst: Party, dstAcct: Option<Account>, amount: int, toDesc: string, fromDesc: string)
      returns (r: Result<TransferResponse, Status>)
      requires ledger.Valid() && 0 < amount <= MAX32
      requires srcAcct.Some? == src.Local? && dstAcct.Some? == dst.Local?
      requires srcAcct.Some? ==> src.number in ledger.byNumber && srcAcct.value == ledger.byNumber[src.number]
      requires srcAcct.Some? ==> srcAcct.value.number == src.number
      requires dstAcct.Some? ==> dst.number in ledger.byNumber && dstAcct.value == ledger.byNumber[dst.number]
      requires dstAcct.Some? ==> dstAcct.value.number == dst.number
      modifies if srcAcct.Some? then {srcAcct.value} else {}
      modifies if dstAcct.Some? then {dstAcct.value} else {}
      ensures ledger.Valid()
      ensures Settled(old(Balances(ledger)), old(Histories(ledger)), src, dst, amount, toDesc, fromDesc,
                      Balances(ledger), Histories(ledger), r)
    {
      ghost var b0, h0 := Balances(ledger), Histories(ledger);
      var srcBalance := PostParty(src, srcAcct, -amount, toDesc);
      ghost var b1, h1 := Balances(ledger), Histories(ledger);
      if srcBalance.None? {
        TwoEntriesSettle(b0, h0, src, dst, amount, toDesc, fromDesc, b1, h1, srcBalance, b1, h1, None);
        return Err(FailedPrecondition);
      }
      var dstBalance := PostParty(dst, dstAcct, amount, fromDesc);
      TwoEntriesSettle(b0, h0, src, dst, amount, toDesc, fromDesc, b1, h1, srcBalance, Balances(ledger), Histories(ledger), dstBalance);
      if dstBalance.None? {
        return Err(FailedPrecondition);
      }
      r := Ok(TransferResponse(if src.Local? then src.number else 0, srcBalance.value,
                               if dst.Local? then dst.number else 0, dstBalance.value));
    }

    /** Transfer, with nothing between its two transactions. */
    method Transfer(cust: string, src: Party, dst: Party, amount: int, srcDesc: string, dstDesc: string, note: string)
      returns (r: Result<TransferResponse, Status>)
      requires ledger.Valid() && MIN32 <= amount <= MAX32
      modifies ledger.byNumber.Values
      ensures ledger.Valid()
      ensures match TransferRefusal(cust, NumbersOf(ledger.numbersByCustomer, cust), src, dst, amount)
              case Some(e) =>
                r == Err(e) && Balances(ledger) == old(Balances(ledger)) && Histories(ledger) == old(Histories(ledger))
              case None =>
                Settled(old(Balances(ledger)), old(Histories(ledger)), src, dst, amount,
                        "transfer to " + dstDesc + Noted(note), "transfer from " + srcDesc + Noted(note),
                        Balances(ledger), Histories(ledger), r)
    {
      hide Settled;
      if cust == "" {
        return Err(Unauthenticated);
      }
      if amount <= 0 {
        return Err(InvalidArgument);
      }
      var srcAcct := Resolve(cust, src);
      if srcAcct.Err? {
        return Err(srcAcct.error);
      }
      var dstAcct := Resolve(cust, dst);
      if dstAcct.Err? {
        return Err(dstAcct.error);
      }
      assert Balances(ledger) == old(Balances(ledger)) && Histories(ledger) == old(Histories(ledger));
      NoteFollows("transfer to " + dstDesc, note);
      NoteFollows("transfer from " + srcDesc, note);
      r := Move(src, srcAcct.value, dst, dstAcct.value, amount,
                WithNote("transfer to " + dstDesc, note), WithNote("transfer from " + srcDesc, note));
    }
  }
}
