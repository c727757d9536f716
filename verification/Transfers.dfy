/** Transfers that interleave: each is a debit and then a credit, each of the two under its account's lock alone. */
module Transfers {
  import opened Wrappers
  import opened Int32
  import opened Queues
  import opened Accounts

  /** newTransaction, seen on the balances of all accounts. */
  function Posted(balances: map<nat, int>, n: nat, amount: int): Option<map<nat, int>>
    requires n in balances
  {
    if Wrap32(balances[n] + amount) < 0 then None else Some(balances[n := Wrap32(balances[n] + amount)])
  }

  /** No account is posted to when the party is external or missing. */
  function PostedTo(balances: map<nat, int>, party: Option<nat>, amount: int): Option<map<nat, int>>
    requires party.Some? ==> party.value in balances
  {
    if party.None? then Some(balances) else Posted(balances, party.value, amount)
  }

  datatype Phase =
    | Waiting    // nothing done
    | Refused    // the debit failed
    | Debited    // between the two transactions
    | Stranded   // the debit went through, the credit failed
    | Done

  datatype Transfer = Transfer(src: Option<nat>, dst: Option<nat>, amount: int, phase: Phase)

  datatype State = State(balances: map<nat, int>, transfers: seq<Transfer>)

  /** One transaction of transfer i. */
  ghost predicate Step(s: State, t: State, i: nat)
    requires i < |s.transfers| && Wellformed(s)
  {
    var x := s.transfers[i];
    match x.phase
    case Waiting =>
      var b := PostedTo(s.balances, x.src, -x.amount);
      t == if b.Some? then State(b.value, s.transfers[i := x.(phase := Debited)])
           else s.(transfers := s.transfers[i := x.(phase := Refused)])
    case Debited =>
      var b := PostedTo(s.balances, x.dst, x.amount);
      t == if b.Some? then State(b.value, s.transfers[i := x.(phase := Done)])
           else s.(transfers := s.transfers[i := x.(phase := Stranded)])
    case _ => false
  }

  ghost predicate Wellformed(s: State) {
    && (forall n :: n in s.balances ==> 0 <= s.balances[n] <= MAX32)
    && (forall i :: 0 <= i < |s.transfers| ==> PartiesExist(s.transfers[i], s.balances))
  }

  ghost predicate PartiesExist(x: Transfer, balances: map<nat, int>) {
    && 0 < x.amount <= MAX32
    && (x.src.Some? ==> x.src.value in balances)
    && (x.dst.Some? ==> x.dst.value in balances)
  }

  ghost predicate Next(s: State, t: State) {
    Wellformed(s) && exists i: nat :: i < |s.transfers| && Step(s, t, i)
  }

  ghost predicate IsRun(run: seq<State>) {
    && |run| > 0
    && Wellformed(run[0])
    && (forall i :: 0 <= i < |run[0].transfers| ==> run[0].transfers[i].phase == Waiting)
    && (forall k :: 0 <= k < |run| - 1 ==> Next(run[k], run[k+1]))
  }

  // ---- what a transfer has done to an account so far --------------------------------------------

  function DebitOf(x: Transfer, n: nat): int {
    if x.src == Some(n) && (x.phase.Debited? || x.phase.Stranded? || x.phase.Done?) then x.amount else 0
  }

  function CreditOf(x: Transfer, n: nat): int {
    if x.dst == Some(n) && x.phase.Done? then x.amount else 0
  }

  /** The sum over all transfers of what they have done to account n. */
  function Effect(xs: seq<Transfer>, n: nat): int {
    if xs == [] then 0 else CreditOf(xs[0], n) - DebitOf(xs[0], n) + Effect(xs[1..], n)
  }

  lemma {:induction false} EffectAt(xs: seq<Transfer>, i: nat, x: Transfer, n: nat)
    requires i < |xs|
    ensures Effect(xs[i := x], n) == Effect(xs, n) + CreditOf(x, n) - DebitOf(x, n) - CreditOf(xs[i], n) + DebitOf(xs[i], n)
  {
    if i == 0 {
      assert xs[i := x][1..] == xs[1..];
    } else {
      EffectAt(xs[1..], i - 1, x, n);
      assert xs[i := x][1..] == xs[1..][i-1 := x];
    }
  }

  lemma {:induction false} NothingDoneYet(xs: seq<Transfer>, n: nat)
    requires forall i :: 0 <= i < |xs| ==> xs[i].phase == Waiting
    ensures Effect(xs, n) == 0
  {
    if xs != [] {
      NothingDoneYet(xs[1..], n);
    }
  }

  /** Every balance is what it was at first, plus exactly what the transfers have done to it. */
  ghost predicate Accounted(s: State, first: map<nat, int>) {
    s.balances.Keys == first.Keys && forall n :: n in first ==> s.balances[n] == first[n] + Effect(s.transfers, n)
  }

  /** A transaction moves the one balance by exactly its amount, and keeps it in range. */
  lemma PostedIsExact(balances: map<nat, int>, party: Option<nat>, amount: int, n: nat)
    requires party.Some? ==> party.value in balances
    requires n in balances && 0 <= balances[n] <= MAX32 && -MAX32 <= amount <= MAX32
    requires PostedTo(balances, party, amount).Some?
    ensures var after := PostedTo(balances, party, amount).value;
            && after.Keys == balances.Keys
            && after[n] == balances[n] + (if party == Some(n) then amount else 0)
            && 0 <= after[n] <= MAX32
  {
    SignTestIsExact(balances[n], amount);
  }

  lemma DebitKeepsAccount(s: State, t: State, first: map<nat, int>, i: nat, n: nat)
    requires Wellformed(s) && Accounted(s, first) && i < |s.transfers| && n in first
    requires s.transfers[i].phase == Waiting && Step(s, t, i)
    ensures t.balances.Keys == first.Keys && t.balances[n] == first[n] + Effect(t.transfers, n)
    ensures 0 <= t.balances[n] <= MAX32
  {
    var x := s.transfers[i];
    assert PartiesExist(x, s.balances);
    EffectAt(s.transfers, i, t.transfers[i], n);
    if t.transfers[i].phase == Debited {
      PostedIsExact(s.balances, x.src, -x.amount, n);
    }
  }

  lemma CreditKeepsAccount(s: State, t: State, first: map<nat, int>, i: nat, n: nat)
    requires Wellformed(s) && Accounted(s, first) && i < |s.transfers| && n in first
    requires s.transfers[i].phase == Debited && Step(s, t, i)
    ensures t.balances.Keys == first.Keys && t.balances[n] == first[n] + Effect(t.transfers, n)
    ensures 0 <= t.balances[n] <= MAX32
  {
    var x := s.transfers[i];
    assert PartiesExist(x, s.balances);
    EffectAt(s.transfers, i, t.transfers[i], n);
    if t.transfers[i].phase == Done {
      PostedIsExact(s.balances, x.dst, x.amount, n);
    }
  }

  lemma StepKeeps(s: State, t: State, first: map<nat, int>)
    requires Accounted(s, first) && Next(s, t)
    ensures Wellformed(t) && Accounted(t, first)
    ensures |t.transfers| == |s.transfers|
    ensures forall j :: 0 <= j < |s.transfers| ==> t.transfers[j].(phase := Waiting) == s.transfers[j].(phase := Waiting)
  {
    var i: nat :| i < |s.transfers| && Step(s, t, i);
    forall n | n in first
      ensures t.balances.Keys == first.Keys && t.balances[n] == first[n] + Effect(t.transfers, n) && 0 <= t.balances[n] <= MAX32
    {
      if s.transfers[i].phase == Waiting {
        DebitKeepsAccount(s, t, first, i, n);
      } else {
        CreditKeepsAccount(s, t, first, i, n);
      }
    }
    assert PartiesExist(s.transfers[i], s.balances);
    assert t.balances.Keys == s.balances.Keys;
    forall j | 0 <= j < |t.transfers| ensures PartiesExist(t.transfers[j], t.balances) {
      assert PartiesExist(s.transfers[j], s.balances);
    }
  }

  /** In every run, however the transactions interleave, no update is lost and none is made twice. */
  lemma {:induction false} RunIsAccounted(run: seq<State>, k: nat)
    requires IsRun(run) && k < |run|
    ensures Wellformed(run[k]) && Accounted(run[k], run[0].balances)
    ensures |run[k].transfers| == |run[0].transfers|
    ensures forall j :: 0 <= j < |run[0].transfers| ==> run[k].transfers[j].(phase := Waiting) == run[0].transfers[j]
  {
    if k == 0 {
      forall n | n in run[0].balances ensures Effect(run[0].transfers, n) == 0 {
        NothingDoneYet(run[0].transfers, n);
      }
      forall j | 0 <= j < |run[0].transfers| ensures run[0].transfers[j].(phase := Waiting) == run[0].transfers[j] {
        assert run[0].transfers[j].phase == Waiting;
      }
    } else {
      RunIsAccounted(run, k - 1);
      assert Next(run[k-1], run[k-1+1]);
      StepKeeps(run[k-1], run[k], run[0].balances);
    }
  }

  // ---- the total --------------------------------------------------------------------------------

  function Total(nums: seq<nat>, balances: map<nat, int>): int
    requires forall i :: 0 <= i < |nums| ==> nums[i] in balances
  {
    if nums == [] then 0 else balances[nums[0]] + Total(nums[1..], balances)
  }

  /** Debited, and credited nowhere. */
  function Outstanding(xs: seq<Transfer>): int {
    if xs == [] then 0
    else (if xs[0].phase.Debited? || xs[0].phase.Stranded? then xs[0].amount else 0) + Outstanding(xs[1..])
  }

  ghost predicate AllLocal(xs: seq<Transfer>, nums: seq<nat>) {
    forall i :: 0 <= i < |xs| ==> xs[i].src.Some? && xs[i].dst.Some? && xs[i].src.value in nums && xs[i].dst.value in nums
  }

  function EffectSum(xs: seq<Transfer>, nums: seq<nat>): int {
    if nums == [] then 0 else Effect(xs, nums[0]) + EffectSum(xs, nums[1..])
  }

  /** What one transfer has done to all the accounts listed. */
  function OneSum(x: Transfer, nums: seq<nat>): int {
    if nums == [] then 0 else CreditOf(x, nums[0]) - DebitOf(x, nums[0]) + OneSum(x, nums[1..])
  }

  lemma {:induction false} OneSumIs(x: Transfer, nums: seq<nat>)
    requires NoDup(nums)
    ensures OneSum(x, nums) == (if x.dst.Some? && x.dst.value in nums then CreditOf(x, x.dst.value) else 0)
                               - (if x.src.Some? && x.src.value in nums then DebitOf(x, x.src.value) else 0)
  {
    if nums != [] {
      assert nums == [nums[0]] + nums[1..];
      OneSumIs(x, nums[1..]);
    }
  }

  lemma {:induction false} SumsSwap(xs: seq<Transfer>, nums: seq<nat>)
    requires xs != []
    ensures EffectSum(xs, nums) == OneSum(xs[0], nums) + EffectSum(xs[1..], nums)
  {
    if nums != [] {
      SumsSwap(xs, nums[1..]);
    }
  }

  lemma {:induction false} NoTransfers(nums: seq<nat>)
    ensures EffectSum([], nums) == 0
  {
    if nums != [] {
      NoTransfers(nums[1..]);
    }
  }

  lemma {:induction false} EffectsAreOutstanding(xs: seq<Transfer>, nums: seq<nat>)
    requires NoDup(nums) && AllLocal(xs, nums)
    ensures EffectSum(xs, nums) == -Outstanding(xs)
  {
    if xs == [] {
      NoTransfers(nums);
    } else {
      SumsSwap(xs, nums);
      OneSumIs(xs[0], nums);
      assert xs[0].src.value in nums;
      EffectsAreOutstanding(xs[1..], nums);
    }
  }

  lemma {:induction false} TotalSplits(nums: seq<nat>, s: State, first: map<nat, int>)
    requires Accounted(s, first) && forall i :: 0 <= i < |nums| ==> nums[i] in first
    ensures Total(nums, s.balances) == Total(nums, first) + EffectSum(s.transfers, nums)
  {
    if nums != [] {
      assert nums[0] in first;
      TotalSplits(nums[1..], s, first);
    }
  }

  /** Conservation: in every run of transfers between local accounts, the balances together with the
      amounts debited and not credited stay what the balances were at first. */
  lemma Conservation(run: seq<State>, k: nat, nums: seq<nat>)
    requires IsRun(run) && k < |run|
    requires NoDup(nums) && (forall i :: 0 <= i < |nums| ==> nums[i] in run[0].balances)
    requires AllLocal(run[0].transfers, nums)
    ensures forall i :: 0 <= i < |nums| ==> nums[i] in run[k].balances
    ensures Total(nums, run[k].balances) + Outstanding(run[k].transfers) == Total(nums, run[0].balances)
  {
    RunIsAccounted(run, k);
    forall i | 0 <= i < |run[k].transfers|
      ensures run[k].transfers[i].src == run[0].transfers[i].src && run[k].transfers[i].dst == run[0].transfers[i].dst
    {
      assert run[k].transfers[i].(phase := Waiting) == run[0].transfers[i];
    }
    assert AllLocal(run[k].transfers, nums);
    EffectsAreOutstanding(run[k].transfers, nums);
    TotalSplits(nums, run[k], run[0].balances);
  }

  // ---- one transfer alone -----------------------------------------------------------------------

  /** The two transactions with nothing between them: the phase reached and the balances after. */
  function Alone(balances: map<nat, int>, src: Option<nat>, dst: Option<nat>, amount: int): (r: (Phase, map<nat, int>))
    requires src.Some? ==> src.value in balances
    requires dst.Some? ==> dst.value in balances
  {
    var debited := PostedTo(balances, src, -amount);
    if debited.None? then (Refused, balances)
    else
      var credited := PostedTo(debited.value, dst, amount);
      if credited.None? then (Stranded, debited.value) else (Done, credited.value)
  }

  /** A transfer alone is refused exactly for lack of funds and then changes nothing; it keeps the money
      exactly when the destination is another account that it would fill past 2^31-1; otherwise both
      accounts change by the amount, and a transfer to the same account changes nothing. */
  lemma AloneIsBothOrNeither(balances: map<nat, int>, src: Option<nat>, dst: Option<nat>, amount: int)
    requires 0 < amount <= MAX32 && (forall n :: n in balances ==> 0 <= balances[n] <= MAX32)
    requires (src.Some? ==> src.value in balances) && (dst.Some? ==> dst.value in balances)
    ensures var (phase, after) := Alone(balances, src, dst, amount);
            && (phase == Refused <==> src.Some? && balances[src.value] < amount)
            && (phase == Stranded <==> phase != Refused && dst.Some? && dst != src && balances[dst.value] + amount > MAX32)
            && (phase == Refused || phase == Stranded || phase == Done)
            && after.Keys == balances.Keys
            && (phase == Refused ==> after == balances)
            && (phase == Done && src == dst ==> after == balances)
            && (phase == Done ==> forall n :: n in balances ==>
                  after[n] == balances[n] - (if src == Some(n) then amount else 0) + (if dst == Some(n) then amount else 0))
            && (phase == Stranded ==> forall n :: n in balances ==>
                  after[n] == balances[n] - (if src == Some(n) then amount else 0))
  {
    if src.Some? {
      SignTestIsExact(balances[src.value], -amount);
    }
    var debited := PostedTo(balances, src, -amount);
    if debited.Some? && dst.Some? {
      SignTestIsExact(debited.value[dst.value], amount);
    }
  }

  /** Whatever else goes on, the balance found when the transaction runs decides: a debit is refused exactly if it
      is too small, a credit exactly if it would go past 2^31-1. */
  lemma BalancesDecide(s: State, t: State, i: nat)
    requires Wellformed(s) && i < |s.transfers| && Step(s, t, i)
    ensures |t.transfers| == |s.transfers|
    ensures var x, next := s.transfers[i], t.transfers[i].phase;
            || (x.phase.Waiting?
                && next == if x.src.Some? && s.balances[x.src.value] < x.amount then Refused else Debited)
            || (x.phase.Debited?
                && next == if x.dst.Some? && s.balances[x.dst.value] + x.amount > MAX32 then Stranded else Done)
  {
    var x := s.transfers[i];
    assert PartiesExist(x, s.balances);
    if x.src.Some? { SignTestIsExact(s.balances[x.src.value], -x.amount); }
    if x.dst.Some? { SignTestIsExact(s.balances[x.dst.value], x.amount); }
  }

  /** A transfer alone is its steps with none between them. */
  lemma AloneIsItsSteps(s: State, t: State, u: State, i: nat)
    requires Wellformed(s) && i < |s.transfers| && s.transfers[i].phase.Waiting? && Step(s, t, i)
    requires if t.transfers[i].phase.Debited? then Wellformed(t) && Step(t, u, i) else u == t
    ensures var x := s.transfers[i];
            PartiesExist(x, s.balances)
            && |u.transfers| == |s.transfers|
            && (u.transfers[i].phase, u.balances) == Alone(s.balances, x.src, x.dst, x.amount)
  {
    assert PartiesExist(s.transfers[i], s.balances);
  }

  lemma TotalOfTwo(a: nat, b: nat, balances: map<nat, int>)
    requires a in balances && b in balances
    ensures forall i :: 0 <= i < |[a, b]| ==> [a, b][i] in balances
    ensures Total([a, b], balances) == balances[a] + balances[b]
  {
    assert [a, b][1..] == [b];
    assert Total([b], balances) == balances[b] + Total([], balances);
  }

  /** The run that strands money: a full destination takes nothing, and the source stays debited. */
  lemma MoneyCanBeStranded(run: seq<State>)
    requires |run| == 3
    requires run[0] == State(map[1 := 5, 2 := MAX32], [Transfer(Some(1), Some(2), 5, Waiting)])
    requires run[1] == State(map[1 := 0, 2 := MAX32], [Transfer(Some(1), Some(2), 5, Debited)])
    requires run[2] == State(map[1 := 0, 2 := MAX32], [Transfer(Some(1), Some(2), 5, Stranded)])
    ensures IsRun(run)
    ensures Total([1, 2], run[2].balances) + 5 == Total([1, 2], run[0].balances)
  {
    assert Step(run[0], run[1], 0);
    assert Step(run[1], run[2], 0);
    forall k | 0 <= k < |run| - 1 ensures Next(run[k], run[k+1]) {
      assert k == 0 || k == 1;
    }
    TotalOfTwo(1, 2, run[0].balances);
    TotalOfTwo(1, 2, run[2].balances);
  }
}
