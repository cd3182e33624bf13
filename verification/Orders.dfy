/** Payment and fulfilment of a commercial order. One confirmation call debits
    the organisation's wallet, records the payment, grants the quota of the
    package and records the fulfilment; any platform call or row write may fail,
    and the caller retries as often as it likes. */
module Orders {
  import opened Options
  import opened Text
  import opened Credits

  const CASH := "ECOMMERCE_CASH"
  const CREDIT := "ECOMMERCE_CREDIT"
  const PROMO_CREDIT := "ECOMMERCE_PROMO_CREDIT"

  datatype OrderStatus = PendingPayment | Paid | FulfillmentFailed | Fulfilled
  datatype Progress = Pending | Succeeded | Failed

  datatype Order = Order(
    currency: string,
    totalAmount: int64,
    paymentAssetCode: string,  // from the order metadata
    status: OrderStatus,
    payment: Progress,
    fulfillment: Progress)

  datatype Payment = Payment(amount: int, currency: string, status: Progress)
  datatype Fulfillment = Fulfillment(amount: int, status: Progress)
  datatype Debit = Debit(assetCode: string, assetType: string, amount: int)
  datatype Policy = Policy(item: string, units: int, active: bool)
  datatype Grant = Grant(item: string, units: int)

  // The rows that carry one order's id, in creation order, and what the
  // platform has booked for it.
  datatype Account = Account(
    order: Order,
    payments: seq<Payment>,
    fulfillments: seq<Fulfillment>,
    debits: seq<Debit>,
    grants: seq<Grant>)

  // A debit may be refused, or booked although the call reports an error.
  datatype DebitOutcome = Booked | Refused | BookedButLost

  // What the platform and the database do during one confirmation call.
  datatype Attempt = Attempt(
    assetInput: string,
    debit: DebitOutcome,
    paymentRowOk: bool,
    paidSaveOk: bool,
    catalogOk: bool,
    packageListed: bool,
    policies: Option<seq<Policy>>,   // None: the policy listing failed
    failingGrants: set<nat>,         // positions of policies whose grant call fails
    failedSaveOk: bool,
    fulfillmentRowOk: bool,
    fulfilledSaveOk: bool)

  // ---- Specification ----

  function CreateOrder(currency: string, unitAmount: int64, quantity: int64): Order {
    Order(currency, OrderTotal(unitAmount, if quantity <= 0 then 1 else quantity), CASH, PendingPayment, Pending, Pending)
  }

  function ResolveAssetCode(order: Order, input: string): string {
    var code := if Blank(Trim(input)) then order.paymentAssetCode else Trim(input);
    if code == "" then CASH else code
  }

  // The asset type, currency and amount to charge, if the asset code is supported.
  datatype Charge = Charge(assetType: string, currency: string, amount: int)

  function ResolvePaymentCharge(order: Order, assetCode: string): Option<Charge> {
    if assetCode == "" || assetCode == CASH then
      Some(Charge("cash_balance", if Blank(order.currency) then "CNY" else order.currency, order.totalAmount))
    else if assetCode == CREDIT then
      Some(Charge("wallet_credit", assetCode, ConvertCashAmountToCredits(order.totalAmount)))
    else if assetCode == PROMO_CREDIT then
      Some(Charge("reward_credit", assetCode, ConvertCashAmountToCredits(order.totalAmount)))
    else None
  }

  predicate Settled(order: Order) {
    order.status == Fulfilled || (order.payment == Succeeded && order.fulfillment == Succeeded)
  }

  predicate NeedsPayment(a: Account) {
    a.payments == [] || a.payments[|a.payments| - 1].status != Succeeded
  }

  predicate NeedsFulfillment(a: Account) {
    a.fulfillments == [] || a.fulfillments[|a.fulfillments| - 1].status != Succeeded
  }

  function Pay(a: Account, t: Attempt): (Account, bool)
  {
    if !NeedsPayment(a) then (a, true)
    else
      var code := ResolveAssetCode(a.order, t.assetInput);
      match ResolvePaymentCharge(a.order, code)
      case None => (a, false)
      case Some(charge) =>
        if t.debit == Refused then (a, false)
        else
          var booked := a.(debits := a.debits + [Debit(code, charge.assetType, charge.amount)]);
          if t.debit == BookedButLost || !t.paymentRowOk then (booked, false)
          else (booked.(payments := booked.payments + [Payment(charge.amount, charge.currency, Succeeded)]), true)
  }

  function MarkPaid(a: Account, t: Attempt): (Account, bool) {
    if a.order.payment == Succeeded then (a, true)
    else if t.paidSaveOk then (a.(order := a.order.(payment := Succeeded, status := Paid)), true)
    else (a, false)
  }

  predicate Countable(p: Policy) {
    p.active && p.units > 0
  }

  function Granted(policies: seq<Policy>): seq<Grant> {
    if policies == [] then []
    else
      var last := policies[|policies| - 1];
      Granted(policies[..|policies| - 1]) + if Countable(last) then [Grant(last.item, last.units)] else []
  }

  function Units(policies: seq<Policy>): int {
    if policies == [] then 0
    else
      var last := policies[|policies| - 1];
      Units(policies[..|policies| - 1]) + if Countable(last) then last.units else 0
  }

  // The first policy at or after i whose grant call fails; the length if none does.
  function Stop(policies: seq<Policy>, failing: set<nat>, i: nat): (stop: nat)
    requires i <= |policies|
    ensures i <= stop <= |policies|
    decreases |policies| - i
  {
    if i == |policies| || (Countable(policies[i]) && i in failing) then i else Stop(policies, failing, i + 1)
  }

  // The policies to grant, if the catalogue lookups of assignPackage succeed.
  function PoliciesToGrant(t: Attempt): Option<seq<Policy>> {
    if !t.catalogOk || !t.packageListed || t.policies.None? || t.policies.value == [] then None
    else t.policies
  }

  function AssignPackage(a: Account, t: Attempt): (Account, Option<int>) {
    match PoliciesToGrant(t)
    case None => (a, None)
    case Some(policies) =>
      var stop := Stop(policies, t.failingGrants, 0);
      (a.(grants := a.grants + Granted(policies[..stop])),
       if stop == |policies| then Some(Units(policies)) else None)
  }

  function Fulfil(a: Account, t: Attempt): (Account, bool) {
    if !NeedsFulfillment(a) then (a, true)
    else
      var (granted, amount) := AssignPackage(a, t);
      match amount
      case None =>
        (if t.failedSaveOk
         then granted.(order := granted.order.(status := FulfillmentFailed, fulfillment := Failed))
         else granted, false)
      case Some(units) =>
        if t.fulfillmentRowOk
        then (granted.(fulfillments := granted.fulfillments + [Fulfillment(units, Succeeded)]), true)
        else (granted, false)
  }

  // One confirmation call: the new rows, and whether it returned without error.
  function Confirm(a: Account, t: Attempt): (Account, bool)
  {
    if Settled(a.order) then (a, true)
    else
      var (a1, paid) := Pay(a, t);
      if !paid then (a1, false)
      else
        var (a2, saved) := MarkPaid(a1, t);
        if !saved then (a2, false)
        else
          var (a3, done) := Fulfil(a2, t);
          if !done || !t.fulfilledSaveOk then (a3, false)
          else (a3.(order := a3.order.(status := Fulfilled, fulfillment := Succeeded)), true)
  }

  // ---- The service ----

  class CommercialService {
    var order: Order
    var payments: seq<Payment>
    var fulfillments: seq<Fulfillment>
    var debits: seq<Debit>
    var grants: seq<Grant>

    ghost function Rows(): Account
      reads this
    {
      Account(order, payments, fulfillments, debits, grants)
    }

    constructor (currency: string, unitAmount: int64, quantity: int64)
      ensures Rows() == Account(CreateOrder(currency, unitAmount, quantity), [], [], [], [])
    {
      order := CreateOrder(currency, unitAmount, quantity);
      payments, fulfillments, debits, grants := [], [], [], [];
    }

    // The grants made so far stay made when a later one fails.
    method AssignPackageToOrder(t: Attempt) returns (grantedUnits: Option<int>)
      modifies this`grants
      ensures (Rows(), grantedUnits) == AssignPackage(old(Rows()), t)
    {
      if !t.catalogOk || !t.packageListed || t.policies.None? || t.policies.value == [] {
        return None;
      }
      var policies := t.policies.value;
      var total := 0;
      var i := 0;
      assert policies[..0] == [];
      while i < |policies|
        invariant 0 <= i <= |policies|
        invariant Stop(policies, t.failingGrants, 0) == Stop(policies, t.failingGrants, i)
        invariant grants == old(grants) + Granted(policies[..i])
        invariant total == Units(policies[..i])
      {
        var policy := policies[i];
        assert policies[..i + 1][..i] == policies[..i];
        if policy.active && policy.units > 0 {
          if i in t.failingGrants {
            return None;
          }
          grants := grants + [Grant(policy.item, policy.units)];
          total := total + policy.units;
        }
        i := i + 1;
      }
      assert policies[..i] == policies;
      return Some(total);
    }

    // Debit the wallet and record the payment, unless it is already recorded.
    method TakePayment(t: Attempt) returns (ok: bool)
      modifies this`debits, this`payments
      ensures (Rows(), ok) == Pay(old(Rows()), t)
    {
      if payments != [] && payments[|payments| - 1].status == Succeeded {
        return true;
      }
      var code := ResolveAssetCode(order, t.assetInput);
      var charge := ResolvePaymentCharge(order, code);
      if charge.None? || t.debit == Refused {
        return false;
      }
      debits := debits + [Debit(code, charge.value.assetType, charge.value.amount)];
      if t.debit == BookedButLost || !t.paymentRowOk {
        return false;
      }
      payments := payments + [Payment(charge.value.amount, charge.value.currency, Succeeded)];
      return true;
    }

    // Grant the package and record the fulfilment, unless it is already recorded.
    method FulfilPackage(t: Attempt) returns (ok: bool)
      modifies this`order, this`grants, this`fulfillments
      ensures (Rows(), ok) == Fulfil(old(Rows()), t)
    {
      if fulfillments != [] && fulfillments[|fulfillments| - 1].status == Succeeded {
        return true;
      }
      var amount := AssignPackageToOrder(t);
      if amount.None? {
        if t.failedSaveOk {
          order := order.(status := FulfillmentFailed, fulfillment := Failed);
        }
        return false;
      }
      if !t.fulfillmentRowOk {
        return false;
      }
      fulfillments := fulfillments + [Fulfillment(amount.value, Succeeded)];
      return true;
    }

    method ConfirmOrderPayment(t: Attempt) returns (ok: bool)
      modifies this
      ensures (Rows(), ok) == Confirm(old(Rows()), t)
    {
      if Settled(order) {
        return true;
      }
      var paid := TakePayment(t);
      if !paid {
        return false;
      }
      if order.payment != Succeeded {
        if !t.paidSaveOk {
          return false;
        }
        order := order.(payment := Succeeded, status := Paid);
      }
      var done := FulfilPackage(t);
      if !done || !t.fulfilledSaveOk {
        return false;
      }
      order := order.(status := Fulfilled, fulfillment := Succeeded);
      return true;
    }
  }

  // ---- Runs ----

  function Run(a: Account, attempts: seq<Attempt>): Account
  {
    if attempts == [] then a
    else Confirm(Run(a, attempts[..|attempts| - 1]), attempts[|attempts| - 1]).0
  }

  predicate Unpaid(a: Account) {
    && a.order.status == PendingPayment && a.order.payment == Pending && a.order.fulfillment == Pending
    && a.payments == [] && a.fulfillments == [] && a.debits == [] && a.grants == []
  }

  // What every confirmation call keeps.
  predicate Inv(a: Account) {
    && |a.payments| <= 1 && |a.fulfillments| <= 1
    && (forall p :: p in a.payments ==> p.status == Succeeded)
    && (forall f :: f in a.fulfillments ==> f.status == Succeeded)
    && (a.order.payment == Succeeded ==> |a.payments| == 1)
    && (a.order.payment == Succeeded <==> a.order.status != PendingPayment)
    && (a.order.status == Fulfilled <==> a.order.fulfillment == Succeeded)
    && (a.fulfillments != [] ==> a.order.payment == Succeeded)
    && (a.order.status == Fulfilled ==> |a.fulfillments| == 1)
    && (a.order.fulfillment == Failed <==> a.order.status == FulfillmentFailed)
    && a.order.payment != Failed
  }

  function Rank(s: OrderStatus): nat {
    match s
    case PendingPayment => 0
    case Paid => 1
    case FulfillmentFailed => 2
    case Fulfilled => 3
  }

  // A call books a debit whose payment row is never written.
  predicate LosesDebit(a: Account, t: Attempt)
  {
    && !Settled(a.order) && NeedsPayment(a)
    && ResolvePaymentCharge(a.order, ResolveAssetCode(a.order, t.assetInput)).Some?
    && (t.debit == BookedButLost || (t.debit == Booked && !t.paymentRowOk))
  }

  function Losses(a: Account, attempts: seq<Attempt>): nat
  {
    if attempts == [] then 0
    else
      var init := attempts[..|attempts| - 1];
      Losses(a, init) + if LosesDebit(Run(a, init), attempts[|attempts| - 1]) then 1 else 0
  }

  lemma PayKeepsInv(a: Account, t: Attempt)
    requires Inv(a) && !Settled(a.order)
    ensures var (b, paid) := Pay(a, t);
            && Inv(b) && b.order == a.order && b.fulfillments == a.fulfillments
            && (paid ==> |b.payments| == 1)
            && |b.debits| - |b.payments| == |a.debits| - |a.payments| + (if LosesDebit(a, t) then 1 else 0)
  {
    assert NeedsPayment(a) <==> a.payments == [];
  }

  lemma FulfilKeepsInv(a: Account, t: Attempt)
    requires Inv(a) && a.order.payment == Succeeded && !Settled(a.order)
    ensures var (b, done) := Fulfil(a, t);
            && Inv(b) && !Settled(b.order) && b.payments == a.payments && b.debits == a.debits
            && Rank(a.order.status) <= Rank(b.order.status)
            && b.order.payment == Succeeded
            && (done ==> |b.fulfillments| == 1)
  {
    assert NeedsFulfillment(a) <==> a.fulfillments == [];
    var (granted, amount) := AssignPackage(a, t);
    assert granted == a.(grants := granted.grants);
  }

  lemma ConfirmKeepsInv(a: Account, t: Attempt)
    requires Inv(a)
    ensures Inv(Confirm(a, t).0)
    ensures Rank(a.order.status) <= Rank(Confirm(a, t).0.order.status)
    ensures |Confirm(a, t).0.debits| - |Confirm(a, t).0.payments|
         == |a.debits| - |a.payments| + if LosesDebit(a, t) then 1 else 0
  {
    if !Settled(a.order) {
      PayKeepsInv(a, t);
      var (a1, paid) := Pay(a, t);
      if paid {
        var (a2, saved) := MarkPaid(a1, t);
        assert Inv(a2) && !Settled(a2.order);
        if saved {
          FulfilKeepsInv(a2, t);
        }
      }
    }
  }

  // The payment is there, or is made: the code is supported, the debit booked
  // and its row written.
  predicate PaysUp(a: Account, t: Attempt) {
    || a.payments != []
    || (&& Asked(a.order, t.assetInput) in {"ECOMMERCE_CASH", "ECOMMERCE_CREDIT", "ECOMMERCE_PROMO_CREDIT"}
        && t.debit == Booked && t.paymentRowOk)
  }

  predicate GetsPaid(a: Account, t: Attempt) {
    PaysUp(a, t) && (a.order.payment == Succeeded || t.paidSaveOk)
  }

  // The catalogue lists the package, with policies, and no grant that is due fails.
  predicate Provides(t: Attempt) {
    && t.catalogOk && t.packageListed && t.policies.Some? && t.policies.value != []
    && forall i :: 0 <= i < |t.policies.value| && i in t.failingGrants ==> !t.policies.value[i].active || t.policies.value[i].units <= 0
  }

  lemma {:induction false} StopIff(policies: seq<Policy>, failing: set<nat>, i: nat)
    requires i <= |policies|
    ensures var stop := Stop(policies, failing, i);
            && (forall k :: i <= k < stop && k in failing ==> !policies[k].active || policies[k].units <= 0)
            && (stop < |policies| ==> stop in failing && policies[stop].active && policies[stop].units > 0)
    decreases |policies| - i
  {
    if i < |policies| {
      StopIff(policies, failing, i + 1);
    }
  }

  lemma ProvidesIff(a: Account, t: Attempt)
    ensures AssignPackage(a, t).1.Some? <==> Provides(t)
  {
    hide Units, Granted;
    if t.policies.Some? {
      StopIff(t.policies.value, t.failingGrants, 0);
    }
  }

  lemma PaysIff(a: Account, t: Attempt)
    requires Inv(a)
    ensures var (b, done) := Pay(a, t);
            && (done <==> PaysUp(a, t)) && |b.payments| == (if done then 1 else 0)
            && b.order == a.order && b.fulfillments == a.fulfillments && b.grants == a.grants
  {
    hide ResolveAssetCode, Asked, ResolvePaymentCharge;
    ResolvesAsked(a.order, t.assetInput);
  }

  lemma FulfilsIff(a: Account, t: Attempt)
    requires |a.fulfillments| <= 1 && forall f :: f in a.fulfillments ==> f.status == Succeeded
    ensures var (b, done) := Fulfil(a, t);
            && (done <==> a.fulfillments != [] || (Provides(t) && t.fulfillmentRowOk))
            && |b.fulfillments| == (if done then 1 else 0) && b.payments == a.payments
            && b.order == (if a.fulfillments == [] && !Provides(t) && t.failedSaveOk
                           then a.order.(status := FulfillmentFailed, fulfillment := Failed) else a.order)
  {
    hide AssignPackage, Provides;
    ProvidesIff(a, t);
    AssignKeepsRest(a, t);
  }

  // What a call leaves of an open order, wherever it stops. It is fulfilled
  // exactly when its payment is there or made and saved, its package is granted
  // and recorded or was before, and the order itself is saved: a supported code
  // with good answers does it, whatever failed before.
  lemma CallLeaves(a: Account, t: Attempt)
    requires Inv(a) && a.order.status != Fulfilled
    ensures var (b, done) := Confirm(a, t);
            && (done <==> GetsPaid(a, t) && (a.fulfillments != [] || (Provides(t) && t.fulfillmentRowOk)) && t.fulfilledSaveOk)
            && b.order.status == (if done then Fulfilled else if !GetsPaid(a, t) then a.order.status
                                  else if a.fulfillments == [] && !Provides(t) && t.failedSaveOk then FulfillmentFailed
                                  else if a.order.payment != Succeeded then Paid else a.order.status)
            && |b.payments| == (if PaysUp(a, t) then 1 else 0)
            && |b.fulfillments| == (if a.fulfillments != [] || (GetsPaid(a, t) && Provides(t) && t.fulfillmentRowOk) then 1 else 0)
  {
    hide Pay, Fulfil, Provides, PaysUp;
    PaysIff(a, t);
    FulfilsIff(MarkPaid(Pay(a, t).0, t).0, t);
  }

  // b has been granted the policies up to the first due grant that fails.
  predicate GrantsDue(a: Account, b: Account, t: Attempt) {
    if !t.catalogOk || !t.packageListed || t.policies.None? then b.grants == a.grants
    else
      var policies := t.policies.value;
      exists n :: 0 <= n <= |policies| && b.grants == a.grants + Granted(policies[..n])
                  && (forall k :: 0 <= k < n && k in t.failingGrants ==> !policies[k].active || policies[k].units <= 0)
                  && (n < |policies| ==> n in t.failingGrants && policies[n].active && policies[n].units > 0)
  }

  lemma AssignGrants(a: Account, t: Attempt)
    ensures GrantsDue(a, AssignPackage(a, t).0, t)
  {
    hide Granted, Units, Stop;
    if t.policies.Some? {
      StopIff(t.policies.value, t.failingGrants, 0);
      NothingGranted(t.policies.value);
      assert a.grants + [] == a.grants;
    }
  }

  // Grants are made for a paid order without a fulfilment, and no other.
  lemma CallGrants(a: Account, t: Attempt)
    requires Inv(a) && a.order.status != Fulfilled
    ensures var b := Confirm(a, t).0;
            if GetsPaid(a, t) && a.fulfillments == [] then GrantsDue(a, b, t) else b.grants == a.grants
  {
    hide AssignPackage, GrantsDue, Pay, PaysUp;
    PaysIff(a, t);
    var b := MarkPaid(Pay(a, t).0, t).0;
    AssignGrants(b, t);
    GrantsAlike(a, b, AssignPackage(b, t).0, Confirm(a, t).0, t);
  }

  lemma GrantsAlike(a: Account, b: Account, c: Account, d: Account, t: Attempt)
    requires a.grants == b.grants && GrantsDue(b, c, t)
    ensures c.grants == d.grants ==> GrantsDue(a, d, t)
  {
  }

  lemma NothingGranted(policies: seq<Policy>)
    ensures Granted(policies[..0]) == []
  {
  }

  // A call says it went through exactly when the order is fulfilled afterwards.
  lemma ReturnsIffFulfilled(a: Account, t: Attempt)
    requires Inv(a)
    ensures Confirm(a, t).1 <==> Confirm(a, t).0.order.status == Fulfilled
  {
    hide AssignPackage, ResolvePaymentCharge, ResolveAssetCode;
    AssignKeepsRest(Pay(a, t).0, t);
    AssignKeepsRest(MarkPaid(Pay(a, t).0, t).0, t);
  }

  // A fulfilled order is never touched again: no debit, no grant, no row.
  lemma FulfilledIsAbsorbing(a: Account, t: Attempt)
    requires Inv(a) && a.order.status == Fulfilled
    ensures Confirm(a, t) == (a, true)
  {
  }

  lemma {:induction false} RunKeepsInv(a: Account, attempts: seq<Attempt>)
    requires Inv(a)
    ensures Inv(Run(a, attempts))
    ensures Rank(a.order.status) <= Rank(Run(a, attempts).order.status)
    ensures |Run(a, attempts).debits| - |Run(a, attempts).payments| == |a.debits| - |a.payments| + Losses(a, attempts)
  {
    if attempts != [] {
      var init := attempts[..|attempts| - 1];
      RunKeepsInv(a, init);
      ConfirmKeepsInv(Run(a, init), attempts[|attempts| - 1]);
    }
  }

  // Debits and payment rows differ exactly by the lost debits.
  lemma DebitsAreAccountedFor(a: Account, attempts: seq<Attempt>)
    requires Unpaid(a)
    ensures |Run(a, attempts).debits| == |Run(a, attempts).payments| + Losses(a, attempts)
    ensures |Run(a, attempts).payments| <= 1
  {
    RunKeepsInv(a, attempts);
  }

  lemma {:induction false} NoLossWhenErrorsMeanNoDebit(a: Account, attempts: seq<Attempt>)
    requires forall t :: t in attempts ==> t.debit != BookedButLost && t.paymentRowOk
    ensures Losses(a, attempts) == 0
  {
    if attempts != [] {
      var init := attempts[..|attempts| - 1];
      assert forall t :: t in init ==> t in attempts;
      assert attempts[|attempts| - 1] in attempts;
      NoLossWhenErrorsMeanNoDebit(a, init);
    }
  }

  // However often confirmation is retried, the wallet is debited at most once,
  // provided a failed debit call books nothing and a booked one is recorded.
  lemma DebitedAtMostOnce(a: Account, attempts: seq<Attempt>)
    requires Unpaid(a)
    requires forall t :: t in attempts ==> t.debit != BookedButLost && t.paymentRowOk
    ensures |Run(a, attempts).debits| <= 1
    ensures Run(a, attempts).order.payment == Succeeded ==> |Run(a, attempts).debits| == 1
  {
    DebitsAreAccountedFor(a, attempts);
    NoLossWhenErrorsMeanNoDebit(a, attempts);
    RunKeepsInv(a, attempts);
  }

  // Without that proviso a retry debits again.
  lemma LostDebitIsRepeated(a: Account, lost: Attempt, retry: Attempt)
    requires Unpaid(a)
    requires lost.debit == BookedButLost && retry.debit == Booked
    requires ResolvePaymentCharge(a.order, ResolveAssetCode(a.order, lost.assetInput)).Some?
    requires ResolvePaymentCharge(a.order, ResolveAssetCode(a.order, retry.assetInput)).Some?
    ensures |Run(a, [lost, retry]).debits| == 2
  {
    assert [lost, retry][..1] == [lost];
    assert [lost][..0] == [];
    assert Run(a, [lost]) == Confirm(a, lost).0;
    assert Run(a, [lost, retry]) == Confirm(Run(a, [lost]), retry).0;
    var b := Run(a, [lost]);
    assert Pay(b, retry).0.debits == b.debits + [Pay(b, retry).0.debits[1]];
    assert Confirm(b, retry).0.debits == Pay(b, retry).0.debits;
  }

  function SumOf(grants: seq<Grant>): int {
    if grants == [] then 0 else SumOf(grants[..|grants| - 1]) + grants[|grants| - 1].units
  }

  // A policy whose units are granted.
  predicate Grants(p: Policy, g: Grant) {
    p.active && 0 < p.units == g.units && p.item == g.item
  }

  // What is granted: the units of every active policy with positive units, and
  // nothing else.
  lemma {:induction false} GrantedExactly(policies: seq<Policy>)
    ensures forall g :: g in Granted(policies) <==> exists i :: 0 <= i < |policies| && Grants(policies[i], g)
  {
    if policies != [] {
      var n := |policies| - 1;
      GrantedExactly(policies[..n]);
      assert forall i :: 0 <= i < n ==> policies[..n][i] == policies[i];
    }
  }

  // Where the policies with units to grant are.
  function Due(policies: seq<Policy>): set<int> {
    set i | 0 <= i < |policies| && policies[i].active && policies[i].units > 0
  }

  lemma DueGrows(policies: seq<Policy>)
    requires policies != []
    ensures var n := |policies| - 1;
            |Due(policies)| == |Due(policies[..n])| + (if policies[n].active && policies[n].units > 0 then 1 else 0)
  {
    var n := |policies| - 1;
    assert Due(policies) == Due(policies[..n]) + (if policies[n].active && policies[n].units > 0 then {n} else {});
  }

  // Each once, and the amount is their sum.
  lemma {:induction false} GrantedSumUp(policies: seq<Policy>)
    ensures |Granted(policies)| == |Due(policies)|
    ensures Units(policies) == SumOf(Granted(policies))
  {
    hide Due;
    if policies == [] {
      NoneDue();
    } else {
      var n := |policies| - 1;
      GrantedSumUp(policies[..n]);
      DueGrows(policies);
      if Countable(policies[n]) {
        SumAppends(Granted(policies[..n]), Grant(policies[n].item, policies[n].units));
      } else {
        assert Granted(policies) == Granted(policies[..n]);
      }
    }
  }

  lemma NoneDue()
    ensures Due([]) == {}
  {
  }

  lemma SumAppends(grants: seq<Grant>, g: Grant)
    ensures SumOf(grants + [g]) == SumOf(grants) + g.units
  {
    assert (grants + [g])[..|grants|] == grants;
  }

  // The call that wrote the fulfilment row: it granted every active policy with
  // positive units, and the row carries their sum.
  ghost predicate FulfilledBy(a: Account, attempts: seq<Attempt>, k: nat)
    requires k < |attempts|
  {
    var before, after, policies := Run(a, attempts[..k]), Run(a, attempts[..k + 1]), PoliciesToGrant(attempts[k]);
    && before.fulfillments == []
    && policies.Some?
    && after.fulfillments == [Fulfillment(Units(policies.value), Succeeded)]
    && after.grants == before.grants + Granted(policies.value)
  }

  lemma FulfillmentRowStep(a: Account, t: Attempt)
    requires Inv(a)
    ensures var b := Confirm(a, t).0;
            || b.fulfillments == a.fulfillments
            || (&& a.fulfillments == []
                && PoliciesToGrant(t).Some?
                && b.fulfillments == [Fulfillment(Units(PoliciesToGrant(t).value), Succeeded)]
                && b.grants == a.grants + Granted(PoliciesToGrant(t).value))
  {
    hide ResolvePaymentCharge, ResolveAssetCode, Units, Granted;
    if PoliciesToGrant(t).Some? {
      var policies := PoliciesToGrant(t).value;
      assert policies[..|policies|] == policies;
    }
  }

  lemma FulfilledByExtends(a: Account, attempts: seq<Attempt>, n: nat, k: nat)
    requires k < n <= |attempts| && FulfilledBy(a, attempts[..n], k)
    ensures FulfilledBy(a, attempts, k)
    ensures Run(a, attempts[..n][..k + 1]) == Run(a, attempts[..k + 1])
  {
    assert attempts[..n][..k] == attempts[..k] && attempts[..n][..k + 1] == attempts[..k + 1];
  }

  // If there is a fulfilment row, some call wrote it.
  lemma {:induction false} FulfilledMeans(a: Account, attempts: seq<Attempt>) returns (k: nat)
    requires Unpaid(a) && Run(a, attempts).fulfillments != []
    ensures k < |attempts| && FulfilledBy(a, attempts, k)
    ensures Run(a, attempts).fulfillments == Run(a, attempts[..k + 1]).fulfillments
  {
    var n := |attempts| - 1;
    var init := attempts[..n];
    var before := Run(a, init);
    assert Run(a, attempts) == Confirm(before, attempts[n]).0;
    RunKeepsInv(a, init);
    FulfillmentRowStep(before, attempts[n]);
    assert attempts[..n + 1] == attempts;
    if before.fulfillments == [] {
      k := n;
    } else {
      assert Run(a, attempts).fulfillments == before.fulfillments;
      k := FulfilledMeans(a, init);
      FulfilledByExtends(a, attempts, n, k);
    }
  }

  // ---- Amounts ----

  // The debit of an order's total in cents: cash cent by cent, credits the
  // fewest that are worth as much at ten cents each.
  predicate DebitsRight(total: int, d: Debit) {
    || (d.assetCode == "ECOMMERCE_CASH" && d.assetType == "cash_balance" && d.amount == total)
    || (d.assetCode == "ECOMMERCE_CREDIT" && d.assetType == "wallet_credit" && 10 * (d.amount - 1) < total <= 10 * d.amount)
    || (d.assetCode == "ECOMMERCE_PROMO_CREDIT" && d.assetType == "reward_credit" && 10 * (d.amount - 1) < total <= 10 * d.amount)
  }

  // A payment row shows its debit: the order's currency for cash, else the code.
  predicate RecordsDebit(currency: string, d: Debit, p: Payment) {
    && p.amount == d.amount
    && p.currency == if d.assetCode != "ECOMMERCE_CASH" then d.assetCode else if Trim(currency) == "" then "CNY" else currency
  }

  // The code a caller asks for: his own, or else the order's, or else cash.
  function Asked(order: Order, input: string): string {
    if Trim(input) != "" then Trim(input) else if order.paymentAssetCode != "" then order.paymentAssetCode else "ECOMMERCE_CASH"
  }

  lemma ResolvesAsked(order: Order, input: string)
    ensures ResolveAssetCode(order, input) == Asked(order, input)
    ensures ResolvePaymentCharge(order, Asked(order, input)).Some? <==>
              Asked(order, input) in {"ECOMMERCE_CASH", "ECOMMERCE_CREDIT", "ECOMMERCE_PROMO_CREDIT"}
  {
    hide Trim;
    TrimIsTrimmed(input);
    TrimmedIsFixed(Trim(input));
  }

  lemma ChargeIsRight(order: Order, input: string)
    requires 0 < order.totalAmount <= MAX_CENTS
    ensures var code := Asked(order, input);
            && ResolveAssetCode(order, input) == code
            && (ResolvePaymentCharge(order, code).Some? <==> code in {"ECOMMERCE_CASH", "ECOMMERCE_CREDIT", "ECOMMERCE_PROMO_CREDIT"})
            && (ResolvePaymentCharge(order, code).Some? ==>
                  var charge := ResolvePaymentCharge(order, code).value;
                  var d := Debit(code, charge.assetType, charge.amount);
                  DebitsRight(order.totalAmount, d) && RecordsDebit(order.currency, d, Payment(charge.amount, charge.currency, Succeeded)))
  {
    hide Trim;
    ResolvesAsked(order, input);
    ConversionIsCeilingIff(order.totalAmount);
  }

  // b is a after at most one debit, in the code that was asked for and for the
  // order's total, and perhaps its payment row.
  predicate DebitsOnce(a: Account, b: Account, input: string) {
    && b.order.totalAmount == a.order.totalAmount && b.order.currency == a.order.currency && b.order.paymentAssetCode == a.order.paymentAssetCode
    && (b.debits == a.debits
        || (&& |b.debits| == |a.debits| + 1 && a.debits <= b.debits
            && b.debits[|a.debits|].assetCode == Asked(a.order, input)
            && DebitsRight(a.order.totalAmount, b.debits[|a.debits|])))
    && (b.payments == a.payments
        || (&& |b.debits| == |a.debits| + 1 && |b.payments| == |a.payments| + 1 && a.payments <= b.payments
            && RecordsDebit(a.order.currency, b.debits[|a.debits|], b.payments[|a.payments|])))
  }

  lemma PayDebitsOnce(a: Account, t: Attempt)
    requires 0 < a.order.totalAmount <= MAX_CENTS
    ensures DebitsOnce(a, Pay(a, t).0, t.assetInput) && Pay(a, t).0.order == a.order
    ensures Asked(a.order, t.assetInput) !in {"ECOMMERCE_CASH", "ECOMMERCE_CREDIT", "ECOMMERCE_PROMO_CREDIT"} ==> Pay(a, t).0 == a
  {
    hide ResolvePaymentCharge, ResolveAssetCode, Asked, DebitsRight, RecordsDebit;
    ChargeIsRight(a.order, t.assetInput);
  }

  lemma RestKeepsDebits(a: Account, t: Attempt)
    ensures var paid, b := Pay(a, t).0, Confirm(a, t).0;
            || b == a
            || (&& b.debits == paid.debits && b.payments == paid.payments
                && b.order.totalAmount == paid.order.totalAmount && b.order.currency == paid.order.currency
                && b.order.paymentAssetCode == paid.order.paymentAssetCode)
  {
    hide AssignPackage, Pay;
    AssignKeepsRest(Pay(a, t).0, t);
    AssignKeepsRest(MarkPaid(Pay(a, t).0, t).0, t);
  }

  // One call debits at most once; with a code that is not supported it debits
  // nothing.
  lemma CallDebitsRight(a: Account, t: Attempt)
    requires 0 < a.order.totalAmount <= MAX_CENTS
    ensures DebitsOnce(a, Confirm(a, t).0, t.assetInput)
    ensures Asked(a.order, t.assetInput) !in {"ECOMMERCE_CASH", "ECOMMERCE_CREDIT", "ECOMMERCE_PROMO_CREDIT"} ==> Confirm(a, t).0.debits == a.debits
  {
    hide Pay, Confirm, Asked, DebitsRight, RecordsDebit;
    PayDebitsOnce(a, t);
    RestKeepsDebits(a, t);
  }

  lemma AssignKeepsRest(a: Account, t: Attempt)
    ensures AssignPackage(a, t).0 == a.(grants := AssignPackage(a, t).0.grants)
  {
  }

  // What every call keeps of an order of that total.
  predicate AmountsRight(total: int, currency: string, a: Account) {
    && a.order.totalAmount == total && a.order.currency == currency
    && (forall i :: 0 <= i < |a.debits| ==> DebitsRight(total, a.debits[i]))
    && (forall i :: 0 <= i < |a.payments| ==> exists k :: 0 <= k < |a.debits| && RecordsDebit(currency, a.debits[k], a.payments[i]))
  }

  lemma CallKeepsAmounts(total: int, currency: string, a: Account, t: Attempt)
    requires 0 < total <= MAX_CENTS && AmountsRight(total, currency, a)
    ensures AmountsRight(total, currency, Confirm(a, t).0)
  {
    hide Confirm, DebitsRight, RecordsDebit;
    CallDebitsRight(a, t);
    var b := Confirm(a, t).0;
    forall i | 0 <= i < |b.debits| ensures DebitsRight(total, b.debits[i]) {
      assert i < |a.debits| ==> DebitsRight(total, a.debits[i]);
    }
    forall i | 0 <= i < |b.payments| ensures exists k :: 0 <= k < |b.debits| && RecordsDebit(currency, b.debits[k], b.payments[i]) {
      if i < |a.payments| {
        var k :| 0 <= k < |a.debits| && RecordsDebit(currency, a.debits[k], a.payments[i]);
        assert RecordsDebit(currency, b.debits[k], b.payments[i]);
      } else {
        assert RecordsDebit(currency, b.debits[|a.debits|], b.payments[i]);
      }
    }
  }

  lemma {:induction false} RunKeepsAmounts(total: int, currency: string, a: Account, attempts: seq<Attempt>)
    requires 0 < total <= MAX_CENTS && AmountsRight(total, currency, a)
    ensures AmountsRight(total, currency, Run(a, attempts))
  {
    hide AmountsRight, Confirm;
    if attempts != [] {
      var init := attempts[..|attempts| - 1];
      RunKeepsAmounts(total, currency, a, init);
      CallKeepsAmounts(total, currency, Run(a, init), attempts[|attempts| - 1]);
    }
  }

  // From the creation of an order on, whatever fails and however often it is
  // confirmed: every debit is worth the unit amount times the quantity, and every
  // payment row records such a debit.
  lemma OrderIsDebitedRight(currency: string, unitAmount: int64, quantity: int64, attempts: seq<Attempt>)
    requires var total := unitAmount * (if quantity <= 0 then 1 else quantity); 0 < total <= MAX_CENTS
    ensures var total := unitAmount * (if quantity <= 0 then 1 else quantity);
            AmountsRight(total, currency, Run(Account(CreateOrder(currency, unitAmount, quantity), [], [], [], []), attempts))
  {
    hide Run, DebitsRight, RecordsDebit;
    var total := unitAmount * (if quantity <= 0 then 1 else quantity);
    OrderTotalIsExactIff(unitAmount, if quantity <= 0 then 1 else quantity);
    RunKeepsAmounts(total, currency, Account(CreateOrder(currency, unitAmount, quantity), [], [], [], []), attempts);
  }

  // A fulfilled order has exactly one succeeded payment and one succeeded
  // fulfilment; that is the sum of the active positive policy units, and this
  // records a debit of the order's total.
  lemma FulfilledOrderIsComplete(a: Account, attempts: seq<Attempt>)
    requires Unpaid(a) && Run(a, attempts).order.status == Fulfilled
    ensures var r := Run(a, attempts);
            && |r.payments| == 1 && r.payments[0].status == Succeeded
            && |r.fulfillments| == 1 && r.fulfillments[0].status == Succeeded
            && exists k :: 0 <= k < |attempts| && FulfilledBy(a, attempts, k) && r.fulfillments == Run(a, attempts[..k + 1]).fulfillments
    ensures var r, total := Run(a, attempts), a.order.totalAmount;
            0 < total <= MAX_CENTS ==>
              |r.payments| == 1 && exists d :: d in r.debits && DebitsRight(total, d) && RecordsDebit(a.order.currency, d, r.payments[0])
  {
    hide DebitsRight, RecordsDebit;
    RunKeepsInv(a, attempts);
    if 0 < a.order.totalAmount <= MAX_CENTS {
      RunKeepsAmounts(a.order.totalAmount, a.order.currency, a, attempts);
      var r := Run(a, attempts);
      var k :| 0 <= k < |r.debits| && RecordsDebit(a.order.currency, r.debits[k], r.payments[0]);
      assert r.debits[k] in r.debits;
    }
    var k := FulfilledMeans(a, attempts);
  }
}
