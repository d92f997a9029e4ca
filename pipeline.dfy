/** Properties of the generated tables taken together. The customer table is
    built at one clock reading and the payment table at a later one. */
module Pipeline {
  import opened Common
  import opened CustomerGenerator
  import opened SubscriptionGenerator
  import opened PaymentGenerator

  /** Every payment belongs to a paying customer, falls between that customer's
      creation and the payment clock, is in USD and marked paid, and carries the
      price of a subscription with the customer's id, or no price when there is
      none. */
  lemma PaymentRowsTraceToCustomers(customers: seq<Customer>, subs: seq<Subscription>, now: int,
                                    draw: (nat, nat) -> PaymentDraw, p: Payment)
    requires p in Payments(customers, subs, now, draw)
    ensures exists c :: c in customers && IsPaying(c) && c.customerId == p.customerId && c.createdAt <= p.paidAt <= now
    ensures p.currency == "USD" && p.status == "paid"
    ensures p.amount.Some? ==> exists s :: s in subs && s.customerId == p.customerId && s.mrr == p.amount.value
    ensures p.amount.None? ==> forall s :: s in subs ==> s.customerId != p.customerId
  {
    var ps := PayingCustomers(customers);
    var js := LeftJoin(ps, subs);
    var i, k := PaymentsTableOrigin(js, now, draw, |js|, p);
    PaymentRowAt(js[i], i, now, draw, k);
    JoinedRow(ps, subs, i);
    assert js[i].customer in customers && IsPaying(js[i].customer);
  }

  /** With pairwise distinct paying-customer ids, a payment of a customer whose
      subscription was canceled falls before midnight of the end date. */
  lemma CanceledPaymentsBeforeEndDate(customers: seq<Customer>, sdraws: seq<SubscriptionDraw>, now: int,
                                      draw: (nat, nat) -> PaymentDraw, p: Payment, s: Subscription)
    requires |sdraws| == |PayingCustomers(customers)|
    requires forall i, j :: 0 <= i < j < |PayingCustomers(customers)| ==>
      PayingCustomers(customers)[i].customerId != PayingCustomers(customers)[j].customerId
    requires p in Payments(customers, Subscriptions(customers, sdraws), now, draw)
    requires s in Subscriptions(customers, sdraws) && s.customerId == p.customerId && s.status == Canceled
    ensures s.endDate.Some? && p.paidAt < Midnight(s.endDate.value)
  {
    var ps := PayingCustomers(customers);
    var subs := Subscriptions(customers, sdraws);
    forall i | 0 <= i < |ps|
      ensures subs[i].customerId == ps[i].customerId
    {
      SubscriptionRow(customers, sdraws, i);
    }
    LeftJoinOwn(ps, subs);
    var js := LeftJoin(ps, subs);
    var i, k := PaymentsTableOrigin(js, now, draw, |js|, p);
    PaymentRowAt(js[i], i, now, draw, k);
    var m :| 0 <= m < |subs| && subs[m] == s;
    assert js[i] == Joined(ps[i], Some(subs[i]));
    SameIdSameRow(ps, m, i);
    SubscriptionRow(customers, sdraws, i);
    CanceledPaymentsBeforeEnd(js[i], i, now, draw);
    assert p in CustomerPayments(js[i], i, now, draw);
  }

  /** In a table with pairwise distinct ids, a shared id means the same row. */
  lemma SameIdSameRow(ps: seq<Customer>, m: nat, i: nat)
    requires forall a, b :: 0 <= a < b < |ps| ==> ps[a].customerId != ps[b].customerId
    requires m < |ps| && i < |ps| && ps[m].customerId == ps[i].customerId
    ensures m == i
  {
  }

  /** A paying customer created at least two days before the customer clock
      has a payment, since the payment clock is read later. */
  lemma EstablishedCustomersArePaid(n: nat, nowCustomers: int, nowPayments: int, cdraws: seq<CustomerDraw>,
                                    subs: seq<Subscription>, draw: (nat, nat) -> PaymentDraw, k: nat)
    requires |cdraws| == n && k < n
    requires nowCustomers <= nowPayments
    requires cdraws[k].ageDays >= 2
    requires IsPaying(GenerateCustomers(n, nowCustomers, cdraws)[k])
    ensures exists p :: p in Payments(GenerateCustomers(n, nowCustomers, cdraws), subs, nowPayments, draw) &&
                        p.customerId == GenerateCustomers(n, nowCustomers, cdraws)[k].customerId
  {
    var customers := GenerateCustomers(n, nowCustomers, cdraws);
    var c := customers[k];
    var ps := PayingCustomers(customers);
    PayingIndicesComplete(customers);
    var j :| 0 <= j < |PayingIndices(customers)| && PayingIndices(customers)[j] == k;
    assert ps[j] == c;
    var js := LeftJoin(ps, subs);
    var i := LeftJoinCovers(ps, subs, c);
    FirstCycleOnTime(js[i], i, nowPayments, draw);
    var first := CustomerPayments(js[i], i, nowPayments, draw)[0];
    PaymentRowAt(js[i], i, nowPayments, draw, 0);
    PaymentsTableContains(js, nowPayments, draw, |js|, i, first);
    assert Payments(customers, subs, nowPayments, draw) == PaymentsTable(js, nowPayments, draw, |js|);
    assert first.customerId == c.customerId;
  }
}
