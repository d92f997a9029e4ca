/** The payment table (`generate_payments`): for each paying customer joined to
    its subscription, one row per roughly thirty-day billing cycle from the
    creation time, cut short at the first cycle that would fall after the
    generator's clock reading. */
module PaymentGenerator {
  import opened Common
  import opened CustomerGenerator
  import opened SubscriptionGenerator

  /** A row of the left merge of the paying customers with the subscription
      table on customer id; `sub` is None where no subscription carries the id
      (its price and end date are then missing values). */
  datatype Joined = Joined(customer: Customer, sub: Option<Subscription>)

  datatype Payment = Payment(
    paymentId: string,
    customerId: string,
    paidAt: int,
    amount: Option<int>,
    currency: string,
    status: string)

  type Jitter = j: nat | j < 3

  /** The random draws behind one billing cycle: the 0 to 2 day jitter and the
      id token. */
  datatype PaymentDraw = PaymentDraw(jitter: Jitter, token: IdToken)

  const CycleDays: int := 30

  /** The subscriptions that carry customer id `id`, in table order. */
  function Matches(id: string, subs: seq<Subscription>): (m: seq<Subscription>)
    ensures forall s :: s in m <==> s in subs && s.customerId == id
  {
    if subs == [] then []
    else (if subs[0].customerId == id then [subs[0]] else []) + Matches(id, subs[1..])
  }

  /** The merged rows of one paying customer: one per matching subscription,
      or a single row without one. */
  function JoinOne(c: Customer, subs: seq<Subscription>): (js: seq<Joined>)
    ensures |js| >= 1
  {
    var m := Matches(c.customerId, subs);
    if m == [] then [Joined(c, None)]
    else seq(|m|, k requires 0 <= k < |m| => Joined(c, Some(m[k])))
  }

  /** `merge(..., on="customer_id", how="left")`: the customers' order is kept. */
  function LeftJoin(ps: seq<Customer>, subs: seq<Subscription>): seq<Joined> {
    if ps == [] then [] else JoinOne(ps[0], subs) + LeftJoin(ps[1..], subs)
  }

  /** Every merged row pairs a paying customer with a subscription carrying its
      id, or with none when no subscription does; no customer is dropped. */
  lemma {:induction false} LeftJoinRows(ps: seq<Customer>, subs: seq<Subscription>)
    ensures |LeftJoin(ps, subs)| >= |ps|
    ensures forall j :: j in LeftJoin(ps, subs) ==> j.customer in ps
    ensures forall j :: j in LeftJoin(ps, subs) && j.sub.Some? ==>
      j.sub.value in subs && j.sub.value.customerId == j.customer.customerId
    ensures forall j :: j in LeftJoin(ps, subs) && j.sub.None? ==>
      forall s :: s in subs ==> s.customerId != j.customer.customerId
  {
    if ps != [] {
      LeftJoinRows(ps[1..], subs);
      var m := Matches(ps[0].customerId, subs);
      assert forall j :: j in JoinOne(ps[0], subs) ==> j.customer == ps[0] && (j.sub.Some? ==> j.sub.value in m);
    }
  }

  /** A merged row pairs a paying customer with a subscription carrying its
      id, or with none when no subscription does. */
  lemma JoinedRow(ps: seq<Customer>, subs: seq<Subscription>, i: nat)
    requires i < |LeftJoin(ps, subs)|
    ensures LeftJoin(ps, subs)[i].customer in ps
    ensures LeftJoin(ps, subs)[i].sub.Some? ==>
      LeftJoin(ps, subs)[i].sub.value in subs && LeftJoin(ps, subs)[i].sub.value.customerId == LeftJoin(ps, subs)[i].customer.customerId
    ensures LeftJoin(ps, subs)[i].sub.None? ==>
      forall s :: s in subs ==> s.customerId != LeftJoin(ps, subs)[i].customer.customerId
  {
    LeftJoinRows(ps, subs);
    assert LeftJoin(ps, subs)[i] in LeftJoin(ps, subs);
  }

  /** No paying customer is dropped by the merge: `i` is a merged row of `c`. */
  lemma {:induction false} LeftJoinCovers(ps: seq<Customer>, subs: seq<Subscription>, c: Customer) returns (i: nat)
    requires c in ps
    ensures i < |LeftJoin(ps, subs)| && LeftJoin(ps, subs)[i].customer == c
  {
    var first := JoinOne(ps[0], subs);
    if c == ps[0] {
      i := 0;
      assert LeftJoin(ps, subs)[0] == first[0];
    } else {
      var r := LeftJoinCovers(ps[1..], subs, c);
      i := |first| + r;
      assert LeftJoin(ps, subs)[i] == LeftJoin(ps[1..], subs)[r];
    }
  }

  /** Every pair of a paying customer and a subscription with the same id is a
      merged row: a customer whose id is carried by several subscriptions gets
      one row per subscription. */
  lemma {:induction false} LeftJoinComplete(ps: seq<Customer>, subs: seq<Subscription>, c: Customer, s: Subscription)
    requires c in ps && s in subs && s.customerId == c.customerId
    ensures Joined(c, Some(s)) in LeftJoin(ps, subs)
  {
    if c == ps[0] {
      var m := Matches(c.customerId, subs);
      var k :| 0 <= k < |m| && m[k] == s;
      assert JoinOne(c, subs)[k] == Joined(c, Some(s));
      assert LeftJoin(ps, subs)[k] == JoinOne(c, subs)[k];
    } else {
      LeftJoinComplete(ps[1..], subs, c, s);
    }
  }

  lemma {:induction false} MatchesNone(id: string, subs: seq<Subscription>)
    requires forall k :: 0 <= k < |subs| ==> subs[k].customerId != id
    ensures Matches(id, subs) == []
  {
    if subs != [] {
      MatchesNone(id, subs[1..]);
    }
  }

  lemma {:induction false} MatchesOne(id: string, subs: seq<Subscription>, i: nat)
    requires i < |subs|
    requires forall k :: 0 <= k < |subs| ==> (subs[k].customerId == id <==> k == i)
    ensures Matches(id, subs) == [subs[i]]
  {
    if i == 0 {
      MatchesNone(id, subs[1..]);
    } else {
      MatchesOne(id, subs[1..], i - 1);
    }
  }

  /** A merge in which every customer matches exactly one row keeps one row
      per customer, in order. */
  lemma {:induction false} LeftJoinSingles(ps: seq<Customer>, subs: seq<Subscription>)
    requires forall i :: 0 <= i < |ps| ==> |JoinOne(ps[i], subs)| == 1
    ensures |LeftJoin(ps, subs)| == |ps|
    ensures forall i :: 0 <= i < |ps| ==> LeftJoin(ps, subs)[i] == JoinOne(ps[i], subs)[0]
  {
    if ps != [] {
      var rest := ps[1..];
      assert forall i :: 0 <= i < |rest| ==> rest[i] == ps[i + 1];
      LeftJoinSingles(rest, subs);
    }
  }

  /** When the paying customers' ids are pairwise distinct and the subscription
      table was built from them, the merge pairs each customer with its own
      subscription and nothing else. */
  lemma LeftJoinOwn(ps: seq<Customer>, subs: seq<Subscription>)
    requires |ps| == |subs|
    requires forall i :: 0 <= i < |ps| ==> subs[i].customerId == ps[i].customerId
    requires forall i, j :: 0 <= i < j < |ps| ==> ps[i].customerId != ps[j].customerId
    ensures |LeftJoin(ps, subs)| == |ps|
    ensures forall i :: 0 <= i < |ps| ==> LeftJoin(ps, subs)[i] == Joined(ps[i], Some(subs[i]))
  {
    forall i | 0 <= i < |ps|
      ensures JoinOne(ps[i], subs) == [Joined(ps[i], Some(subs[i]))]
    {
      forall k | 0 <= k < |subs|
        ensures subs[k].customerId == ps[i].customerId <==> k == i
      {
        if k < i {
          assert ps[k].customerId != ps[i].customerId;
        } else if k > i {
          assert ps[i].customerId != ps[k].customerId;
        }
      }
      MatchesOne(ps[i].customerId, subs, i);
    }
    LeftJoinSingles(ps, subs);
  }

  /** End of the billing window: midnight of the end date of a canceled
      subscription, the clock reading otherwise. */
  function WindowEnd(j: Joined, now: int): int {
    if j.sub.Some? && j.sub.value.endDate.Some? then Midnight(j.sub.value.endDate.value) else now
  }

  /** `max(1, int((end - start).days / 30))`: the number of billing cycles. */
  function CycleCount(start: int, end: int): (m: nat)
    ensures m >= 1
    ensures m == 1 <==> end - start < 2 * CycleDays * MicrosPerDay
    ensures m > 1 ==> m * CycleDays * MicrosPerDay <= end - start
    ensures end - start >= CycleDays * MicrosPerDay ==> end - start < (m + 1) * CycleDays * MicrosPerDay
  {
    Max(1, TruncDiv(FloorDays(end - start), CycleDays))
  }

  /** Timestamp of cycle `k`: thirty days per cycle plus the jitter. */
  function PaidAt(start: int, k: nat, jitter: Jitter): int {
    start + (CycleDays * k + jitter) * MicrosPerDay
  }

  /** The first cycle at or after `k` whose timestamp is after `now`, or
      `months` if there is none: the cycle at which the loop breaks. */
  function FirstLate(start: int, months: nat, now: int, i: nat, draw: (nat, nat) -> PaymentDraw, k: nat): (r: nat)
    requires k <= months
    ensures k <= r <= months
    ensures forall m :: k <= m < r ==> PaidAt(start, m, draw(i, m).jitter) <= now
    ensures r < months ==> PaidAt(start, r, draw(i, r).jitter) > now
    decreases months - k
  {
    if k == months then months
    else if PaidAt(start, k, draw(i, k).jitter) > now then k
    else FirstLate(start, months, now, i, draw, k + 1)
  }

  function Amount(j: Joined): Option<int> {
    if j.sub.Some? then Some(j.sub.value.mrr) else None
  }

  function PaymentRow(j: Joined, i: nat, k: nat, draw: (nat, nat) -> PaymentDraw): Payment {
    Payment(
      RandId("pay", draw(i, k).token),
      j.customer.customerId,
      PaidAt(j.customer.createdAt, k, draw(i, k).jitter),
      Amount(j),
      "USD",
      "paid")
  }

  /** The rows emitted for merged row `i`: one per cycle before the first late
      one. */
  function CustomerPayments(j: Joined, i: nat, now: int, draw: (nat, nat) -> PaymentDraw): (ps: seq<Payment>)
    ensures |ps| <= CycleCount(j.customer.createdAt, WindowEnd(j, now))
  {
    var start := j.customer.createdAt;
    var months := CycleCount(start, WindowEnd(j, now));
    var stop := FirstLate(start, months, now, i, draw, 0);
    seq(stop, k requires 0 <= k < stop => PaymentRow(j, i, k, draw))
  }

  /** A merged row's payments: at most the cycle count, stamped thirty days
      apart plus jitter from the creation time, strictly increasing, never after
      `now`, carrying the subscription's price in USD, and stopping exactly at
      the first cycle that would fall after `now`. */
  lemma CustomerPaymentsSchedule(j: Joined, i: nat, now: int, draw: (nat, nat) -> PaymentDraw)
    ensures |CustomerPayments(j, i, now, draw)| <= CycleCount(j.customer.createdAt, WindowEnd(j, now))
    ensures forall k :: 0 <= k < |CustomerPayments(j, i, now, draw)| ==>
      CustomerPayments(j, i, now, draw)[k].paidAt == PaidAt(j.customer.createdAt, k, draw(i, k).jitter) &&
      j.customer.createdAt <= CustomerPayments(j, i, now, draw)[k].paidAt <= now
    ensures forall k :: 0 <= k < |CustomerPayments(j, i, now, draw)| ==>
      CustomerPayments(j, i, now, draw)[k].customerId == j.customer.customerId &&
      CustomerPayments(j, i, now, draw)[k].amount == Amount(j) &&
      CustomerPayments(j, i, now, draw)[k].currency == "USD" &&
      CustomerPayments(j, i, now, draw)[k].status == "paid"
    ensures forall k, l :: 0 <= k < l < |CustomerPayments(j, i, now, draw)| ==>
      CustomerPayments(j, i, now, draw)[k].paidAt < CustomerPayments(j, i, now, draw)[l].paidAt
    ensures |CustomerPayments(j, i, now, draw)| < CycleCount(j.customer.createdAt, WindowEnd(j, now)) ==>
      PaidAt(j.customer.createdAt, |CustomerPayments(j, i, now, draw)|, draw(i, |CustomerPayments(j, i, now, draw)|).jitter) > now
  {
  }

  /** The loop's view of `CustomerPayments`: a cycle not after `now` is emitted
      as the next row, and the first late cycle ends the rows. */
  lemma CycleEmitted(j: Joined, i: nat, now: int, draw: (nat, nat) -> PaymentDraw, k: nat)
    requires k < CycleCount(j.customer.createdAt, WindowEnd(j, now)) && k <= |CustomerPayments(j, i, now, draw)|
    ensures PaidAt(j.customer.createdAt, k, draw(i, k).jitter) <= now ==>
      k < |CustomerPayments(j, i, now, draw)| && CustomerPayments(j, i, now, draw)[k] == PaymentRow(j, i, k, draw)
    ensures PaidAt(j.customer.createdAt, k, draw(i, k).jitter) > now ==> k == |CustomerPayments(j, i, now, draw)|
  {
  }

  /** Each merged row's payments, in merge order. */
  function PaymentGroups(js: seq<Joined>, now: int, draw: (nat, nat) -> PaymentDraw): (gs: seq<seq<Payment>>)
    ensures |gs| == |js|
  {
    seq(|js|, i requires 0 <= i < |js| => CustomerPayments(js[i], i, now, draw))
  }

  /** Rows of the first `n` merged rows, grouped in merge order. */
  function PaymentsTable(js: seq<Joined>, now: int, draw: (nat, nat) -> PaymentDraw, n: nat): seq<Payment>
    requires n <= |js|
  {
    Concat(PaymentGroups(js, now, draw), n)
  }

  /** The table `generate_payments` returns. */
  function Payments(customers: seq<Customer>, subs: seq<Subscription>, now: int, draw: (nat, nat) -> PaymentDraw): seq<Payment> {
    var js := LeftJoin(PayingCustomers(customers), subs);
    PaymentsTable(js, now, draw, |js|)
  }

  /** The inner loop of `generate_payments`: walk the billing cycles of merged
      row `i`, appending one row per cycle and breaking at the first cycle after
      `now`. */
  method AppendCycles(rows: seq<Payment>, r: Joined, i: nat, now: int, draw: (nat, nat) -> PaymentDraw)
    returns (out: seq<Payment>)
    ensures out == rows + CustomerPayments(r, i, now, draw)
  {
    var start := r.customer.createdAt;
    var end := if r.sub.Some? && r.sub.value.endDate.Some? then Midnight(r.sub.value.endDate.value) else now;
    var months := Max(1, TruncDiv(FloorDays(end - start), CycleDays));
    assert months == CycleCount(start, WindowEnd(r, now));
    ghost var due := CustomerPayments(r, i, now, draw);
    out := rows;
    var k := 0;
    while k < months
      invariant 0 <= k <= |due|
      invariant out == rows + due[..k]
    {
      var paidAt := start + (CycleDays * k + draw(i, k).jitter) * MicrosPerDay;
      assert paidAt == PaidAt(start, k, draw(i, k).jitter);
      CycleEmitted(r, i, now, draw, k);
      if paidAt > now {
        break;
      }
      var amount := if r.sub.Some? then Some(r.sub.value.mrr) else None;
      var row := Payment(RandId("pay", draw(i, k).token), r.customer.customerId, paidAt, amount, "USD", "paid");
      assert row == PaymentRow(r, i, k, draw);
      assert due[k] == row && due[..k + 1] == due[..k] + [due[k]];
      out := out + [row];
      k := k + 1;
    }
    assert due[..k] == due;
  }

  /** `generate_payments`: merge, then walk each merged row's billing cycles. */
  method GeneratePayments(customers: seq<Customer>, subs: seq<Subscription>, now: int, draw: (nat, nat) -> PaymentDraw)
    returns (rows: seq<Payment>)
    ensures rows == Payments(customers, subs, now, draw)
  {
    var payCustomers := LeftJoin(PayingCustomers(customers), subs);
    rows := [];
    for i := 0 to |payCustomers|
      invariant rows == PaymentsTable(payCustomers, now, draw, i)
    {
      rows := AppendCycles(rows, payCustomers[i], i, now, draw);
    }
  }

  /** For a canceled subscription that starts on the customer's creation date
      and lasts at least the minimum tenure, every payment falls before
      midnight of its end date. */
  lemma CanceledPaymentsBeforeEnd(j: Joined, i: nat, now: int, draw: (nat, nat) -> PaymentDraw)
    requires j.sub.Some? && j.sub.value.endDate.Some?
    requires j.sub.value.endDate.value >= FloorDays(j.customer.createdAt) + MinTenureDays
    ensures forall p :: p in CustomerPayments(j, i, now, draw) ==> p.paidAt < Midnight(j.sub.value.endDate.value)
  {
    var start := j.customer.createdAt;
    var end := Midnight(j.sub.value.endDate.value);
    var months := CycleCount(start, end);
    var ps := CustomerPayments(j, i, now, draw);
    assert end - start > 6 * MicrosPerDay;
    forall k | 0 <= k < |ps|
      ensures ps[k].paidAt < end
    {
      assert k < months;
      if months == 1 {
        assert k == 0;
      } else {
        assert CycleDays * k + 2 <= CycleDays * months - 28;
      }
    }
  }

  /** Payment `k` of merged row `i` is the row `PaymentRow` builds for cycle
      `k`, stamped between the customer's creation and the clock reading. */
  lemma PaymentRowAt(j: Joined, i: nat, now: int, draw: (nat, nat) -> PaymentDraw, k: nat)
    requires k < |CustomerPayments(j, i, now, draw)|
    ensures CustomerPayments(j, i, now, draw)[k] == PaymentRow(j, i, k, draw)
    ensures j.customer.createdAt <= CustomerPayments(j, i, now, draw)[k].paidAt <= now
  {
  }

  /** A payment row comes from billing cycle `k` of merged row `i`. */
  lemma PaymentsTableOrigin(js: seq<Joined>, now: int, draw: (nat, nat) -> PaymentDraw, n: nat, p: Payment)
    returns (i: nat, k: nat)
    requires n <= |js|
    requires p in PaymentsTable(js, now, draw, n)
    ensures i < n && k < |CustomerPayments(js[i], i, now, draw)| && CustomerPayments(js[i], i, now, draw)[k] == p
  {
    var gs := PaymentGroups(js, now, draw);
    i, k := ConcatOrigin(gs, n, p);
    assert gs[i] == CustomerPayments(js[i], i, now, draw);
  }

  /** Every payment of merged row `i` is in the table of any prefix that
      includes the row. */
  lemma PaymentsTableContains(js: seq<Joined>, now: int, draw: (nat, nat) -> PaymentDraw, n: nat, i: nat, p: Payment)
    requires i < n <= |js|
    requires p in CustomerPayments(js[i], i, now, draw)
    ensures p in PaymentsTable(js, now, draw, n)
  {
    var gs := PaymentGroups(js, now, draw);
    assert gs[i] == CustomerPayments(js[i], i, now, draw);
    ConcatContains(gs, n, i, p);
  }

  /** A customer created at least two days before the clock gets its first
      cycle: the jitter is at most two days. */
  lemma FirstCycleOnTime(j: Joined, i: nat, now: int, draw: (nat, nat) -> PaymentDraw)
    requires j.customer.createdAt + 2 * MicrosPerDay <= now
    ensures |CustomerPayments(j, i, now, draw)| >= 1
    ensures CustomerPayments(j, i, now, draw)[0].paidAt <= j.customer.createdAt + 2 * MicrosPerDay
  {
    var start := j.customer.createdAt;
    assert PaidAt(start, 0, draw(i, 0).jitter) <= start + 2 * MicrosPerDay;
    CustomerPaymentsSchedule(j, i, now, draw);
  }

  /** A paying customer created within the last two days can have no payment
      at all: its first jittered cycle may already be after the clock. */
  lemma FirstCycleCanBeLate(c: Customer, s: Subscription, now: int)
    requires c.createdAt == now && s.endDate.None?
    ensures CustomerPayments(Joined(c, Some(s)), 0, now, (i, k) => PaymentDraw(1, "000000000000")) == []
  {
  }
}
