/** The subscription table (`generate_subscriptions`): the paying customers,
    kept in order, each given a lifecycle (active, or canceled after a tenure of
    at least a week) and a monthly price from its plan's price list. */
module SubscriptionGenerator {
  import opened Common
  import opened CustomerGenerator

  datatype Status = Active | Canceled

  /** `startDate` and `endDate` are day numbers (calendar dates, UTC). */
  datatype Subscription = Subscription(
    subscriptionId: string,
    customerId: string,
    startDate: int,
    endDate: Option<int>,
    status: Status,
    mrr: int)

  type PriceIndex = i: nat | i < 3

  /** The random draws behind one subscription row: the id token, the churn
      bit, the exponential tenure in whole days (before the floor is added) and
      the position picked in the plan's price list. */
  datatype SubscriptionDraw = SubscriptionDraw(token: IdToken, churned: bool, tenureDays: nat, price: PriceIndex)

  const MinTenureDays: nat := 7
  const ProPrices: seq<int> := [12, 15, 20]
  const OrgPrices: seq<int> := [45, 60, 90]

  predicate IsPaying(c: Customer) {
    c.plan == Pro || c.plan == Org
  }

  /** The positions of the pro and org rows, in increasing order. */
  function PayingIndices(cs: seq<Customer>): (ix: seq<nat>)
    ensures |ix| <= |cs|
    ensures forall k :: 0 <= k < |ix| ==> ix[k] < |cs| && IsPaying(cs[ix[k]])
  {
    if cs == [] then []
    else PayingIndices(cs[..|cs| - 1]) + (if IsPaying(cs[|cs| - 1]) then [|cs| - 1] else [])
  }

  /** The boolean-mask selection of the pro and org rows: the rows at those
      positions, in their original order. */
  function PayingCustomers(cs: seq<Customer>): (ps: seq<Customer>)
    ensures |ps| <= |cs|
    ensures forall c :: c in ps ==> c in cs && IsPaying(c)
  {
    var ix := PayingIndices(cs);
    seq(|ix|, j requires 0 <= j < |ix| => cs[ix[j]])
  }

  /** The selected positions are strictly increasing, so each row is kept at
      most once and the input order is preserved. */
  lemma {:induction false} PayingIndicesIncreasing(cs: seq<Customer>)
    ensures forall j, k :: 0 <= j < k < |PayingIndices(cs)| ==> PayingIndices(cs)[j] < PayingIndices(cs)[k]
  {
    if cs != [] {
      var n := |cs| - 1;
      PayingIndicesIncreasing(cs[..n]);
      var ix0, ix := PayingIndices(cs[..n]), PayingIndices(cs);
      assert ix == ix0 + (if IsPaying(cs[n]) then [n] else []);
      forall j, k | 0 <= j < k < |ix|
        ensures ix[j] < ix[k]
      {
        assert ix[j] == ix0[j] && ix0[j] < n;
        if k < |ix0| {
          assert ix[k] == ix0[k];
        } else {
          assert ix[k] == n;
        }
      }
    }
  }

  /** A position is selected exactly when its row is on the pro or org plan. */
  lemma {:induction false} PayingIndicesComplete(cs: seq<Customer>)
    ensures forall i :: 0 <= i < |cs| ==> (IsPaying(cs[i]) <==> i in PayingIndices(cs))
  {
    if cs != [] {
      var n := |cs| - 1;
      var init := cs[..n];
      PayingIndicesComplete(init);
      var ix0, ix := PayingIndices(init), PayingIndices(cs);
      assert ix == ix0 + (if IsPaying(cs[n]) then [n] else []);
      forall i | 0 <= i < |cs|
        ensures IsPaying(cs[i]) <==> i in ix
      {
        if IsPaying(cs[i]) {
          if i < n {
            assert init[i] == cs[i] && i in ix0;
          } else {
            assert ix[|ix| - 1] == i;
          }
        }
      }
    }
  }

  /** End date of a subscription starting on day `start`: the tenure plus the
      one-week floor after the start when churned, none otherwise. */
  function EndDate(start: int, d: SubscriptionDraw): (e: Option<int>)
    ensures e.Some? <==> d.churned
    ensures e.Some? ==> e.value >= start + MinTenureDays
  {
    if d.churned then Some(start + d.tenureDays + MinTenureDays) else None
  }

  function StatusFor(d: SubscriptionDraw): (st: Status)
    ensures st == Canceled <==> d.churned
  {
    if d.churned then Canceled else Active
  }

  /** Monthly price picked from the plan's list; every plan but pro is billed
      from the org list, as only pro and org rows reach it. */
  function Price(plan: Plan, index: PriceIndex): (p: int)
    ensures plan == Pro ==> p in ProPrices
    ensures plan != Pro ==> p in OrgPrices
  {
    if plan == Pro then ProPrices[index] else OrgPrices[index]
  }

  /** One row of the table for paying customer `c`. */
  function SubscriptionFor(c: Customer, d: SubscriptionDraw): (s: Subscription)
    ensures s.customerId == c.customerId
    ensures s.startDate == FloorDays(c.createdAt)
    ensures s.status == Canceled <==> s.endDate.Some?
    ensures s.status == Canceled <==> d.churned
    ensures s.endDate.Some? ==> s.endDate.value >= s.startDate + MinTenureDays
    ensures c.plan == Pro ==> s.mrr in ProPrices
    ensures c.plan == Org ==> s.mrr in OrgPrices
  {
    var start := FloorDays(c.createdAt);
    Subscription(RandId("sub", d.token), c.customerId, start, EndDate(start, d), StatusFor(d), Price(c.plan, d.price))
  }

  /** The table `generate_subscriptions` returns, one draw per paying customer. */
  function Subscriptions(cs: seq<Customer>, draws: seq<SubscriptionDraw>): (subs: seq<Subscription>)
    requires |draws| == |PayingCustomers(cs)|
    ensures |subs| == |PayingCustomers(cs)|
  {
    SubscriptionRows(PayingCustomers(cs), draws)
  }

  /** One row per selected customer, in order, each with its own draw. */
  function SubscriptionRows(ps: seq<Customer>, draws: seq<SubscriptionDraw>): (subs: seq<Subscription>)
    requires |draws| == |ps|
    ensures |subs| == |ps|
  {
    seq(|ps|, i requires 0 <= i < |ps| => SubscriptionFor(ps[i], draws[i]))
  }

  /** Row `i` of the table belongs to the `i`-th paying customer. */
  lemma SubscriptionRow(cs: seq<Customer>, draws: seq<SubscriptionDraw>, i: nat)
    requires |draws| == |PayingCustomers(cs)| && i < |draws|
    ensures |Subscriptions(cs, draws)| == |PayingCustomers(cs)|
    ensures Subscriptions(cs, draws)[i] == SubscriptionFor(PayingCustomers(cs)[i], draws[i])
  {
  }

  /** Exactly one row per pro or org customer, in input order, none for a free
      customer; each row copies the customer's id and takes its creation date. */
  lemma SubscriptionsTable(cs: seq<Customer>, draws: seq<SubscriptionDraw>)
    requires |draws| == |PayingCustomers(cs)|
    ensures |Subscriptions(cs, draws)| == |PayingIndices(cs)|
    ensures forall j :: 0 <= j < |PayingIndices(cs)| ==>
      Subscriptions(cs, draws)[j].customerId == cs[PayingIndices(cs)[j]].customerId &&
      Subscriptions(cs, draws)[j].startDate == FloorDays(cs[PayingIndices(cs)[j]].createdAt)
    ensures forall i :: 0 <= i < |cs| ==> (IsPaying(cs[i]) <==> i in PayingIndices(cs))
    ensures forall j, k :: 0 <= j < k < |PayingIndices(cs)| ==> PayingIndices(cs)[j] < PayingIndices(cs)[k]
  {
    PayingIndicesComplete(cs);
    PayingIndicesIncreasing(cs);
  }

  /** `generate_subscriptions`: select the pro and org rows, then build their
      subscription rows. */
  method GenerateSubscriptions(customers: seq<Customer>, draws: seq<SubscriptionDraw>)
    returns (subs: seq<Subscription>)
    requires |draws| == |PayingCustomers(customers)|
    ensures subs == Subscriptions(customers, draws)
  {
    var paying := PayingCustomers(customers);
    subs := BuildSubscriptionRows(paying, draws);
  }

  /** The body of `generate_subscriptions` after the selection: the start-date
      column, one pass that appends to the end-date, status and price columns,
      then the rows assembled from the columns. */
  method BuildSubscriptionRows(paying: seq<Customer>, draws: seq<SubscriptionDraw>)
    returns (subs: seq<Subscription>)
    requires |draws| == |paying|
    ensures subs == SubscriptionRows(paying, draws)
  {
    var n := |paying|;
    var startDates := seq(n, i requires 0 <= i < n => FloorDays(paying[i].createdAt));
    var endDates: seq<Option<int>> := [];
    var statuses: seq<Status> := [];
    var mrr: seq<int> := [];
    for i := 0 to n
      invariant |endDates| == |statuses| == |mrr| == i
      invariant forall k :: 0 <= k < i ==> endDates[k] == EndDate(startDates[k], draws[k])
      invariant forall k :: 0 <= k < i ==> statuses[k] == StatusFor(draws[k])
      invariant forall k :: 0 <= k < i ==> mrr[k] == Price(paying[k].plan, draws[k].price)
    {
      if draws[i].churned {
        var churnAfterDays := draws[i].tenureDays + MinTenureDays;
        endDates := endDates + [Some(startDates[i] + churnAfterDays)];
        statuses := statuses + [Canceled];
      } else {
        endDates := endDates + [None];
        statuses := statuses + [Active];
      }
      if paying[i].plan == Pro {
        mrr := mrr + [ProPrices[draws[i].price]];
      } else {
        mrr := mrr + [OrgPrices[draws[i].price]];
      }
    }
    subs := seq(n, i requires 0 <= i < n =>
      Subscription(RandId("sub", draws[i].token), paying[i].customerId, startDates[i], endDates[i], statuses[i], mrr[i]));
    assert forall i :: 0 <= i < n ==> subs[i] == SubscriptionFor(paying[i], draws[i]);
  }
}
