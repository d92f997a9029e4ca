/** The customer table (`generate_customers`): one row per requested customer,
    each created a whole number of days before the generator's clock reading. */
module CustomerGenerator {
  import opened Common

  datatype Plan = Free | Pro | Org

  datatype Customer = Customer(customerId: string, email: string, createdAt: int, plan: Plan)

  /** The random draws behind one customer row: the exponential age in whole
      days (already truncated to an integer), the plan choice and the id token. */
  datatype CustomerDraw = CustomerDraw(ageDays: nat, plan: Plan, token: IdToken)

  const EmailPrefix: string := "user"
  const EmailDomain: string := "@example.com"

  /** The placeholder address `user{i}@example.com` of row `i`. */
  function Email(i: nat): (e: string)
    ensures |e| == |EmailPrefix| + |Decimal(i)| + |EmailDomain|
    ensures e[..|EmailPrefix|] == EmailPrefix
    ensures e[|e| - |EmailDomain|..] == EmailDomain
  {
    EmailPrefix + Decimal(i) + EmailDomain
  }

  /** Rows get distinct addresses, unlike their ids. */
  lemma EmailInjective(i: nat, j: nat)
    requires Email(i) == Email(j)
    ensures i == j
  {
    var ei, ej := Email(i), Email(j);
    assert ei[|EmailPrefix|..|ei| - |EmailDomain|] == Decimal(i);
    assert ej[|EmailPrefix|..|ej| - |EmailDomain|] == Decimal(j);
    DecimalInjective(i, j);
  }

  /** `generate_customers(n)` read at clock `now`, with one draw per row. */
  function GenerateCustomers(n: nat, now: int, draws: seq<CustomerDraw>): (cs: seq<Customer>)
    requires |draws| == n
    ensures |cs| == n
    ensures forall i :: 0 <= i < n ==>
      cs[i].email == Email(i) && cs[i].plan == draws[i].plan &&
      cs[i].createdAt <= now && now - cs[i].createdAt == draws[i].ageDays * MicrosPerDay
    ensures forall i :: 0 <= i < n ==>
      |cs[i].customerId| == 16 && cs[i].customerId[..4] == "cus_"
  {
    seq(n, i requires 0 <= i < n =>
      Customer(RandId("cus", draws[i].token), Email(i), now - draws[i].ageDays * MicrosPerDay, draws[i].plan))
  }

  /** No two generated customers share an email address. */
  lemma {:induction false} CustomerEmailsDistinct(n: nat, now: int, draws: seq<CustomerDraw>, i: nat, j: nat)
    requires |draws| == n && i < n && j < n && i != j
    ensures GenerateCustomers(n, now, draws)[i].email != GenerateCustomers(n, now, draws)[j].email
  {
    if GenerateCustomers(n, now, draws)[i].email == GenerateCustomers(n, now, draws)[j].email {
      EmailInjective(i, j);
    }
  }
}
