# Synthetic SaaS data generator, modelled in Dafny

The generator (`etl/generate_data.py`) builds four tables for an analytics
platform: customers, their subscriptions, the payments of paying customers, and
product events. Every table is a deterministic function of a few clock readings
and a stream of random draws. In this model the draws are explicit inputs:

- customer ages in whole days, plan choices and id tokens (`CustomerDraw`);
- churn bits, tenures, price picks and id tokens (`SubscriptionDraw`);
- the 0 to 2 day payment jitter and payment id tokens, indexed by merged row
  and billing cycle (`PaymentDraw`);
- per-customer event counts, and second offsets, list picks and id tokens,
  indexed by customer and event (`EventDraw`).

Time is UTC, in integer microseconds since the epoch. Calendar dates
(`start_date`, `end_date`) are day numbers. Each DataFrame is a `seq` of
records.

Modules:

- `Common`: day arithmetic, Python's truncating `int(a / b)`, the opaque
  `<prefix>_<token>` identifiers, and decimal rendering of row numbers.
- `CustomerGenerator`: `generate_customers`.
- `SubscriptionGenerator`: the pro/org selection and `generate_subscriptions`.
  The column loop is a method proved equal to a row-by-row specification.
- `PaymentGenerator`: the left merge with the subscription table, the cycle
  count, and `generate_payments`. The nested loop is two methods: the outer
  one walks the merged rows and the inner one (`AppendCycles`) walks the
  billing cycles up to the `break`.
- `EventGenerator`: `generate_events`, a nested loop over customers and their
  drawn number of events.
- `Pipeline`: properties of the tables taken together, as `main` chains them.

## Model

| member | source | states |
|---|---|---|
| Common.FloorDays | etl/generate_data.py:95 | the whole days of a span (and the date of a timestamp) are rounded down: `d` days fit in the span and `d + 1` do not |
| Common.Midnight | etl/generate_data.py:84 | a date read as a timestamp is the midnight that starts that day: its date is the day itself and the instant before it lies on the previous day |
| Common.TruncDiv | etl/generate_data.py:95 | `int(a / b)` for a positive divisor: the quotient rounded toward zero (no contract of its own; `CycleCount` states what its use at this line yields) |
| Common.Max | etl/generate_data.py:95 | `max(a, b)`: at least both arguments and equal to one of them |
| Common.RandId | etl/generate_data.py:14-15 | an id is the prefix, an underscore and the 12-character token, in that order, 13 characters longer than the prefix |
| Common.Decimal | etl/generate_data.py:23 | a row number renders as at least one decimal digit, more than one exactly when it is 10 or more |
| Common.DecimalRoundTrip | etl/generate_data.py:23 | reading back the rendered digits gives the row number |
| Common.DecimalInjective | etl/generate_data.py:23 | distinct row numbers render differently |
| CustomerGenerator.Email | etl/generate_data.py:23 | the address is `user`, the row number and `@example.com` |
| CustomerGenerator.EmailInjective | etl/generate_data.py:23 | two rows with the same address have the same row number |
| CustomerGenerator.GenerateCustomers | etl/generate_data.py:18-31 | exactly `n` rows; row `i` has email `user{i}@example.com`, the drawn plan, a `cus_` id of 16 characters, and was created the drawn whole number of days before `now`, so never after it |
| CustomerGenerator.CustomerEmailsDistinct | etl/generate_data.py:23 | no two customer rows share an email, although their ids may coincide |
| SubscriptionGenerator.PayingIndices | etl/generate_data.py:35 | every selected position is in range and holds a pro or org customer |
| SubscriptionGenerator.PayingCustomers | etl/generate_data.py:35 | the selection is no longer than the table and holds only pro and org customers taken from it |
| SubscriptionGenerator.PayingIndicesIncreasing | etl/generate_data.py:35 | the selected positions strictly increase: input order is kept and no row is taken twice |
| SubscriptionGenerator.PayingIndicesComplete | etl/generate_data.py:35 | a position is selected exactly when its customer is on the pro or org plan |
| SubscriptionGenerator.EndDate | etl/generate_data.py:45-53 | an end date exists exactly when the churn bit is set, and then lies at least seven days after the start |
| SubscriptionGenerator.StatusFor | etl/generate_data.py:45-53 | the status is canceled exactly when the churn bit is set |
| SubscriptionGenerator.Price | etl/generate_data.py:56-59 | a pro row's price comes from 12, 15, 20; any other row's from 45, 60, 90 |
| SubscriptionGenerator.SubscriptionFor | etl/generate_data.py:39-59 | the row copies the customer id and starts on the date of `created_at`; it is canceled exactly when it has an end date and exactly when the churn bit is set; the end date is at least seven days after the start; a pro row is priced 12, 15 or 20 and an org row 45, 60 or 90 |
| SubscriptionGenerator.SubscriptionRows | etl/generate_data.py:41-70 | one row per selected customer, built with its own draw |
| SubscriptionGenerator.Subscriptions | etl/generate_data.py:34-70 | the table `generate_subscriptions` returns: one row per pro or org customer |
| SubscriptionGenerator.SubscriptionsTable | etl/generate_data.py:35-66 | one row per pro or org customer, in input order, none for a free customer; row `j` copies the id and creation date of the `j`-th selected customer |
| SubscriptionGenerator.GenerateSubscriptions | etl/generate_data.py:34-70 | the method returns the specified table: one `SubscriptionFor` row per selected customer with its own draw |
| SubscriptionGenerator.BuildSubscriptionRows | etl/generate_data.py:36-70 | building the start-date column, appending to the end-date, status and price columns in one pass and then zipping the columns gives one `SubscriptionFor` row per customer, in order |
| PaymentGenerator.Matches | etl/generate_data.py:76 | the merge partners of an id are exactly the subscriptions carrying that id |
| PaymentGenerator.JoinOne | etl/generate_data.py:76 | a paying customer's merged rows: one per matching subscription, in table order, or one row without a subscription; never none |
| PaymentGenerator.LeftJoin | etl/generate_data.py:76 | the left merge: each paying customer's merged rows, in customer order (its properties are the `LeftJoin…` lemmas) |
| PaymentGenerator.LeftJoinRows | etl/generate_data.py:76 | the left merge drops no customer row; every merged row pairs a paying customer with a subscription of the same id, or with none when no subscription has that id |
| PaymentGenerator.JoinedRow | etl/generate_data.py:76 | the same facts for the merged row at a given position |
| PaymentGenerator.LeftJoinCovers | etl/generate_data.py:76 | every paying customer has a merged row |
| PaymentGenerator.LeftJoinComplete | etl/generate_data.py:76 | every pair of a paying customer and a subscription with the same id is a merged row, so a repeated id multiplies rows |
| PaymentGenerator.LeftJoinOwn | etl/generate_data.py:76 | when the paying customers' ids are pairwise distinct and the subscription table is built from them row by row, the merge pairs each customer with its own subscription and keeps one row per customer |
| PaymentGenerator.WindowEnd | etl/generate_data.py:84 | the end of the billing window: midnight of a merged end date, `now` when there is none (a definition; `CanceledPaymentsBeforeEnd` and `CycleCount` state what follows from it) |
| PaymentGenerator.CycleCount | etl/generate_data.py:95 | the cycle count is at least 1; it is 1 exactly when the window is shorter than 60 days; otherwise it is the number of whole 30-day periods in the window |
| PaymentGenerator.PaidAt | etl/generate_data.py:99 | cycle `k` is stamped `30k` days plus the jitter after the creation time (a definition; `CustomerPaymentsSchedule` states the ordering and bounds) |
| PaymentGenerator.Amount | etl/generate_data.py:107 | a payment carries the merged price, or none when no subscription matched (a definition; `Pipeline.PaymentRowsTraceToCustomers` states where the price comes from) |
| PaymentGenerator.PaymentRow | etl/generate_data.py:102-110 | the row appended for cycle `k`: a `pay_` id, the customer id, the cycle's stamp, the amount, `USD`, `paid` (a definition; `PaymentRowAt` and `CustomerPaymentsSchedule` state its properties) |
| PaymentGenerator.FirstLate | etl/generate_data.py:98-101 | the cycle where the loop breaks: every earlier cycle is stamped no later than `now`, and this one, unless the cycles ran out, is stamped after `now` |
| PaymentGenerator.CustomerPayments | etl/generate_data.py:95-111 | a merged row yields at most the cycle count of payments |
| PaymentGenerator.CustomerPaymentsSchedule | etl/generate_data.py:95-111 | payment `k` is stamped `30k` days plus the jitter after `created_at`, not before `created_at` and not after `now`; stamps strictly increase; every row carries the customer id, the merged price (none when no subscription matched), `USD` and `paid`; rows stop exactly at the first cycle stamped after `now` |
| PaymentGenerator.CycleEmitted | etl/generate_data.py:98-111 | a cycle stamped no later than `now` is emitted as the next row; the first cycle stamped after `now` ends the rows |
| PaymentGenerator.PaymentRowAt | etl/generate_data.py:99-109 | payment `k` is the row for cycle `k`, stamped between `created_at` and `now` |
| PaymentGenerator.AppendCycles | etl/generate_data.py:83-111 | the inner loop, with its early `break`, appends exactly the merged row's specified payments to the rows so far |
| PaymentGenerator.PaymentGroups | etl/generate_data.py:81-111 | one group of payments per merged row, in merge order |
| PaymentGenerator.PaymentsTable | etl/generate_data.py:78-111 | the rows appended for the first `n` merged rows, group after group (properties in `PaymentsTableOrigin` and `PaymentsTableContains`) |
| PaymentGenerator.Payments | etl/generate_data.py:73-113 | the table `generate_payments` returns: the payments of the merged paying customers (properties in the `Pipeline` lemmas) |
| PaymentGenerator.GeneratePayments | etl/generate_data.py:73-113 | the method returns the specified table: each merged row's payments, grouped in merge order |
| PaymentGenerator.CanceledPaymentsBeforeEnd | etl/generate_data.py:82-99 | for a canceled subscription of at least seven days starting on the creation date, every payment is stamped before midnight of the end date |
| PaymentGenerator.PaymentsTableOrigin | etl/generate_data.py:81-111 | every row of the table is payment `k` of some merged row `i` |
| PaymentGenerator.PaymentsTableContains | etl/generate_data.py:81-111 | every payment of a merged row is in the table |
| PaymentGenerator.FirstCycleOnTime | etl/generate_data.py:98-101 | a customer created at least two days before `now` gets a first payment within two days of creation |
| PaymentGenerator.FirstCycleCanBeLate | etl/generate_data.py:98-101 | a paying customer created at `now` with a jitter of one day gets no payment at all |
| EventGenerator.EventRow | etl/generate_data.py:131-139 | an event carries the customer's id and a name, page and device from the fixed lists |
| EventGenerator.CustomerEvents | etl/generate_data.py:128-140 | a customer gets exactly its drawn number of events |
| EventGenerator.EventsTable | etl/generate_data.py:125-140 | the events of the first `n` customers, customer after customer (properties in `EventsLayout` and `EventsInWindow`) |
| EventGenerator.Events | etl/generate_data.py:116-142 | the table `generate_events` returns, with the window starting `days` days before `now` (properties in `EventsLayout` and `EventsInWindow`) |
| EventGenerator.GenerateEvents | etl/generate_data.py:116-142 | the nested loop returns the specified table: each customer's drawn number of events, in customer order |
| EventGenerator.EventsInWindow | etl/generate_data.py:121-138 | every event is stamped in `[now - days, now)` because the offset excludes its upper bound, and its name, page and device come from the fixed lists |
| EventGenerator.EventsLayout | etl/generate_data.py:125-140 | the table has the total drawn count of rows; customer `i`'s `e`-th event sits right after the events of the customers before it, built from its own draw |
| Pipeline.PaymentRowsTraceToCustomers | etl/generate_data.py:73-113 | every payment belongs to a pro or org customer, is stamped between that customer's creation and the payment clock, is in USD and paid, and carries the price of a subscription with the customer's id, or no price when none has it |
| Pipeline.CanceledPaymentsBeforeEndDate | etl/generate_data.py:45-101 | with pairwise distinct paying-customer ids, every payment of a customer whose subscription was canceled is stamped before midnight of the end date |
| Pipeline.EstablishedCustomersArePaid | etl/generate_data.py:79-101 | with the payment clock read no earlier than the customer clock, a pro or org customer created at least two days before the customer clock has a payment |

## Left out

- Writing the CSV files and the console summary in `main` (etl/generate_data.py:145-162): file I/O. The four generators are modelled one by one; `Pipeline` states how their tables relate.
- The numpy distributions and their weights (exponential ages and tenures, plan and price weights, the Poisson rate, `randint`, list picks): each draw is an input. Only their ranges are kept: ages and tenures are whole days, jitter is 0 to 2, picks index their lists, and event offsets are below the window length.
- `uuid.uuid4().hex[:12]`: a token is any 12-character string. Nothing constrains it to hex digits, and ids are not claimed unique.
- Timezone localisation and conversion (etl/generate_data.py:86-93): every time is a UTC integer.
- `float(...)` on prices and amounts: prices are integers; a missing price (pandas NaN) is `None`.
- Errors the libraries raise: a negative `n` makes `np.random.choice(..., size=n)` fail (etl/generate_data.py:21), and a negative `days` gives `np.random.poisson` a negative rate, which fails as soon as the customer table is not empty (etl/generate_data.py:128). `n` and `days` are natural numbers here. With `days` equal to 0 the rate is 0, so no event is drawn and `randint(0, 0)` (etl/generate_data.py:130) is never reached; `GenerateEvents` requires every drawn offset to lie below the window length, which then allows no event either.
- Datetime range limits (`OverflowError` far from the epoch): integers are unbounded.
- `run_all.py`, `etl/load_to_postgres.py` and `orchestration/dagster_pipeline.py`: process, database and orchestration plumbing.
- Pipeline.CanceledPaymentsBeforeEndDate: assumes pairwise distinct paying-customer ids. Ids are random tokens, and with a repeated id the merge pairs a customer with another customer's subscription too (`LeftJoinComplete`), whose end date need not bound that customer's payments.
- PaymentGenerator.CustomerPayments: states at most the cycle count of payments, not at least one. The loop breaks before its first append when the first jittered cycle falls after `now`; `FirstCycleCanBeLate` shows such an input. One might expect every paying customer to have a payment; the code does not guarantee it, and the model follows the code.
