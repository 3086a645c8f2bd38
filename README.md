# CR Dental Studio back office — a Dafny model

This project models the business core of a dental clinic's back-office
application. The clinic sells treatments, and a patient may pay for one in
installments through a payment plan. It buys supplies from suppliers and keeps
an inventory of them. It records expenses, draws up a profit-and-loss (P&G)
statement, and keeps users and an audit trail. Integrations with outside
services can be put through a connection test, and each test is logged.

The model covers these parts:

- **Database** (`Schema`): the tables as sequences of rows in one class `Db`.
  Row ids come from one counter. `Valid` states what the database keeps true:
  ids unique and ascending; unique patient documents and user emails; at most
  one payment plan per sale (`UniqueSaleLinks`); and these references point at
  existing rows: a sale's and a plan's patient, a plan's sale, an
  installment's plan, a sale item's sale and supply, a movement's supply, a
  purchase's supplier, a purchase item's purchase and supply, and an
  integration log's integration.
- **Payment plans**:
  - `Schedule`: due dates, either weekly, fortnightly, or monthly with the
    `Date` month roll-over.
  - `Plans`: plan creation.
  - `Payments`: registering an installment payment.
  - `Receivables`: the overdue sweep and the accounts-receivable figures.
  - `PlanQueries`: the plan listings and pending installments.
  - The ledger invariant ties each plan's paid and remaining amounts to its
    installments.
- **Services**, each a method over `Db` proved equal to a function of the
  tables, with lemmas about that function:
  - `Sales`: sales with stock consumption and an optional embedded plan;
  - `Purchases`: purchases with stock intake;
  - `Patients`: patients;
  - `Users`: users and the audit log;
  - `Expenses`: expenses;
  - `Pyg`: the P&G arithmetic;
  - `Integrations`: integrations.
- **Permissions** (`Permissions`): the role table with `hasPermission` and `canAccess`.
- **Treatments** (`Treatments`): the treatment catalogue, its sorted
  categories, the lookups, and the demo price list.
- **Table components** (`InventoryTable`, `ExpensesTable`, `PurchasesTable`,
  `PaymentPlansTable`): the inventory status labels, the expense and payment
  plan status badges, the per-column filters (`ColumnFilter`), and the CSV and
  spreadsheet exports (`Csv`, `DateFormat`).
- **Assistant chat endpoint** (`Chat`): an ordered keyword classifier over
  canned answers, and the empty-message check.
- **Login redirect middleware** (`Proxy`).

`Calendar`, `Text`, `Seqs` and `Common` hold the shared arithmetic, the text
and sequence functions, and the results. Time is an integer count of
milliseconds in one fixed zone. Money is an integer number of pesos.

## Model

| member | source | states |
|---|---|---|
| Schedule.EffectiveFrequency | lib/services/payment-plans.service.ts:60 | a missing or empty frequency becomes "mensual"; any other is kept as given |
| Schedule.DueDateFields | lib/services/payment-plans.service.ts:32-49 | every due date keeps the start's time of day; "semanal" lands exactly 7·n days on and "quincenal" exactly 15·n days on |
| Schedule.UnknownFrequencyIsMonthly | lib/services/payment-plans.service.ts:42-45 | every frequency other than "semanal" and "quincenal" falls through to the monthly case: n calendar months on |
| Schedule.MonthlySameDay | lib/services/payment-plans.service.ts:44 | a monthly due date is n months on and, for a start day of month up to 28, on the same day of the month |
| Schedule.DueDateZero | lib/services/payment-plans.service.ts:32-49 | installment 0 would fall due on the start itself, whatever the frequency |
| Schedule.DueDateStep | lib/services/payment-plans.service.ts:32-49 | consecutive due dates are between 7 and 31 days apart |
| Schedule.DueDateIncreasing | lib/services/payment-plans.service.ts:32-49 | a later installment number always falls due strictly later |
| Plans.InstallmentAmount | lib/services/payment-plans.service.ts:56-57 | the installment amount is the financed amount over n rounded to the nearest integer, halves upward (Math.round), as a two-sided bound |
| Plans.ResidualBound | lib/services/payment-plans.service.ts:56-57 | what n rounded installments leave owing lies within half an installment count of zero, either side |
| Plans.ExactResidual | lib/services/payment-plans.service.ts:56-57 | when n divides the financed amount the installments repay it exactly |
| Plans.NegativeResidualExample | lib/services/payment-plans.service.ts:57 | 1000 over 6 installments rounds to 167 each, so the plan is overpaid by 2 |
| Plans.NewPlan | lib/services/payment-plans.service.ts:67-84 | the new plan row is active, pays the down payment, owes the rest (paid + remaining = total), has the rounded installment amount, the effective frequency and installment 1's due date as next due date |
| Plans.InstallmentRows | lib/services/payment-plans.service.ts:87-99 | the installment rows are exactly n, row k being installment k+1 with the k-th id after the first |
| Plans.NewRowsShape | lib/services/payment-plans.service.ts:90-97 | the new rows are numbered 1..n, all pending, unpaid, for the plan's amount and belonging to the plan, with consecutive ids |
| Plans.NewRowsOrdered | lib/services/payment-plans.service.ts:63-88 | each new row k is due at the schedule's date for k, strictly after the previous row, and row 1 is due on the plan's next due date |
| Plans.NewRowsTotal | lib/services/payment-plans.service.ts:94 | the new rows together are worth n times the installment amount |
| Plans.OpenPaidSplit | lib/services/payment-plans.service.ts:149 | every installment of a plan is either open (pending or overdue) or paid |
| Plans.CompletedRemainder | lib/services/payment-plans.service.ts:137-168 | a completed plan has been paid the down payment plus n installments, and still shows as owed exactly the rounding residual |
| Plans.CompletedExact | lib/services/payment-plans.service.ts:160-168 | when n divides the financed amount a completed plan owes nothing and has been paid its total |
| Plans.NewPlanLedger | lib/services/payment-plans.service.ts:54-102 | a freshly created plan and its rows satisfy the ledger invariant |
| Plans.LedgerAppendOthers | lib/services/payment-plans.service.ts:90-98 | rows of other plans leave a plan's ledger as it was |
| Plans.PlanRowError | lib/services/payment-plans.service.ts:67-84 | the database refuses the plan row exactly when its patient or sale is missing or the sale already has a plan |
| Plans.WithPlan | lib/services/payment-plans.service.ts:65-102 | creation appends exactly the plan row and its n installment rows and advances the id counter past them, changing no other table |
| Plans.CreatePaymentPlan | lib/services/payment-plans.service.ts:54-102 | on success the database becomes WithPlan and stays valid and ledger-consistent; a refused plan row leaves every table unchanged |
| Plans.RecordPlanRows | lib/services/payment-plans.service.ts:67-99 | the plan row and its installment rows are written exactly as WithPlanRows says |
| Plans.InsertInstallments | lib/services/payment-plans.service.ts:87-99 | the loop appends installments 1..n in order, each taking the next id |
| Plans.CreatePlanValid | lib/services/payment-plans.service.ts:54-102 | an accepted creation keeps the database valid |
| Plans.CreatePlanIds | lib/services/payment-plans.service.ts:67-90 | the plan and its installments take fresh ids from the counter |
| Plans.CreatePlanReferences | lib/services/payment-plans.service.ts:69-92 | the new plan names an existing patient and sale, its installments the new plan |
| Plans.CreatePlanLinks | lib/services/payment-plans.service.ts:71 | a sale never gets a second plan |
| Plans.CreatePlanLedger | lib/services/payment-plans.service.ts:54-102 | creating a plan keeps the ledger of every plan, old and new |
| Plans.CreatePlanCommit | lib/services/payment-plans.service.ts:65-102 | the committed creation keeps validity and every ledger |
| Payments.EarliestOpen | lib/services/payment-plans.service.ts:146-152 | finds an open installment of the plan with no earlier open due date, or none exactly when the plan has no open installment |
| Payments.PayFailsIff | lib/services/payment-plans.service.ts:116-122 | a payment fails with "Cuota no encontrada" exactly for an unknown id and with "Esta cuota ya fue pagada" exactly for a paid installment; otherwise it succeeds |
| Payments.PayTwice | lib/services/payment-plans.service.ts:120-122 | paying the same installment a second time fails with "Esta cuota ya fue pagada" |
| Payments.PayInstallmentEffect | lib/services/payment-plans.service.ts:125-134 | only the paid row changes: it becomes paid with its own amount, the method, the payment moment and the notes when given, keeping id, plan, number, amount and due date |
| Payments.PayPlanEffect | lib/services/payment-plans.service.ts:137-143 | the owning plan's paid amount rises and its remaining amount falls by the installment's amount, their sum unchanged; other plans are untouched |
| Payments.PayAdvance | lib/services/payment-plans.service.ts:145-177 | with open installments left the plan's next due date is the earliest of them; with none it is completed at the payment moment and its sale, if any, becomes "completada"; no other sale changes |
| Payments.PaidIsFinal | lib/services/payment-plans.service.ts:120-122 | a payment never alters an installment that was already paid |
| Payments.PayKeepsIntegrity | lib/services/payment-plans.service.ts:108-181 | a payment keeps ids and references of the payment tables intact |
| Payments.LedgerOtherPlan | lib/services/payment-plans.service.ts:125-134 | rewriting an installment of another plan keeps a plan's ledger |
| Payments.PayCounts | lib/services/payment-plans.service.ts:125-134 | paying moves one installment of the plan from open to paid |
| Payments.AdvanceStatus | lib/services/payment-plans.service.ts:155-168 | an active plan is completed exactly when none of its installments is open, and otherwise points at the earliest open one |
| Payments.PaidRowsRecorded | lib/services/payment-plans.service.ts:127-133 | after the payment every row of the plan keeps its amount and consistent payment fields |
| Payments.SettledMoney | lib/services/payment-plans.service.ts:140 | one more settled installment keeps paid = down payment + installments paid |
| Payments.LedgerOwnPlan | lib/services/payment-plans.service.ts:125-168 | the paying plan keeps its ledger once settled and advanced |
| Payments.PayKeepsLedger | lib/services/payment-plans.service.ts:108-181 | a successful payment keeps the ledger of every plan |
| Payments.PaySameShape | lib/services/payment-plans.service.ts:108-181 | a payment changes no key or reference column |
| Payments.StagePayment | lib/services/payment-plans.service.ts:111-177 | the staged steps compute exactly Pay |
| Payments.RegisterInstallmentPayment | lib/services/payment-plans.service.ts:108-181 | the database's payment tables become those of Pay and its returned row is Pay's; on error nothing changes; validity and ledgers are kept |
| Payments.PayCommit | lib/services/payment-plans.service.ts:108-181 | committing a payment keeps validity and every ledger |
| PlanQueries.ViewOf | lib/services/payment-plans.service.ts:207-213 | a listed plan carries its patient and sale exactly when they exist, and exactly its own installments, by installment number |
| PlanQueries.Views | lib/services/payment-plans.service.ts:205-215 | each plan of the list, in order, with its related rows |
| PlanQueries.GetPaymentPlans | lib/services/payment-plans.service.ts:186-216 | exactly the plans matching status, patient and "has an overdue installment" when given, each as often as stored, newest first, with their related rows |
| PlanQueries.GetPaymentPlanById | lib/services/payment-plans.service.ts:221-232 | the plan with that id and its related rows, or nothing exactly when no plan has the id |
| PlanQueries.GetPendingInstallments | lib/services/payment-plans.service.ts:314-322 | exactly the plan's pending and overdue installments, earliest due first |
| PlanQueries.PendingHead | lib/services/payment-plans.service.ts:314-322 | the pending list is empty exactly when no installment is open, and otherwise starts at the earliest open due date, the one a payment advances to |
| PlanQueries.PendingMatchesPlan | lib/services/payment-plans.service.ts:146-168 | with consistent ledgers an active plan's next due date heads its pending list and a completed plan's pending list is empty |
| Receivables.Swept | lib/services/payment-plans.service.ts:241-249 | exactly the pending rows due before the day's midnight become overdue, and nothing else about any row changes |
| Receivables.UpdateOverdueInstallments | lib/services/payment-plans.service.ts:237-250 | the installments table becomes Swept at the midnight starting today, the count is the number of lapsed rows, and validity and ledgers are kept |
| Receivables.SweepRows | lib/services/payment-plans.service.ts:241-249 | the row pass computes Swept and counts the lapsed rows |
| Receivables.SweepIdempotent | lib/services/payment-plans.service.ts:237-250 | a second sweep on the same day changes nothing |
| Receivables.SweepKeepsLedger | lib/services/payment-plans.service.ts:241-249 | the sweep keeps every plan's ledger |
| Receivables.SweepSameShape | lib/services/payment-plans.service.ts:241-249 | the sweep touches no key or reference column |
| Receivables.SweepCommit | lib/services/payment-plans.service.ts:237-250 | the committed sweep keeps validity and every ledger |
| Receivables.ReceivableKpis | lib/services/payment-plans.service.ts:255-309 | total receivable is the remaining sum over active plans; the overdue figures count and sum overdue rows; due this week counts and sums pending rows due from now to a week on, both ends included; active plans are counted |
| Receivables.SweepKpis | lib/services/payment-plans.service.ts:237-309 | after a sweep that ran no later than the moment the figures are taken, the overdue figures grow by exactly the lapsed rows and no other figure moves |
| Receivables.PayKpis | lib/services/payment-plans.service.ts:255-309 | with consistent ledgers a payment takes the paid row out of the overdue or due-this-week figures that counted it and lowers the receivable by its amount, or, when it completes the plan, by all the plan still owed while the active count drops by one |
| Sales.SaleReason | lib/services/ventas.service.ts:64 | the movement reason is "Venta: " followed by the treatment, which can be read back after the prefix |
| Sales.LinkRows | lib/services/ventas.service.ts:40-46 | one link row per used item, in order, naming the sale, the supply and the quantity, ids two apart |
| Sales.OutMovements | lib/services/ventas.service.ts:59-68 | one "salida" movement per used item, in order, with the item's supply and quantity, the sale's reason, id and date |
| Sales.Withdrawals | lib/services/ventas.service.ts:49-56 | each used item takes its quantity out of its supply |
| Sales.SaleError | lib/services/ventas.service.ts:22-70 | the database refuses the sale exactly when its patient or one of its supplies does not exist |
| Sales.CreateSale | lib/services/ventas.service.ts:22-135 | a refused sale leaves every table unchanged; otherwise the sale row, its item rows, stock decrements and movements, and the plan with its installments are written as AfterSale says; validity and every plan's ledger are kept |
| Sales.RecordSaleRows | lib/services/ventas.service.ts:25-70 | the sale row carries exactly the request's fields and the next id, and the tables become WithSaleRows |
| Sales.StageItemUses | lib/services/ventas.service.ts:38-69 | the loop over the used items computes ApplyUses |
| Sales.ApplyUsesEffect | lib/services/ventas.service.ts:38-69 | the loop appends exactly the link rows and movements of the items and applies each item's withdrawal in turn, using two ids per item |
| Sales.ApplyUsesCounter | lib/services/ventas.service.ts:40-59 | the loop uses two ids per item |
| Sales.ApplyUsesLinks | lib/services/ventas.service.ts:40-46 | the loop appends exactly the link rows of the items |
| Sales.ApplyUsesMovements | lib/services/ventas.service.ts:59-68 | the loop appends exactly the outgoing movements of the items |
| Sales.ApplyUsesStock | lib/services/ventas.service.ts:49-56 | the loop's stock updates are the withdrawals applied in order |
| Sales.SaleStockEffect | lib/services/ventas.service.ts:49-56 | each supply's stock falls by exactly the total quantity the sale used of it, with no lower bound, and nothing else about the inventory changes |
| Sales.Withdrawn | lib/services/ventas.service.ts:53 | the withdrawals net to minus the quantity used of each supply |
| Sales.SaleOnly | lib/services/ventas.service.ts:37-73 | with no items and no plan only the sale row is written |
| Sales.SalePlanTerms | lib/services/ventas.service.ts:73-114 | a financed sale's plan names the sale, its patient and treatment, totals the sale amount, counts the down payment as paid and owes the rest in rounded installments, monthly, active, with installment k due k calendar months after the sale date |
| Sales.SaleRowsCommit | lib/services/ventas.service.ts:23-70 | committing the sale rows keeps the database valid and every ledger, and adds only the sale to the payment tables |
| Sales.SaleRowsForm | lib/services/ventas.service.ts:38-69 | the sale writes the link rows and movements in closed form, keeps the supply ids and advances the counter by 1 + 2 per item |
| Sales.SaleRowsIds | lib/services/ventas.service.ts:25-59 | the new rows take fresh ids from the counter |
| Sales.SaleRowsReferences | lib/services/ventas.service.ts:40-68 | every link row names the new sale and an existing supply, every movement an existing supply |
| Sales.SalePlanAccepted | lib/services/ventas.service.ts:82-98 | the financed sale's plan row is never refused |
| Sales.GetSales | lib/services/ventas.service.ts:144-179 | exactly the sales matching patient and status when given and dated inside the inclusive range, each as often as stored, newest first |
| Sales.AllSales | lib/services/ventas.service.ts:144-179 | without filters every sale is listed |
| Stock.AdjustStockEffect | lib/services/ventas.service.ts:49-56 | an increment or decrement moves the stock of exactly the row with that id by exactly the delta and changes nothing else |
| Stock.AdjustStockKeys | lib/services/compras.service.ts:57-62 | an adjustment keeps every row's id |
| Stock.NetChangeAppend | lib/services/compras.service.ts:41-62 | one more change adds its amount to the row it names only |
| Stock.AdjustAllKeys | lib/services/compras.service.ts:41-62 | any sequence of adjustments keeps every row's id |
| Stock.AdjustAllEffect | lib/services/compras.service.ts:41-62 | each row's stock moves by exactly the sum of the changes naming it, and nothing else changes |
| Purchases.PurchaseTotal | lib/services/compras.service.ts:23-26 | the invoice total is 0 for no lines |
| Purchases.PurchaseTotalAppend | lib/services/compras.service.ts:23-26 | each further line adds its quantity times its unit price to the invoice total |
| Purchases.PurchaseReason | lib/services/compras.service.ts:70 | the movement reason is "Compra: " followed by the invoice number, which can be read back after the prefix |
| Purchases.NewPurchase | lib/services/compras.service.ts:29-38 | the purchase row's total is the sum of quantity times unit price over the lines |
| Purchases.PurchaseError | lib/services/compras.service.ts:20-91 | the database refuses the purchase exactly when its supplier or a supply one of its lines names does not exist |
| Purchases.CreatePurchase | lib/services/compras.service.ts:20-91 | a refused purchase leaves every table unchanged; otherwise the purchase row, item rows, stock increments and movements are written as WithPurchase says; validity is kept and the payment tables are untouched |
| Purchases.RecordPurchaseRows | lib/services/compras.service.ts:29-76 | the purchase row is NewPurchase with the next id and the tables become WithPurchase |
| Purchases.StoreRows | lib/services/compras.service.ts:29-76 | writes exactly the purchase row and the staged rows |
| Purchases.SumLines | lib/services/compras.service.ts:23-26 | the reduce computes the invoice total |
| Purchases.StageLines | lib/services/compras.service.ts:41-76 | the loop over the lines computes ApplyLines |
| Purchases.ApplyLinesItems | lib/services/compras.service.ts:43-53 | one item row per line, in order, naming the purchase, with the line's fields and total quantity times unit price |
| Purchases.PurchaseItemsTotal | lib/services/compras.service.ts:23-50 | the new item rows add up to the purchase total |
| Purchases.ApplyLinesStock | lib/services/compras.service.ts:56-62 | the loop's stock updates are the receipts applied in order |
| Purchases.ReceiptsNet | lib/services/compras.service.ts:56-62 | the receipts bring each supply the quantities of the lines naming it |
| Purchases.ReceiptsNamed | lib/services/compras.service.ts:56 | the receipts name only supplies the lines name |
| Purchases.PurchaseStockEffect | lib/services/compras.service.ts:41-62 | each supply's stock grows by exactly the quantities of the lines naming it; lines without a supply leave the inventory alone |
| Purchases.ApplyLinesMovements | lib/services/compras.service.ts:64-74 | one "entrada" movement per line bound to a supply, in order, with its supply and quantity, the purchase, the invoice reason and the purchase date |
| Purchases.ApplyLinesCounter | lib/services/compras.service.ts:43-65 | the counter moves past one id per line and one more per receipt |
| Purchases.EmptyPurchase | lib/services/compras.service.ts:23-41 | a purchase with no lines writes only its row, with total 0 |
| Purchases.LineStepSound | lib/services/compras.service.ts:43-75 | one line keeps the written rows issued and their references resolving |
| Purchases.ApplyLinesSound | lib/services/compras.service.ts:41-76 | the whole loop keeps the written rows issued and their references resolving |
| Purchases.PurchaseCommit | lib/services/compras.service.ts:20-91 | committing a purchase keeps the database valid |
| Purchases.GetPurchases | lib/services/compras.service.ts:100-135 | exactly the purchases matching supplier and category when given and dated inside the inclusive range, newest first |
| Purchases.GetSuppliers | lib/services/compras.service.ts:151-157 | every supplier, once each, by name ascending |
| Schema.FindBy | lib/services/clientes.service.ts:92-94 | finds a row holding the value in the unique column (a patient's document, a user's e-mail), or none exactly when no row holds it |
| Patients.FindByDocumentUnique | lib/services/clientes.service.ts:92-94 | with unique documents the lookup finds exactly the one patient holding it |
| Patients.PatientByDocument | lib/services/clientes.service.ts:224-228 | the patient holding the document, or nothing exactly when no patient holds it |
| Patients.PatientsOf | lib/services/clientes.service.ts:51-62 | the patients of a listing, in order |
| Patients.Summaries | lib/services/clientes.service.ts:53-60 | each listed patient with the number of their sales and payment plans |
| Patients.GetPatients | lib/services/clientes.service.ts:35-63 | exactly the patients whose full name, document, e-mail or phone contains the search case-insensitively and whose EPS matches when given, each as often as stored, newest first, with their sale and plan counts |
| Patients.SearchIgnoresCase | lib/services/clientes.service.ts:38-45 | searching for a text or its lower-case form keeps the same patients |
| Patients.AllPatients | lib/services/clientes.service.ts:35-63 | without filters every patient is listed |
| Patients.SearchFindsOwnFields | lib/services/clientes.service.ts:38-45 | a patient's own document, full name or phone always finds them |
| Patients.CreatePatient | lib/services/clientes.service.ts:90-112 | a document already held is refused with "Ya existe un paciente con el documento …" and nothing changes; otherwise the patient is stored with the next id; the database stays valid |
| Patients.StorePatients | lib/services/clientes.service.ts:100-111 | writes exactly the patients table and the counter |
| Patients.AppendKeepsDocumentsUnique | lib/services/clientes.service.ts:92-98 | a patient with a new document keeps documents unique |
| Patients.CreatePatientValid | lib/services/clientes.service.ts:90-112 | storing a patient with a new document keeps the database valid |
| Patients.CreateTwice | lib/services/clientes.service.ts:92-98 | after a registration the document is held, so registering it again is refused |
| Patients.Changed | lib/services/clientes.service.ts:129-132 | an update keeps the patient's id and creation date |
| Patients.ChangedIdempotent | lib/services/clientes.service.ts:129-132 | applying the same changes twice is applying them once |
| Patients.UpdateError | lib/services/clientes.service.ts:117-133 | an update goes through exactly when the id is known and no other patient holds the supplied document (the service checks non-empty documents, the unique column catches the rest) |
| Patients.UpdatePatient | lib/services/clientes.service.ts:117-133 | a refused update changes nothing; otherwise the supplied fields are written over the patient's; the database stays valid |
| Patients.UpdatePatientValid | lib/services/clientes.service.ts:117-133 | an accepted update keeps the database valid |
| Patients.UpdateKeepsDocumentsUnique | lib/services/clientes.service.ts:119-127 | changing to a document no other patient holds keeps documents unique |
| Patients.UpdateOwnDocument | lib/services/clientes.service.ts:119-127 | keeping one's own document, or supplying none, passes the document check |
| Patients.UpdateDuplicate | lib/services/clientes.service.ts:124-126 | a non-empty document held by another patient is refused with the service's message |
| Patients.DeleteError | lib/services/clientes.service.ts:138-164 | a delete goes through exactly when the patient exists and no sale and no payment plan names them |
| Patients.DeletePatient | lib/services/clientes.service.ts:138-164 | a refused delete changes nothing; otherwise exactly that patient is removed and the database stays valid |
| Patients.DeletePatientValid | lib/services/clientes.service.ts:155-163 | removing a patient nothing refers to keeps the database valid |
| Patients.RemoveKeepsKey | lib/services/clientes.service.ts:161-163 | removing one row keeps every other row's id |
| Patients.RemoveKeepsDocumentsUnique | lib/services/clientes.service.ts:161-163 | removing a patient keeps documents unique |
| Patients.DeleteRemoves | lib/services/clientes.service.ts:161-163 | a deleted patient's id is gone from the table |
| Patients.LatestDate | lib/services/clientes.service.ts:206-208 | the latest sale date is one of the sale dates and no sale is later; none exactly for no sales |
| Patients.InstallmentsOfMembers | lib/services/clientes.service.ts:195-197 | the flattened installments are exactly the stored installments of the patient's plans |
| Patients.StatsOf | lib/services/clientes.service.ts:186-218 | the patient's sale count; no more active plans than plans; a last visit exactly when there are sales, equal to one of their sale dates with no sale of theirs later |
| Patients.GetPatientStats | lib/services/clientes.service.ts:169-219 | an unknown patient fails with "Paciente no encontrado"; a known one gets StatsOf, whose figures StatsPlans and StatsOverdue state |
| Patients.LatestOfPatient | lib/services/clientes.service.ts:206-208 | the last visit is one of the patient's sale dates and none of their sales is later |
| Patients.NewPatientStats | lib/services/clientes.service.ts:186-218 | a patient without sales or plans has all-zero statistics and no last visit |
| Patients.StatsRevenue | lib/services/clientes.service.ts:188 | total revenue is the sum of the patient's sale amounts |
| Patients.StatsPlans | lib/services/clientes.service.ts:190-192 | active plans is the number of the patient's plans with status active; total owed is the sum of their remaining amounts |
| Patients.StatsOverdue | lib/services/clientes.service.ts:194-203 | given unique plan ids, the overdue count and amount are the count and sum over all stored installments that are overdue and belong to a plan of the patient: each once, none missed |
| Patients.OverdueGathered | lib/services/clientes.service.ts:194-197 | over plans with distinct ids, the overdue installments gathered plan by plan are counted and summed as the overdue installments of the listed plan ids |
| Users.HashAccepts | lib/services/usuarios.service.ts:72 | a digest accepts the password it was made from and no other |
| Users.Project | lib/services/usuarios.service.ts:26-35 | the returned view keeps the user's id and e-mail |
| Users.ProjectHidesPassword | lib/services/usuarios.service.ts:26-35 | the returned view does not depend on the password |
| Users.Projections | lib/services/usuarios.service.ts:24-37 | each user of a list, in order, projected |
| Users.GetUsers | lib/services/usuarios.service.ts:24-37 | every user once, projected without the password, newest first |
| Users.GetUserById | lib/services/usuarios.service.ts:43-56 | the projected user with that id, or nothing exactly when there is none |
| Users.NewUser | lib/services/usuarios.service.ts:72-81 | the stored user is active and holds the digest of the password, never the password itself |
| Users.CreateUser | lib/services/usuarios.service.ts:61-92 | a registered e-mail is refused with "Ya existe un usuario con el email …" and nothing changes; otherwise the user is stored and returned without the password; the database stays valid |
| Users.StoreUsers | lib/services/usuarios.service.ts:74-81 | writes exactly the users table and the counter |
| Users.CreateUserValid | lib/services/usuarios.service.ts:63-69 | storing a user with a new e-mail keeps the database valid |
| Users.Changed | lib/services/usuarios.service.ts:109-119 | an update keeps id and creation date, stamps the update time, and re-hashes the password exactly when a non-empty one is supplied |
| Users.ChangedPassword | lib/services/usuarios.service.ts:116-119 | after an update the account accepts the new password when one was supplied and still the old one otherwise |
| Users.UpdateError | lib/services/usuarios.service.ts:97-134 | an update goes through exactly when the id is known and no other user holds the supplied e-mail |
| Users.UpdateDuplicate | lib/services/usuarios.service.ts:104-106 | a non-empty e-mail held by another user is refused with the service's message |
| Users.UpdateUser | lib/services/usuarios.service.ts:97-134 | a refused update changes nothing; otherwise the changed user is stored and returned without the password; the database stays valid |
| Users.UpdateUserValid | lib/services/usuarios.service.ts:97-134 | an accepted update keeps the database valid |
| Users.UpdateKeepsEmailsUnique | lib/services/usuarios.service.ts:99-107 | changing to an e-mail no other user holds keeps e-mails unique |
| Users.DeleteUser | lib/services/usuarios.service.ts:139-143 | removes exactly the user with the id, or fails with Prisma's "Record to delete does not exist." and changes nothing |
| Users.DeleteUserValid | lib/services/usuarios.service.ts:139-143 | removing a user keeps the database valid |
| Users.RemoveKeepsEmailsUnique | lib/services/usuarios.service.ts:139-143 | removing a user keeps e-mails unique |
| Users.StoreAuditLogs | lib/services/usuarios.service.ts:155-157 | writes exactly the audit log and the counter |
| Users.LogAudit | lib/services/usuarios.service.ts:148-158 | appends exactly one entry with the next id, stamped now |
| Users.Take | lib/services/usuarios.service.ts:197 | an absent or zero limit means 100, any other limit is kept |
| Users.GetAuditLogs | lib/services/usuarios.service.ts:163-200 | only entries matching user, module and action when given and the inclusive date range, newest first, as many as match up to the limit, each a distinct stored entry (a sub-multiset of the matches), no omitted match newer than a listed one, and every match when they fit |
| Users.ZeroLimitIsDefault | lib/services/usuarios.service.ts:197 | a zero limit, no limit and a limit of 100 list the same entries |
| Expenses.NewExpense | lib/services/gastos.service.ts:16-26 | the new expense has the next id and the caller as author |
| Expenses.StoreExpenses | lib/services/gastos.service.ts:16 | writes exactly the expenses table and the counter |
| Expenses.CreateExpense | lib/services/gastos.service.ts:15-27 | appends exactly the new expense, with the given fields and the caller as author |
| Expenses.Changed | lib/services/gastos.service.ts:76-81 | an update keeps the expense's id and author |
| Expenses.UpdateExpense | lib/services/gastos.service.ts:76-81 | data naming `userId` is refused and nothing changes; otherwise the supplied columns are written over the expense with the id and nothing else changes, or the call fails for an unknown id and nothing changes |
| Expenses.DeleteExpense | lib/services/gastos.service.ts:83-87 | removes exactly the expense with the id, or fails for an unknown id and changes nothing |
| Expenses.GetExpenses | lib/services/gastos.service.ts:37-68 | exactly the expenses matching category, status and frequency when given and dated inside the inclusive range, each as often as stored, latest first |
| Expenses.GetExpenseById | lib/services/gastos.service.ts:70-74 | the expense with that id, or nothing exactly when there is none |
| Expenses.TotalByPeriod | lib/services/gastos.service.ts:89-103 | the sum of the amounts of the expenses dated in the inclusive period |
| Expenses.NoExpensesNoTotal | lib/services/gastos.service.ts:102 | with no expense in the period the total is 0 |
| Expenses.Entries | lib/services/gastos.service.ts:124-127 | one entry per dictionary key, in insertion order |
| Expenses.GetExpensesByCategory | lib/services/gastos.service.ts:105-128 | the loop accumulates the period's expenses into the dictionary one at a time and lists its entries |
| Expenses.TalliedKeys | lib/services/gastos.service.ts:115-122 | the dictionary lists each category once and its keys are exactly the expenses' categories |
| Expenses.CategoryAbsent | lib/services/gastos.service.ts:117-122 | a category no expense has contributes nothing |
| Expenses.TalliedSums | lib/services/gastos.service.ts:117-122 | each dictionary value is the total of its category |
| Expenses.EntriesGrow | lib/services/gastos.service.ts:118-121 | adding an expense grows the entries' total by its amount, whether its category is new or known |
| Expenses.EntriesTotal | lib/services/gastos.service.ts:115-127 | the entries add up to the total of the expenses |
| Expenses.EntryCategories | lib/services/gastos.service.ts:124-127 | the entries' categories are the dictionary's keys |
| Expenses.PeriodCategories | lib/services/gastos.service.ts:106-113 | the period's categories are those of the expenses dated in it |
| Expenses.ByCategoryCategories | lib/services/gastos.service.ts:105-128 | the breakdown lists exactly the categories present in the period |
| Expenses.ByCategoryAmounts | lib/services/gastos.service.ts:105-128 | each entry holds its category's total over the period |
| Expenses.ByCategoryBreakdown | lib/services/gastos.service.ts:105-128 | one entry per category present in the period, none twice, each with its category's total, all adding up to getTotalExpensesByPeriod |
| Pyg.Revenue | lib/services/pyg.service.ts:18-30 | revenue is the sum of the amounts of the sales dated in the inclusive period, 0 when there are none |
| Pyg.CostsByItem | lib/services/pyg.service.ts:49-56 | summing the costs sale by sale equals summing them link by link, each link charged once to its own sale |
| Pyg.DirectCostsPerItem | lib/services/pyg.service.ts:49-56 | direct costs are the quantity-times-average-cost of exactly the links whose sale lies in the period |
| Pyg.Margin | lib/services/pyg.service.ts:81-84 | a margin is the profit as a percentage of revenue, and 0 when revenue is 0 |
| Pyg.GetPyG | lib/services/pyg.service.ts:16-87 | revenue, expenses and direct costs of the period; gross profit = revenue − direct costs; net profit = operating profit = revenue − direct costs − expenses; each margin is its profit as a percentage of revenue (MarginsOf), 0 when revenue is 0 |
| Pyg.MarginSign | lib/services/pyg.service.ts:81-84 | with revenue, a margin has the sign of its profit |
| Pyg.MarginMonotone | lib/services/pyg.service.ts:81-84 | with the same revenue, a smaller profit has a smaller margin |
| Pyg.MarginsFollowProfits | lib/services/pyg.service.ts:74-84 | with revenue, each margin has its profit's sign and non-negative expenses keep the operating margin at or below the gross one |
| Pyg.NoSalesPeriod | lib/services/pyg.service.ts:30-85 | a period without sales has no revenue, no direct costs, zero margins and a net result of minus its expenses |
| Pyg.GetRevenueVsExpenses | lib/services/pyg.service.ts:89-97 | exactly three entries, "Ingresos", "Gastos" and "Utilidad Neta", carrying revenue, expenses and net profit |
| Integrations.StoreIntegrations | lib/services/integraciones.service.ts:99-127 | writes exactly the two integration tables and the counter |
| Integrations.TestLog | lib/services/integraciones.service.ts:99-107 | the test's log entry has action "test", status "success" or "error" and 1 or 0 records affected, following the outcome |
| Integrations.TestOutcome | lib/services/integraciones.service.ts:109-127 | a successful test leaves the integration active, synchronised now and without error; a failed one in "error" with "Connection timeout" and its last synchronisation kept |
| Integrations.TestIntegration | lib/services/integraciones.service.ts:94-130 | for a known integration exactly one test entry is appended and the outcome recorded, and the outcome is returned; an unknown id changes nothing |
| Integrations.AfterTestValid | lib/services/integraciones.service.ts:94-130 | a test keeps the database valid |
| Integrations.UpdateIntegrationStatus | lib/services/integraciones.service.ts:135-143 | sets exactly the status of the integration with the id, or fails for an unknown id and changes nothing |
| Integrations.NewLog | lib/services/integraciones.service.ts:156-158 | the new entry has the next id, names the integration and is stamped now |
| Integrations.CreateIntegrationLog | lib/services/integraciones.service.ts:148-159 | appends exactly the entry for a stored integration, and is refused with nothing changed otherwise |
| Integrations.ViewOf | lib/services/integraciones.service.ts:26-34 | a listed integration carries its entry count and its newest entries, at most 5, each a distinct stored entry of the integration (a sub-multiset), newest first, none omitted that is newer than one listed |
| Integrations.GetIntegrations | lib/services/integraciones.service.ts:13-37 | exactly the integrations matching status and type when given, by name ascending, each with its entry count and its newest entries, which are distinct stored entries of that integration |
| Integrations.GetIntegrationById | lib/services/integraciones.service.ts:42-51 | the integration with that id and all its entries newest first, or nothing exactly when there is none |
| Integrations.GetIntegrationLogs | lib/services/integraciones.service.ts:56-89 | exactly the integration's entries matching status and action when given and the inclusive date range, newest first |
| Integrations.GetIntegrationStats | lib/services/integraciones.service.ts:164-188 | the total, active and error counts, the rest counted inactive, and the ten newest entries, distinct stored ones (a sub-multiset of the log), with no omitted entry newer than one listed |
| Integrations.StatusesPartition | lib/services/integraciones.service.ts:185 | every integration is active, in error or inactive, exactly one of them, so inactive = total − active − error |
| Integrations.TestCounts | lib/services/integraciones.service.ts:164-188 | a test keeps the total, takes the integration out of the inactive count if it was there, and leaves it in the active count exactly when it succeeded |
| Common.RoundDiv | lib/services/payment-plans.service.ts:57 | the installment amount is the integer nearest to the financed amount divided by the number of installments, halves rounded up |
| Common.RoundDivUnique | lib/services/payment-plans.service.ts:57 | exactly one integer satisfies the rounding bounds, so the rounding is fully determined |
| Common.RoundDivExact | lib/services/payment-plans.service.ts:57 | an amount that divides evenly is split exactly, without rounding |
| Calendar.AddDays | lib/services/payment-plans.service.ts:37-40 | adding days keeps the time of day and moves the day number by exactly that many days |
| Calendar.StartOfDay | lib/services/payment-plans.service.ts:239 | midnight of the same day: at or before the instant and less than one day before it |
| Calendar.AddMonthsTimeOfDay | lib/services/payment-plans.service.ts:44 | adding months keeps the time of day |
| Calendar.AddMonthsZero | lib/services/payment-plans.service.ts:44 | adding no months leaves the date unchanged |
| Calendar.AddMonthsStep | lib/services/payment-plans.service.ts:44 | each further month lands between 28 and 31 days after the previous one, even when the day of month rolls over |
| Calendar.AddMonthsSameDay | lib/services/payment-plans.service.ts:44 | for a day of month up to 28, adding n months lands on the same day of the month n months later |
| Permissions.Listed | lib/permissions.ts:1-44 | every listed action names the administrator, and a listed delete names the administrator alone |
| Permissions.HasPermission | lib/permissions.ts:50-64 | granted exactly when the role is given and non-empty, the module lists the action, and the role is among those listed; refused otherwise |
| Permissions.CanAccess | lib/permissions.ts:66-68 | access to a module is the permission to view it |
| Permissions.AdminMayDoAllListed | lib/permissions.ts:1-44 | the administrator may perform an action exactly when the module lists it |
| Permissions.UnknownRolesRefused | lib/permissions.ts:63 | a role other than admin, asistente and readonly is refused everything |
| Permissions.ReadonlyOnlyViews | lib/permissions.ts:3-27 | the read-only role may do exactly one thing: view sales, purchases, inventory, clients and the profit-and-loss statement |
| Permissions.DeleteIsAdminOnly | lib/permissions.ts:6-38 | whoever may delete anything is the administrator |
| Permissions.AsistenteCoversReadonly | lib/permissions.ts:1-44 | outside the profit-and-loss statement the assistant may do everything the read-only role may |
| Permissions.AdminCoversEveryRole | lib/permissions.ts:1-44 | every permission granted to any role is granted to the administrator |
| Treatments.FirstNamedFrom | lib/constants/treatments.ts:255-257 | the search from a position finds the first entry at or after it with the name, or reports that none has it |
| Treatments.FirstNamed | lib/constants/treatments.ts:255-257 | `find` returns the first position holding the name; nothing is returned exactly when no entry has the name |
| Treatments.FirstNamedAt | lib/constants/treatments.ts:255-257 | when the first entry with the name is at position k, the search returns k |
| Treatments.TreatmentByName | lib/constants/treatments.ts:255-257 | a found treatment is in the catalogue and has exactly that name; nothing is found exactly when no entry has the name |
| Treatments.TreatmentsByCategory | lib/constants/treatments.ts:260-262 | exactly the entries of the category, kept in catalogue order |
| Treatments.FirstOccurrences | lib/constants/treatments.ts:250-251 | the set of categories holds each value once and exactly the values of the input |
| Treatments.LexOrders | lib/constants/treatments.ts:252 | the default string order used by `sort` is a total preorder |
| Treatments.CategoriesOf | lib/constants/treatments.ts:250-252 | the category list has no repeats, is sorted, and holds exactly the categories some treatment has |
| Treatments.CategoriesCoverCatalogue | lib/constants/treatments.ts:250-262 | every treatment appears under its own listed category, and every category lookup returns only treatments of that category |
| Treatments.NoEmptyCategory | lib/constants/treatments.ts:250-262 | every listed category has at least one treatment |
| Treatments.CataloguePrices | lib/constants/treatments.ts:13-247 | no catalogue price is negative |
| Treatments.OnlyOtrosIsFree | lib/constants/treatments.ts:240-246 | the last entry is "Otros", and it is the only one with price 0 |
| Treatments.SeedMatchesCatalogue | lib/constants/treatments.ts:265-280 | each demo entry names a catalogue treatment at a given position and charges that treatment's catalogue price |
| ColumnFilter.EmptyFilterMatches | components/inventario/inventory-table.tsx:45-52 | an empty filter box matches every text and every number |
| ColumnFilter.FoldedMatchIgnoresCase | components/inventario/inventory-table.tsx:37-51 | lower-casing either the column or the filter does not change whether a row matches |
| ColumnFilter.LongFilterMisses | components/inventario/inventory-table.tsx:46 | a filter longer than the column's text never matches |
| ColumnFilter.NumberMatchesItself | components/inventario/inventory-table.tsx:49-52 | a number's own decimal text matches it |
| InventoryTable.StatusLabel | components/inventario/inventory-table.tsx:26-33 | "ok", "low" and "critical" become "OK", "Bajo" and "Crítico"; any other status is shown as it is |
| InventoryTable.LabelSelectsStatus | components/inventario/inventory-table.tsx:42-51 | typing a known status's label into the status box matches a row of a known status exactly when the statuses are equal |
| InventoryTable.LabelsDiffer | components/inventario/inventory-table.tsx:26-33 | no lower-cased label of a known status contains the label of another |
| InventoryTable.CodePrefix | components/inventario/inventory-table.tsx:37 | the shown code is the code's first eight characters, or the whole code when it is shorter |
| InventoryTable.FilteredItems | components/inventario/inventory-table.tsx:35-55 | a row is shown exactly when it is in the table and every filter box matches it; the shown rows keep the table's order |
| InventoryTable.UnfilteredKeepsAll | components/inventario/inventory-table.tsx:35-55 | with every box empty the whole table is shown, in order |
| InventoryTable.LongCodeFilterHidesAll | components/inventario/inventory-table.tsx:37-46 | a code filter longer than eight characters hides every row |
| InventoryTable.CsvRow | components/inventario/inventory-table.tsx:75-84 | each CSV record has as many fields as there are headers |
| InventoryTable.ExportsAgree | components/inventario/inventory-table.tsx:57-84 | the spreadsheet and the CSV export carry the same columns, in the same order, with the same values |
| Seqs.Map | components/inventario/inventory-table.tsx:76-84 | one result per element, in order, each the function applied to that element (the record of each shown row; also the id column of every table) |
| InventoryTable.ExportReadsBack | components/inventario/inventory-table.tsx:74-89 | without commas or line breaks in the text, the CSV file reads back as the headers followed by the shown rows' records, one line each |
| InventoryTable.EmptyMessage | components/inventario/inventory-table.tsx:246-249 | no message while some row matches; "No hay items en el inventario" exactly when the table is empty; the no-results message exactly when rows exist but none matches |
| InventoryTable.UnfilteredNeverNoMatches | components/inventario/inventory-table.tsx:246-249 | with every box empty the no-results message never appears |
| ExpensesTable.FilteredExpenses | components/compras/expenses-table.tsx:33-49 | a row is shown exactly when it is in the table and every filter box matches it; the shown rows keep the table's order |
| ExpensesTable.UnfilteredKeepsAll | components/compras/expenses-table.tsx:33-49 | with every box empty the whole table is shown, in order |
| ExpensesTable.YearFilterKeepsRow | components/compras/expenses-table.tsx:35-42 | typing a row's four-digit year into the date box keeps that row |
| ExpensesTable.StatusText | components/compras/expenses-table.tsx:57 | the displayed status differs from the stored status only in the case of its first letter |
| ExpensesTable.DisplayedStatusFindsRow | components/compras/expenses-table.tsx:39-46 | typing the status as it is displayed into the status box finds the row |
| ExpensesTable.BadgeStyle | components/compras/expenses-table.tsx:92-103 | green, yellow and red for "pagado", "pendiente" and "vencido"; gray for any other status |
| ExpensesTable.BadgeStylesDistinct | components/compras/expenses-table.tsx:93-97 | the three known statuses get three different colours, none of them the gray fallback |
| ExpensesTable.CsvRow | components/compras/expenses-table.tsx:67-74 | each CSV record has as many fields as there are headers |
| ExpensesTable.ExportsAgree | components/compras/expenses-table.tsx:51-74 | the spreadsheet and the CSV export carry the same columns, in the same order, with the same values |
| DateFormat.ShortDateUnquoted | components/compras/expenses-table.tsx:69 | an exported date holds no comma and no line break |
| ExpensesTable.ExportReadsBack | components/compras/expenses-table.tsx:66-79 | without commas or line breaks in the text, the CSV file reads back as the headers followed by the shown rows' records, one line each |
| ExpensesTable.EmptyMessage | components/compras/expenses-table.tsx:210-213 | no message while some row matches; "No hay gastos registrados" exactly when there are no expenses; the no-results message exactly when rows exist but none matches |
| ExpensesTable.UnfilteredNeverNoMatches | components/compras/expenses-table.tsx:210-213 | with every box empty the no-results message never appears |
| PurchasesTable.FilteredPurchases | components/compras/purchases-table.tsx:35-51 | a row is shown exactly when it is in the table and every filter box matches it; the shown rows keep the table's order |
| PurchasesTable.UnfilteredKeepsAll | components/compras/purchases-table.tsx:35-51 | with every box empty the whole table is shown, in order |
| PurchasesTable.SupplierFilterKeepsRow | components/compras/purchases-table.tsx:39-46 | a supplier's name typed in any case into the supplier box keeps that supplier's purchases |
| PurchasesTable.CsvRow | components/compras/purchases-table.tsx:69-76 | each CSV record has as many fields as there are headers |
| PurchasesTable.ExportsAgree | components/compras/purchases-table.tsx:53-76 | the spreadsheet and the CSV export carry the same columns, in the same order, with the same values |
| PurchasesTable.ExportReadsBack | components/compras/purchases-table.tsx:68-81 | without commas or line breaks in the text, the CSV file reads back as the headers followed by the shown rows' records, one line each |
| PurchasesTable.EmptyMessage | components/compras/purchases-table.tsx:194-197 | no message while some row matches; "No hay compras registradas" exactly when there are no purchases; the no-results message exactly when rows exist but none matches |
| PurchasesTable.UnfilteredNeverNoMatches | components/compras/purchases-table.tsx:194-197 | with every box empty the no-results message never appears |
| PaymentPlansTable.StatusBadge | components/cuentas-por-cobrar/payment-plans-table.tsx:33-62 | "Vencida" exactly when some installment is overdue; otherwise "Completada" exactly when the paid installments number as many as the plan announces; otherwise "Al día" |
| PaymentPlansTable.CompletadaIffAllPaid | components/cuentas-por-cobrar/payment-plans-table.tsx:37-55 | when a plan has as many rows as it announces, "Completada" appears exactly when every one of them is paid |
| PaymentPlansTable.PlanView | components/cuentas-por-cobrar/payment-plans-table.tsx:109-112 | the row shows the number of installments the stored plan announces |
| PaymentPlansTable.ViewCount | components/cuentas-por-cobrar/payment-plans-table.tsx:34-39 | counting a status among the row's installments counts the plan's stored installments with that status |
| PaymentPlansTable.BadgeFollowsLedger | components/cuentas-por-cobrar/payment-plans-table.tsx:33-62 | for a plan kept consistent by the payment service, "Completada" shows exactly when the plan is completed and "Vencida" exactly when one of its installments is overdue |
| PaymentPlansTable.CounterShowsPaid | components/cuentas-por-cobrar/payment-plans-table.tsx:110-112 | the counter text begins with the number of paid installments, which reads back up to the slash |
| PaymentPlansTable.EmptyMessage | components/cuentas-por-cobrar/payment-plans-table.tsx:72-78 | "No hay planes de pago activos" exactly when there is no plan to list; otherwise no message |
| Text.Lower | components/inventario/inventory-table.tsx:37-42 | lower-casing keeps the length and maps every character through the letter mapping |
| Text.LowerIdempotent | components/inventario/inventory-table.tsx:46-51 | lower-casing twice is the same as lower-casing once |
| Text.Capitalize | components/compras/expenses-table.tsx:57 | same length; the first character upper-cased and the rest unchanged |
| Text.TrimEmptyIff | app/api/chat/route.ts:49 | a text trims to "" exactly when it is made only of whitespace |
| Text.SplitJoin | components/inventario/inventory-table.tsx:86-88 | splitting a joined record gives back its fields when no field holds the separator |
| Text.SplitSeparatorInField | components/inventario/inventory-table.tsx:88 | a field holding the separator splits into two pieces |
| Text.IntToStringRoundTrip | components/inventario/inventory-table.tsx:40-43 | a number's decimal text reads back as the number, so distinct numbers have distinct texts |
| Csv.Lines | components/inventario/inventory-table.tsx:86-89 | the header line first, then one line per record, each the record's fields joined by commas |
| Csv.Parse | components/inventario/inventory-table.tsx:86-89 | reading back splits the text into lines, and each line into fields at the commas |
| Csv.DocumentLines | components/inventario/inventory-table.tsx:86-89 | with plain fields the file splits into exactly the header line and the record lines |
| Csv.ParseDocument | components/inventario/inventory-table.tsx:86-89 | with plain fields the file reads back as the headers followed by the records |
| Csv.CommaShiftsColumns | components/inventario/inventory-table.tsx:88 | fields are not quoted, so a field holding a comma does not read back as written |
| DateFormat.Padded | components/compras/expenses-table.tsx:53 | the padded number has at least the requested width, only digits, and is the number's own text when that is already long enough |
| DateFormat.PaddedReadsBack | components/compras/expenses-table.tsx:53 | a zero-padded number reads back as the number |
| DateFormat.EraYear | components/compras/expenses-table.tsx:53 | the written year is at least 1 and equals the year for every year of the common era |
| DateFormat.SlashDate | components/compras/expenses-table.tsx:53 | a "dd/MM/yyyy" date holds only digits and slashes |
| DateFormat.SlashDateReadsBack | components/compras/expenses-table.tsx:69 | an exported date reads back as its day, month and year |
| DateFormat.YearFindsDate | components/compras/expenses-table.tsx:35-42 | the four-digit year occurs in the lower-cased "dd MMM yyyy" date, whatever the month names |
| Chat.Classify | app/api/chat/route.ts:3-43 | the chosen topic is mentioned in the lower-cased message (unless it is the fallback), and no topic tried before it is mentioned |
| Chat.AnswerNonEmpty | app/api/chat/route.ts:6-42 | every topic has a non-empty answer |
| Chat.ResponseNonEmpty | app/api/chat/route.ts:3-43 | every message gets a non-empty answer |
| Chat.CaseInsensitive | app/api/chat/route.ts:4 | a message and its lower-cased form get the same answer topic |
| Chat.SalesComeFirst | app/api/chat/route.ts:6-8 | a message mentioning "venta" in any case gets the sales answer, whatever else it mentions |
| Chat.RedundantKeywords | app/api/chat/route.ts:6-22 | "ventas", "gastos" and "cuentas por cobrar" add nothing to their rules, since each contains a shorter keyword of the same rule |
| Chat.Post | app/api/chat/route.ts:45-61 | a missing or blank message is refused with status 400 and "Mensaje vacío"; any other message gets the classifier's answer |
| Chat.RefusedIffBlank | app/api/chat/route.ts:49-54 | a given message is refused exactly when it consists only of whitespace |
| Proxy.Middleware | proxy.ts:5-14 | redirects to "/dashboard" exactly when the path starts with "/login"; every other path passes through |
| Proxy.ExactTestSubsumed | proxy.ts:9 | the exact comparison with "/login" adds nothing to the prefix test |
| Proxy.LongerLoginPathsRedirect | proxy.ts:9-13 | "/login", "/login/x" and "/loginfoo" are redirected and "/dashboard" passes through |
| Proxy.LoginPathsReachMiddleware | proxy.ts:16-18 | the route matcher never excludes a path that starts with "/login" |

## Left out

- Database access is modelled as in-memory tables changed by one method per transaction. Prisma's query engine, transactions, isolation and concurrency are not modelled: nothing in one process runs concurrently.
- Relation `include`s and joined fields are modelled as the rows a query returns. Which columns are selected beyond those listed is not modelled.
- The database's own behaviour on deleting a referenced row is not modelled; `deletePatient` is modelled through its own guard.
- Time zones and daylight saving time are not modelled. Every instant is read in one fixed zone, and "now" is a parameter.
- Floating-point arithmetic is not modelled. The P&G margins are exact rationals (`real`), and the average cost is an integer.
- `parseFloat` in the expense route is not modelled.
- bcrypt is symbolic: a digest keeps its secret and its salt. It can be checked against a candidate password but is never equal to a password string.
- `Math.random` in `testIntegration` is a parameter: the outcome of the test is an input.
- The date-fns Spanish locale's month abbreviations are the `MonthNames` parameter.
- `toLocaleString("es-CO")` and `toLocaleDateString` are display-only formatting and are not modelled.
- `toLowerCase` and `toUpperCase` map the ASCII letters only. Unicode case mapping is not modelled.
- `trim` removes the whitespace characters `IsSpace` lists, not every Unicode space.
- InventoryTable.CodePrefix: counts the first eight characters by code point, where `slice(0, 8)` counts UTF-16 code units. The two differ for codes holding a character above U+FFFF.
- Text.Capitalize: upper-cases the first code point and keeps the rest, where `charAt(0)` and `slice(1)` work on UTF-16 code units. The two differ when the text starts with a character above U+FFFF.
- Text.LexLeq: compares strings by code point, where JavaScript's `sort` compares UTF-16 code units. The two orders differ only between a character above U+FFFF, which UTF-16 places first, and one in U+E000 to U+FFFF. Database collation is not modelled.
- A property name that the JavaScript object prototype already defines (such as "constructor") is not modelled as a status key in `getStatusLabel` or `getStatusBadge`. Only the keys the maps list are modelled.
- The inventory table's `getStatusBadge` is not modelled, nor its failure for a status other than "ok", "low" and "critical", where it reads the style of an entry the map does not have.
- Expenses.GetExpensesByCategory: the dictionary is modelled without the keys the JavaScript object prototype already has. In the code, a category named after an inherited property such as "constructor" or "toString" finds a function already present, so `+=` joins that function's text with the amount into a string, which is listed as the category's total. A category named "__proto__" ignores the string assigned to it, and its expenses are missing from the list. For those categories the breakdown's promises (one entry per category, each its category's total, adding up to the period total) do not hold of the code. The write route stores any category text it is sent.
- Schema.References: the creator of a plan, purchase or expense (`createdBy`) and the user of an audit-log entry (`userId`) are not checked against the users table. `Users.LogAudit`, `Expenses.CreateExpense`, `Purchases.CreatePurchase` and `Plans.CreatePaymentPlan` therefore never fail on an unknown user. The database schema that would decide this is not part of this model.
- Schema.IdsIssued: ids are naturals from one counter, ascending along each table, where the code's ids are strings the database generates. The order is a modelling choice: the model uses it only to know that ids are unique and that a new id differs from every stored one. It appears in `Schema.TablesValid`; in the requires of `Patients.StatsOverdue`, `Pyg.DirectCostsPerItem`, `Stock.AdjustStockEffect` and the lemmas that remove or update a row; and in the id-freshness lemmas `Plans.CreatePlanIds` and `Sales.SaleRowsIds`. None of these is a promise that the code's ids are ordered.
- The order of `Object.entries` for integer-like category keys is not modelled: category totals are listed in the order the categories first appear.
- A negative `take` limit in the audit-log query is not modelled.
- The runtime check in `hasPermission` for a module missing from the table is not modelled. Modules are a closed datatype, so the check cannot fail.
- `Chat.Post` does not model a request whose body is not JSON or whose `message` is not a string (the status 500 path).
- The spreadsheet and CSV downloads themselves (XLSX, Blob, DOM links, file names with today's date) are not modelled. Each export is modelled as the data it writes.
- The route matcher's regular expression is modelled as the four path prefixes it excludes.
- `Chat.MockResponse` has no contract of its own; `Chat.ResponseNonEmpty`, `Chat.Classify` and `Chat.Post` state what it returns.
- Purchases.PurchaseTotal: its own contract states only the empty case. `Purchases.PurchaseTotalAppend` and `Purchases.NewPurchase` state the sum of the line totals.
- `getPatientById`, `getSaleById` and `getPurchaseById` are single-row lookups with relation includes and are not modelled. `Schema.Lookup` is the lookup they perform.
- The treatment descriptions are not modelled; the catalogue keeps each treatment's name, category and price.
- The inventory service that computes each stock row's status and total value is not part of this model. The inventory table receives those values as given.
- The API route handlers are not modelled. The facts they supply are parameters or preconditions: the defaults for down payment, frequency and start date, and the 400 and 500 replies of the payment route.
- Authentication, the seed scripts, the mock invoicing import and the configuration routes are not modelled.
- Behaviour the model follows as the code has it:
  - registering a payment checks for a missing installment before checking for one already paid;
  - completing a plan marks its sale, if it has one, with the status "completada";
  - plan creation does not reject a down payment larger than the total, or zero installments; the model carries "at least one installment" as a precondition of plan creation;
  - rounding the installment amount up can leave a plan's remaining amount negative once every installment is paid (`Plans.NegativeResidualExample`).
