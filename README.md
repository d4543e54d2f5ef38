# Invoice dashboard core, in Dafny

This project models the two pieces of the invoice dashboard that have logic of their own:

- **The display-label generators** of `app/lib/utils.ts`.
  - `generatePagination` turns the current page and the page count into the list of page numbers and `"..."` markers shown under the invoice table.
  - `generateYAxis` rounds the highest monthly revenue up to a multiple of 1000 and labels the chart's y-axis from there down to zero, one `"k K €"` label per thousand.
- **The invoice server actions** of `app/lib/actions.ts`.
  - The form schema shared by create and update checks `customerId`, `amount` and `status`.
  - `createInvoice`, `updateInvoice` and `deleteInvoice` run the database statement, then revalidate the cached pages. Create and update then redirect; delete returns nothing or throws.
  - `authenticate` maps the sign-in error to a message or throws it on.

Modules, one per component:

- `Wrappers` (wrappers.dfy): `Option` and `Result`.
- `Decimal` (decimal.dfy): how a template literal prints a non-negative integer, and how to read it back.
- `YAxis` (yaxis.dfy): `generateYAxis`. It is a method with the source's loop. It steps `i` down from `topLabel` by 1000 and appends one label per step. Its postcondition gives `topLabel` and every label.
- `Pagination` (pagination.dfy): `generatePagination`, a function with the source's four cases. Its lemmas show that the list walks from page 1 to the last page. Every hidden page sits behind a `"..."`, and the numbers shown are increasing.
- `InvoiceSchema` (invoice_schema.dfy): the schema's field rules and `Validate`. It returns a draft or the field errors.
- `Actions` (actions.dfy): the three invoice actions and `authenticate`.
  - The database, `revalidatePath`, `redirect` and `console.error` are collaborators the actions cannot see into. A `Runtime` object records every call made on them, in order, in its `trace`.
  - The database's reply (success or error) is an input of each action.
  - Each action is a method. Its postcondition ties its outcome and the calls it appends to a specification function (`CreateRun`, `UpdateRun`, `DeleteRun`). That function states the action's promises, including the discipline `Disciplined` that every action keeps.

Behaviour worth noting:

- Only a missing (null) `status` gets the schema's `invalid_type_error` text. A string outside the enum gets zod 3's default `invalid_enum_value` message.
- The revenue chart calls `generateYAxis` (app/ui/dashboard/revenue-chart.tsx:17) before its empty-data check (app/ui/dashboard/revenue-chart.tsx:19), so an empty series can reach it. That call is outside the model's precondition; see the `YAxis.GenerateYAxis` line under "## Left out".
- `generateYAxis` is modelled for every integer revenue, negative ones included.

## Model

| member | source | states |
|---|---|---|
| `YAxis.HighestRecord` | app/lib/utils.ts:35 | the highest record is one of the series' revenues and no revenue exceeds it |
| `YAxis.TopLabel` | app/lib/utils.ts:36 | the top label is a multiple of 1000, at least the highest record and less than 1000 above it |
| `YAxis.TopLabelIsLeast` | app/lib/utils.ts:36 | no smaller multiple of 1000 covers the highest record, so the top label is the ceiling |
| `YAxis.GenerateYAxis` | app/lib/utils.ts:31-44 | for a non-empty series the method returns the top label and the labels. The top label is the least multiple of 1000 covering every revenue. There are topLabel/1000 + 1 labels, none when the top is negative. Label j reads `(topLabel/1000 - j) K €` and reads back as that number, and the last label is `0 K €`. |
| `YAxis.LabelRoundTrip` | app/lib/utils.ts:40 | every `k K €` label reads back as k, so labels of different ticks differ |
| `Decimal.FromNat` | app/lib/utils.ts:40 | the printed number is a non-empty digit string. It has no leading zero, and it is one digit exactly when the number is below 10. |
| `Decimal.RoundTrip` | app/lib/utils.ts:40 | reading back a printed number gives the number |
| `Decimal.Injective` | app/lib/utils.ts:40 | different numbers print differently |
| `Pagination.GeneratePagination` | app/lib/utils.ts:47-78 | the list never has more than seven tokens, and has no `"..."` when there are seven pages or fewer |
| `Pagination.SmallListsShowEveryPage` | app/lib/utils.ts:50-52 | with seven pages or fewer the list is exactly [1, 2, …, totalPages] (empty for a non-positive count), so it shows exactly the pages 1..totalPages |
| `Pagination.LongListShows` | app/lib/utils.ts:56-77 | with more than seven pages: the first three and last two pages (six tokens) when currentPage <= 3. The first two and last three (six tokens) when currentPage >= totalPages-2. Otherwise pages 1, currentPage-1, currentPage, currentPage+1 and totalPages, with currentPage in the middle of seven tokens. |
| `Pagination.PaginationWalks` | app/lib/utils.ts:47-78 | for at least one page the list starts at page 1 and ends at the last page. Adjacent numbers are consecutive pages, and each `"..."` stands between two numbers and hides at least one page. |
| `Pagination.WalkGrows` | app/lib/utils.ts:56-77 | along such a list, page numbers grow at least as fast as positions |
| `Pagination.WalkIsOrdered` | app/lib/utils.ts:56-77 | the numbers of such a list are strictly increasing, lie in 1..totalPages, and there are no more tokens than pages |
| `Pagination.WalkAccounts` | app/lib/utils.ts:56-77 | every page up to a shown page is either shown or hidden behind a `"..."` |
| `Pagination.PaginationAccountsForEveryPage` | app/lib/utils.ts:47-78 | every page 1..totalPages is shown or hidden behind a `"..."`. Only those pages are shown, in increasing order. |
| `Pagination.CurrentPageShown` | app/lib/utils.ts:47-78 | a current page within 1..totalPages is always in the list |
| `InvoiceSchema.Validate` | app/lib/actions.ts:28-60 | a form passes exactly when customerId is present and non-empty, amount is present and above 0, and status is `pending` or `paid`. The draft carries those values. On failure each field has an error exactly when it is the one that fails, with the schema's message for it. A missing status gets the type-error message, and any other rejected status string gets zod 3's `invalid_enum_value` message naming it. |
| `InvoiceSchema.ValidateRoundTrip` | app/lib/actions.ts:28-60 | a draft with a customer and a positive amount, submitted as a form, validates back to itself |
| `Actions.Cents` | app/lib/actions.ts:86 | the stored amount in cents divided by 100 is the amount entered |
| `Actions.CreateRun` | app/lib/actions.ts:66-108 | createInvoice redirects to `/dashboard/invoices` exactly when the form is valid and the insert succeeds, after revalidating that path once. An invalid form makes no call and returns the field errors with the fixed message. A valid form inserts the draft with its amount in cents and today's date. A failed insert returns the previous state with the database message and neither revalidates nor redirects. |
| `Actions.UpdateRun` | app/lib/actions.ts:116-163 | updateInvoice redirects exactly when the form is valid and the update succeeds, after revalidating the list and then `/dashboard/invoices/{id}/edit`. An invalid form makes no call and returns the field errors with its own message. A valid form updates row id with the amount in cents. A failed update returns only the database message, dropping earlier errors. |
| `Actions.DeleteRun` | app/lib/actions.ts:169-184 | deleteInvoice always issues the delete of row id first and never redirects. It throws `Impossibile Eliminare la Fattura.` exactly when the database fails. On success it returns nothing and revalidates `/dashboard/invoices` exactly once. |
| `Actions.CreateAndUpdateAgree` | app/lib/actions.ts:57-60 | create and update apply the same schema: one makes no call exactly when the other makes none, and one redirects exactly when the other does |
| `Actions.Runtime.Execute` | app/lib/actions.ts:91-94 | a statement is recorded with the database's reply, and the action learns whether it raised |
| `Actions.Runtime.LogError` | app/lib/actions.ts:97 | the database error is logged, and nothing else happens |
| `Actions.Runtime.Revalidate` | app/lib/actions.ts:106 | one revalidation of the given path is recorded |
| `Actions.Runtime.RedirectTo` | app/lib/actions.ts:107 | the redirect is recorded and ends the action with that destination |
| `Actions.CreateInvoice` | app/lib/actions.ts:66-108 | the method's outcome and the calls it appends to the trace are those of `CreateRun` |
| `Actions.UpdateInvoiceAction` | app/lib/actions.ts:116-163 | the method's outcome and the calls it appends to the trace are those of `UpdateRun` |
| `Actions.DeleteInvoiceAction` | app/lib/actions.ts:169-184 | the method's outcome and the calls it appends to the trace are those of `DeleteRun` |
| `Actions.Authenticate` | app/lib/actions.ts:186-203 | an error that is not an AuthError is rethrown unchanged, and only such an error is rethrown. No error gives no message. An AuthError gives `Credenziali non valide.` exactly when its type is `CredentialsSignin` and the generic message otherwise. No other message is ever returned. |

## Left out

- `formatCurrency` and `formatDateToLocal` (app/lib/utils.ts:4-28): floating-point division and locale formatting by the runtime's `Intl`.
- Zod's coercion of the amount text to a number (NaN, empty text, decimal parsing): the amount is taken as an already-parsed exact `real`, and `× 100` is exact. A form value that is a file rather than text is not modelled.
- `YAxis.GenerateYAxis`: the source divides in floating point. The model's integer ceiling agrees with it only for revenues within ±2^53. It requires a non-empty series, although the revenue chart can pass an empty one: for an empty series the source computes `Math.max()` = -Infinity and returns no labels with a top of -Infinity. When the highest record is in (-1000, 0), JavaScript's top is -0, which the model has as 0. Both print `0 K €`.
- The SQL text, the postgres client and its connection: only the statement's kind and parameters and the database's success or error are modelled. The date from `new Date()` is an input (`today`). The model's `LogDbError` carries no payload. The source logs the error object and returns none of it.
- `revalidatePath` and `redirect` are recorded calls that always complete. A failing `revalidatePath` is not modelled: in `deleteInvoice` it sits inside the `try` and would turn into the delete error. `redirect` ending the action is modelled by the `Redirected` outcome.
- The sign-in itself (auth.ts: NextAuth wiring, the credentials schema, the user lookup and the bcrypt comparison) is a collaborator whose result is an input: completion, an AuthError of some type, or another error.
- proxy.ts, the pages and the revenue chart's rendering (bar heights are floating-point and divide by the top label).
- The two status messages follow zod 3: its honouring of `invalid_type_error` and its default `invalid_enum_value` wording. Zod 4 words both differently, and the zod version is not part of this model.
- The schema's `id` and `date` fields: both are omitted from the create and update schemas.
