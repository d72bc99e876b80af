# Bill tracker core, modelled in Dafny

The bill tracker records bills (name, amount, date, category, frequency), keeps
them in a client-side store, and charts a 12-month projection of what they
cost. This project models the three pieces of logic behind that:

- **the bill store's transitions** (`BillStore`): `validateBill`, `addBill`,
  `updateBill` and `deleteBill` as pure functions from the current bill list to
  the next one, with the 1000-bill capacity;
- **the timeline projection** (`BillTimeline`): the 12 target months starting
  at the current month, each bill's contribution to a month by frequency, and
  the per-month totals, once as a reference function and once as the nested
  loop the component runs;
- **the form's data path** (`BillForm`): `validateForm` with its per-field
  messages, and `handleSubmit`, which trims the name, parses the amount,
  chooses the add or the edit callback and resets the form;

plus the shared `Bill` record and the category and frequency lists
(`BillTypes`) and JavaScript's `String.prototype.trim` (`Text`).

A bill is `Bill(id, data)`, where `data: BillData` holds the five fields the
form submits for a new bill (`Omit<Bill, 'id'>`). Category and frequency stay
strings, as they are at run time; the projector reads the frequency through
`ParseFrequency`, whose `Unknown(text)` case stands for any text outside the
six listed names. Dates stay the raw text the form collected; `Date.parse` and
`new Date(text)` are one injected `DateParser` (text to an optional decoded
date, `None` for NaN), `parseFloat` is an injected `NumberParser`, the clock is
the `now` month passed to the projection, and the new id is passed to
`AddBill` by the caller.

Points where the code's behaviour is easy to misread:

- `updateBill` replaces *every* entry with the matching id, and `deleteBill`
  removes every such entry. Both lemmas about "exactly one entry" therefore
  assume unique ids.
- Ids come from the clock and the store never checks them for freshness.
  `BillStore.AddThenFind` shows that uniqueness is kept when the caller
  supplies an id not already present, and `BillStore.AddReusedIdBreaksUniqueness`
  that it is lost when the id is already in use.
- The store's check does not trim the name, so a name of spaces passes it
  even though the form rejects it (`BillForm.StoreAcceptsBlankName`,
  `BillForm.BlankNameRejected`).
- For a bill whose date does not parse, `monthsDiff` is NaN. `NaN < 0` is
  false, so the early return is skipped. Weekly, Fortnightly and Monthly bills
  then still count in every month, while Quarterly and Yearly bills
  (`NaN % k === 0` is false) and One-time bills count in none. The store never
  admits such a bill, but the projection models this path as written
  (`BillTimeline.UnparseableDateContribution`).

## Model

| member | source | states |
|---|---|---|
| BillTypes.FrequencyName | src/types/bill.ts:25-32 | each of the six listed frequencies is stored as one of the names in the frequency list |
| BillTypes.ParseFrequency | src/components/BillTimeline.tsx:26-59 | reading a frequency text with `===`, as the projector does, gives back that text, and yields a listed frequency exactly when the text is in the frequency list |
| BillTypes.ParseFrequencyName | src/types/bill.ts:25-32 | reading back the stored name of a listed frequency gives that frequency |
| BillTypes.FrequenciesAreSix | src/types/bill.ts:25-32 | the frequency list has six distinct entries, all recognised, and entry 2 is Monthly |
| BillTypes.CategoriesAreTwelve | src/types/bill.ts:10-23 | the category list has twelve distinct entries, Power first |
| Text.TrimIsMiddle | src/components/BillForm.tsx:81 | the trimmed name is a middle slice of the name, no longer than it, with only whitespace cut on either side and none left at its ends |
| Text.TrimEmptyIffAllWhitespace | src/components/BillForm.tsx:44 | a name trims to nothing exactly when it is all whitespace |
| BillStore.ValidateBill | src/store/billStore.ts:6-12 | a bill passes exactly when its name has 1 to 100 characters, its amount is not negative, its date is present and parses, and its category and frequency are not empty |
| BillStore.AddBill | src/store/billStore.ts:28-47 | an invalid bill or a full store leaves the list unchanged; otherwise the old list comes back with exactly one bill appended, carrying the new id and the submitted fields |
| BillStore.AddAtCapacityIsNoOp | src/store/billStore.ts:34-37 | with 1000 bills stored, adding even a valid bill changes nothing |
| BillStore.AddThenFind | src/store/billStore.ts:38-46 | on a store whose ids are unique, a successful add under an id not yet present makes looking that id up yield exactly the submitted fields, and the ids stay unique |
| BillStore.AddReusedIdBreaksUniqueness | src/store/billStore.ts:38-46 | a successful add under an id already present leaves two entries with that id, since the store does not check the id |
| BillStore.UpdateBill | src/store/billStore.ts:48-59 | the length never changes; an invalid bill changes nothing; a valid one replaces exactly the positions whose id matches and leaves every other position as it was |
| BillStore.UpdateKeepsIds | src/store/billStore.ts:54-58 | an update never changes the id at any position |
| BillStore.UpdateAbsentIsNoOp | src/store/billStore.ts:54-58 | updating an id that is not present leaves the list unchanged |
| BillStore.UpdatePresentReplacesOne | src/store/billStore.ts:54-58 | with unique ids, a valid update of the bill at position k changes position k only |
| BillStore.DeleteBill | src/store/billStore.ts:60-63 | no survivor carries the deleted id and the list does not grow |
| BillStore.DeleteKeepsOthers | src/store/billStore.ts:60-63 | the survivors are exactly the entries with a different id |
| BillStore.DeleteConcat | src/store/billStore.ts:60-63 | deleting from a concatenation deletes from each part, so survivors keep their relative order |
| BillStore.DeleteCount | src/store/billStore.ts:60-63 | the list shrinks by exactly the number of entries carrying the id |
| BillStore.DeleteAbsentIsNoOp | src/store/billStore.ts:60-63 | deleting an id that is not present leaves the list unchanged |
| BillStore.DeleteIdempotent | src/store/billStore.ts:60-63 | deleting the same id twice is the same as deleting it once |
| BillStore.DeletePresentRemovesOne | src/store/billStore.ts:60-63 | with unique ids, deleting the id at position k removes that entry and no other |
| BillStore.DeleteKeepsUnique | src/store/billStore.ts:60-63 | deleting keeps ids unique |
| BillStore.RunStaysWithinCapacity | src/store/billStore.ts:15-63 | from at most 1000 bills, no sequence of adds, updates and deletes takes the store past 1000 |
| BillStore.RunKeepsBillsValid | src/store/billStore.ts:28-63 | if every stored bill passes validation, it still holds after any sequence of adds, updates and deletes |
| BillTimeline.AddMonths | src/components/BillTimeline.tsx:12-16 | advancing by k months gives a valid month k months further on, staying in the year or rolling into the next one as the month count requires |
| BillTimeline.TargetMonths | src/components/BillTimeline.tsx:12-16 | there are exactly 12 target months, and entry i is the month i months after the current one |
| BillTimeline.MonthsDiff | src/components/BillTimeline.tsx:35-36 | the difference is the target's month count minus the bill month's count, and is NaN exactly when the bill date does not parse |
| BillTimeline.Contribution | src/components/BillTimeline.tsx:23-60 | a bill contributes 0, its amount, twice it or four times it, and never a negative amount when its amount is not negative |
| BillTimeline.MonthTotal | src/components/BillTimeline.tsx:19-64 | a month's total is not negative when no amount is negative |
| BillTimeline.MonthlyTotals | src/components/BillTimeline.tsx:19-64 | the projection has exactly 12 totals |
| BillTimeline.MonthlyTotalsEntry | src/components/BillTimeline.tsx:12-22 | entry i of the projection is the sum of all bills' contributions to the calendar month i months after the current one |
| BillTimeline.AccumulateMonth | src/components/BillTimeline.tsx:20-22 | the `forEach` accumulation, starting at 0 and adding each bill's contribution in list order, yields the month's total |
| BillTimeline.ProjectTimeline | src/components/BillTimeline.tsx:19-64 | the component's nested loop computes exactly the projection `MonthlyTotals`, so every projection lemma applies to what it displays |
| BillTimeline.EmptyProjectionIsZero | src/components/BillTimeline.tsx:20-22 | with no bills, all 12 totals are 0 |
| BillTimeline.MonthTotalAppend | src/components/BillTimeline.tsx:20-63 | a month's total over two concatenated bill lists is the sum of the two totals |
| BillTimeline.ProjectionAdditive | src/components/BillTimeline.tsx:19-64 | every one of the 12 totals is additive over concatenated bill lists |
| BillTimeline.OneTimeOnlyInItsMonth | src/components/BillTimeline.tsx:26-32 | a One-time bill adds its amount in the month and year of its date and nothing in any other month |
| BillTimeline.OneTimeInWindow | src/components/BillTimeline.tsx:12-32 | a One-time bill dated in the k-th target month appears at index k of the projection with its amount and contributes 0 at every other index |
| BillTimeline.RecurringSilentBeforeAnchor | src/components/BillTimeline.tsx:35-38 | a recurring bill adds nothing to any month before its anchor month |
| BillTimeline.RecurringFromAnchor | src/components/BillTimeline.tsx:40-60 | from the anchor month on, Weekly adds 4 times the amount, Fortnightly twice, Monthly once, Quarterly the amount exactly when the month difference is a multiple of 3, Yearly exactly when it is a multiple of 12, unknown frequencies nothing |
| BillTimeline.UnparseableDateContribution | src/components/BillTimeline.tsx:23-60 | for a bill whose date does not parse, Weekly adds 4 times the amount, Fortnightly twice, Monthly once, and Quarterly, Yearly, One-time and unknown frequencies nothing |
| BillTimeline.UnknownFrequencyContributesNothing | src/components/BillTimeline.tsx:40-60 | a frequency outside the six listed names contributes 0 whatever the date |
| BillTimeline.PeriodicFromAnchor | src/components/BillTimeline.tsx:50-59 | from the anchor on, a Quarterly bill contributes the same 3 months later and a Yearly bill the same 12 months later |
| BillTimeline.ProjectionNonNegative | src/components/BillTimeline.tsx:19-64 | when no amount is negative, no monthly total is negative |
| BillTimeline.AnchoredNowWindow | src/components/BillTimeline.tsx:12-64 | a lone bill anchored in the current month gives 4a in all 12 months if Weekly, 2a if Fortnightly, a if Monthly, a at months 0, 3, 6, 9 only if Quarterly, and a at month 0 only if Yearly or One-time |
| BillForm.ValidateForm | src/components/BillForm.tsx:41-71 | each field gets an error exactly when its check fails (name trimming to nothing or, untrimmed, over 100 characters; amount not parsing or negative; date empty or not parsing; category or frequency empty), with the message the failing check selects |
| BillForm.FormValidIff | src/components/BillForm.tsx:69-70 | the form is valid exactly when every field passes its own check |
| BillForm.BlankNameRejected | src/components/BillForm.tsx:44-45 | a name of whitespace only makes the form invalid with the "Name is required" message |
| BillForm.StoreAcceptsBlankName | src/store/billStore.ts:7 | for every whitespace-only name of 1 to 100 characters on an otherwise valid bill, the store's check passes it while the form rejects it |
| BillForm.HandleSubmit | src/components/BillForm.tsx:73-106 | an invalid form calls nothing and keeps its texts; a valid one hands over the trimmed name, parsed amount and other texts, to the edit callback with the edited bill's id exactly when a bill is being edited and an edit callback exists, and then resets the form and clears the errors |
| BillForm.DefaultFormSelections | src/components/BillForm.tsx:19-25 | the empty form selects the first category, Power, and the frequency Monthly |
| BillForm.DefaultFormInvalid | src/components/BillForm.tsx:98-105 | the form after a reset is itself invalid, its name being empty |
| BillForm.SubmittedDataPassesStore | src/components/BillForm.tsx:80-95 | whatever a valid form submits passes the store's validation |
| BillForm.SubmitThenAdd | src/app/page.tsx:14-16 | a valid new bill submitted to a store below capacity is appended with the trimmed name and parsed amount under the supplied id |
| BillForm.SubmitThenUpdate | src/app/page.tsx:22-25 | a valid edit of the bill at position k of a store with unique ids replaces that bill only, under the same id |

## Left out

- Persistence: the `persist` middleware, local storage and the `version: 1` tag (src/store/billStore.ts:24-26, 65-69) are library behaviour. The model's state is just the bill list.
- Id generation: `Date.now().toString()` reads the clock, so the id is a parameter of `AddBill`. The source does not guarantee that ids are unique.
- Date and number parsing: `Date.parse`, `new Date(text)` and `parseFloat` are runtime functions, so they become the `DateParser` and `NumberParser` parameters. The model does not cover which texts they accept, the UTC-versus-local month shift of `new Date("YYYY-MM-DD")`, or the `setMonth` overflow when today's day of month is past the end of a target month.
- BillStore.ValidateBill: amounts are exact reals, so the model never sees the NaN or Infinity that pass `typeof amount === 'number'` and `amount < 0`.
- BillTimeline.Contribution: totals are exact real sums, so the model does not cover floating-point rounding.
- BillTimeline.AddMonths: only the year and month of "now" are used; the day of the month is not modelled.
- Name length is counted in Unicode scalar values, while JavaScript counts UTF-16 code units. Names with characters outside the Basic Multilingual Plane are therefore measured differently.
- The TypeScript types that restrict `category` and `frequency` to the listed names are compile-time only. At run time both are plain strings, and that is how the model treats them.
- Rendering of the timeline: the bar heights and colours (`Math.max`, `Math.round`), the month labels and the amount formatting are presentation only.
- BillForm.HandleSubmit: models the submit handler only. The browser's constraint validation runs first and blocks some texts the model would submit: the `required` name, amount and date inputs, `min="0"` and `step="0.01"` on the amount (so `"1.234"` never reaches the handler), `type="date"` limiting dates to `YYYY-MM-DD`, and the two selects limiting category and frequency to the listed names (src/components/BillForm.tsx:115-200). Browser behaviour is not part of this model.
- The `useEffect` that loads the edited bill into the form (src/components/BillForm.tsx:29-39) is outside the modelled data path. `e.preventDefault()` is not modelled either.
- `console.error` diagnostics are logging only.
