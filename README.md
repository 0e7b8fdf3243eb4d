# Human Being management front end — a Dafny model

This project models the logic of a small React front end that lists, creates,
edits and deletes "Human Being" records through a REST backend. It also has a
page of bulk operations. Four parts of the front end carry real logic, and each
becomes one Dafny module:

- `HumanBeingTable` (HumanBeingTable.dfy). The table's derived values, as pure
  functions over exact integers:
  - the page count `ceil(total/size)` and the current page;
  - the five-wide window of page buttons, clamped at both ends;
  - the enabled state of Previous and Next;
  - the "Showing a to b of n" range;
  - whether the pagination bar is shown, the empty-state hint and the badge colours.

  Lemmas prove the window's length, its range, that it is consecutive and that
  it contains the current page, that the window equals a clamped range of
  pages, and that the "Showing" range is a non-empty slice of at most one page.
- `Home` (HomePage.dfy). The list page as a class, `Home.HomePage`, with the
  page's state fields. Each backend call is split into two steps:
  - a method that issues the request and returns it as a value;
  - a method that takes the response (or the failure) as a parameter.

  The contracts say what every handler sets. They also show that a
  successful create, update or delete always reloads page 0.
- `SpecialOperations` (SpecialOperations.dfy). The bulk-operation page:
  - the operations table;
  - the per-operation input map and its update;
  - the rule that keeps an Execute button disabled;
  - the `loading`/`result` state of a run, in class `SpecialOperationsPage`;
  - the result message.

  When no soundtrack name contains a newline, the grouping message is proved
  to split back into its header and one line per entry, in entry order.
- `HumanBeingForm` (HumanBeingForm.dfy). The form's declared rules as a rule
  table, the `defaultValues` taken from an existing record, and the submit
  caption. A lemma proves that the form accepts its values exactly when the
  declared rules hold. Other lemmas give the boundary cases: x = 15 passes and
  16 fails, y = 277 passes and 277.01 fails, impact speed = 664 passes and
  664.01 fails. Nothing has a lower bound.

Shared modules:
- `Types` (Types.dfy): the records of `src/types.ts`.
- `Text` (Text.dfy): JavaScript's `join` and the decimal rendering of an
  integer, both used by the result messages. `split` on one character and
  integer parsing are added as their inverses, with round-trip lemmas, so that
  the messages' contents can be stated.
- `Wrappers` (Wrappers.dfy): `Option`.

Coordinates `y` and `impactSpeed` are Dafny `real`, which is exact rational
arithmetic. Coordinate `x`, ids, counts and page numbers are unbounded `int`.

Notes on the code's behaviour:
- After a create, update or delete, the code reloads page 0. It does not
  reload the current page (`loadHumanBeings()` defaults to page 0).
- The grouping banner starts with the line `Grouping completed:`, followed by
  the entry lines.
- `executeOperation` has no guard against a second run. Only the disabled
  Execute buttons prevent one, and the model shows that every button is
  disabled while any listed operation runs.
- The form displays only the name's error message. The x, y, impact-speed
  and weapon-type errors block submission without any visible message.
- A failed operation's banner shows the error's own `message`. The axios
  instance has no interceptor, so for an HTTP failure this is axios's text
  ("Request failed with status code 500", "Network Error"), not the message
  in the backend's response body.
- A search with no matches shows "Start by creating your first human being":
  the filtered total is 0, and the hint tests only the total. "Try adjusting
  your search criteria" appears only for an empty page whose total is not 0.
- The form has no inputs for `realHero` and `soundtrackName`. A new record can
  pass validation without them, although the create request declares both
  required.

## Model

| member | source | states |
|---|---|---|
| `Types.WeaponTypeValues` | src/types.ts:19-24 | The options list has four distinct strings and includes every weapon type's value. |
| `Types.ParseWeaponType` | src/types.ts:19-24 | A string names a weapon type exactly when it is one of the enum's values, and the name maps back to that string. |
| `Types.WeaponTypeNameRoundTrip` | src/types.ts:19-24 | Reading back a weapon type's string value gives the same weapon type. |
| `Types.WeaponTypeName` | src/types.ts:19-24 | No contract of its own: each member's string value; see `Types.WeaponTypeValues`, `Types.WeaponTypeNameRoundTrip`. |
| `Types.RequestFields` | src/types.ts:26-50 | No contract of its own: a record without id and creation date; see `Types.RecordIsRequestPlusIdentity`, `HumanBeingForm.DefaultValuesCopyRequestFields`. |
| `Types.StoredKeepsRequestFields` | src/types.ts:26-50 | A record built from a create request plus a backend id and date has exactly the request's fields, and that id and date. |
| `Types.RecordIsRequestPlusIdentity` | src/types.ts:26-50 | Every record is its nine request fields together with its id and creation date. |
| `Text.Split` | src/pages/SpecialOperationsPage.tsx:42 | The inverse of the `join('\n')`: splitting always yields at least one part, and no part contains the separator. |
| `Text.Join` | src/pages/SpecialOperationsPage.tsx:42 | No contract of its own; `Text.SplitJoin` shows that `Split` undoes it. |
| `Text.SplitJoin` | src/pages/SpecialOperationsPage.tsx:40-43 | Splitting on the separator undoes a join of a non-empty list of parts that do not contain it. |
| `Text.SplitAfterHeader` | src/pages/SpecialOperationsPage.tsx:43 | A header, a separator, then joined parts split into the header followed by the parts. |
| `Text.IntDecimal` | src/pages/SpecialOperationsPage.tsx:41 | No contract of its own; see `Text.IntDecimalRoundTrip` and `Text.IntDecimalCharacters`. |
| `Text.NatDecimal` | src/pages/SpecialOperationsPage.tsx:41 | The rendering of a count is non-empty, all digits, and has no leading zero. |
| `Text.IntDecimalRoundTrip` | src/pages/SpecialOperationsPage.tsx:41 | Parsing the rendering of any integer gives that integer back. |
| `Text.IntDecimalCharacters` | src/pages/SpecialOperationsPage.tsx:41 | A rendered count holds only digits, with an optional leading minus sign. |
| `HumanBeingTable.CeilDiv` | src/components/tables/HumanBeingTable.tsx:29 | The result q is the ceiling of a/b: (q-1)·b < a ≤ q·b. |
| `HumanBeingTable.CeilDivUnique` | src/components/tables/HumanBeingTable.tsx:29 | Only one integer satisfies that bracketing, so CeilDiv is exactly the ceiling. |
| `HumanBeingTable.TotalPages` | src/components/tables/HumanBeingTable.tsx:29 | 0 without pagination; otherwise the ceiling of total/size. |
| `HumanBeingTable.TotalPagesSign` | src/components/tables/HumanBeingTable.tsx:29 | No records gives 0 pages, some records give at least one page, and a non-negative total never gives a negative count. |
| `HumanBeingTable.CurrentPage` | src/components/tables/HumanBeingTable.tsx:30 | No contract of its own: the reported page, or 0 without pagination; see `HumanBeingTable.ControlsConsistent`. |
| `HumanBeingTable.ArrayLength` | src/components/tables/HumanBeingTable.tsx:218 | No contract of its own: a negative length gives no buttons; see `HumanBeingTable.PageWindow`. |
| `HumanBeingTable.PageNumber` | src/components/tables/HumanBeingTable.tsx:219-228 | No contract of its own; see `HumanBeingTable.WindowShape`, `HumanBeingTable.PageWindow`. |
| `HumanBeingTable.WindowShape` | src/components/tables/HumanBeingTable.tsx:218-228 | Each button's number is the window start plus its position, the run lies within [0, totalPages), and it covers the current page when that page exists. |
| `HumanBeingTable.PageWindow` | src/components/tables/HumanBeingTable.tsx:218-228 | The window's length and contents. Length is min(5, totalPages), or 0 for a negative count. Every entry is in [0, totalPages-1] for any current page. Entries are consecutive and strictly increasing, so the keys are distinct. A current page in range is always included. |
| `HumanBeingTable.PageWindowIsClampedRange` | src/components/tables/HumanBeingTable.tsx:218-228 | The window is the consecutive run of pages starting two before the current page, clamped to [0, totalPages-5]. |
| `HumanBeingTable.CurrentPageCentred` | src/components/tables/HumanBeingTable.tsx:222-228 | With more than five pages and 2 ≤ page ≤ totalPages-3, the current page is the middle button. |
| `HumanBeingTable.PrevDisabled` | src/components/tables/HumanBeingTable.tsx:211 | No contract of its own; see `HumanBeingTable.NavigationStaysInRange`. |
| `HumanBeingTable.NextDisabled` | src/components/tables/HumanBeingTable.tsx:248 | No contract of its own; see `HumanBeingTable.NavigationStaysInRange`, `HumanBeingTable.NextDisabledIffLastRecordShown`. |
| `HumanBeingTable.NavigationStaysInRange` | src/components/tables/HumanBeingTable.tsx:207-252 | On an existing page, Previous is disabled iff it is the first page and Next iff it is the last. An enabled button leads to an existing page. |
| `HumanBeingTable.ShowingFirst` | src/components/tables/HumanBeingTable.tsx:199 | No contract of its own; see `HumanBeingTable.ShowingRangeBounds`. |
| `HumanBeingTable.ShowingLast` | src/components/tables/HumanBeingTable.tsx:201 | No contract of its own; see `HumanBeingTable.ShowingRangeBounds`. |
| `HumanBeingTable.ShowingRangeBounds` | src/components/tables/HumanBeingTable.tsx:199-201 | On an existing page: 1 ≤ first ≤ last ≤ total, and last-first+1 ≤ size. |
| `HumanBeingTable.NextDisabledIffLastRecordShown` | src/components/tables/HumanBeingTable.tsx:199-248 | On an existing page, Next is disabled exactly when the "Showing" range ends at the total. |
| `HumanBeingTable.PaginationControls` | src/components/tables/HumanBeingTable.tsx:195-256 | The bar is shown iff pagination and the page callback are present and there are more than one page. When shown it has at least two page buttons. |
| `HumanBeingTable.ControlsConsistent` | src/components/tables/HumanBeingTable.tsx:195-252 | A shown bar on an existing page has a proper range, highlights a page in its window, and has at least one of Previous/Next enabled. |
| `HumanBeingTable.Render` | src/components/tables/HumanBeingTable.tsx:61-85 | Loading shows the spinner and an empty list shows the empty state. The "start by creating" hint appears exactly when pagination reports total 0. Otherwise the rows are shown with the pagination bar. |
| `HumanBeingTable.MoodColor` | src/components/tables/HumanBeingTable.tsx:42-49 | No contract of its own; see `HumanBeingTable.BadgeColours`. |
| `HumanBeingTable.WeaponColor` | src/components/tables/HumanBeingTable.tsx:51-59 | No contract of its own; see `HumanBeingTable.BadgeColours`. |
| `HumanBeingTable.BadgeColours` | src/components/tables/HumanBeingTable.tsx:42-59 | Weapon types get pairwise distinct colours, so do moods. A missing mood shares Gloom's colour. |
| `HumanBeingTable.TwentyFiveRecordsScenario` | src/components/tables/HumanBeingTable.tsx:29-252 | Size 10 with 25 records at page 0 gives 3 pages, Previous disabled, Next enabled, window [0,1,2], and "Showing 1 to 10". |
| `HumanBeingForm.DefaultValues` | src/components/forms/HumanBeingForm.tsx:20-30 | Without initial data, the form starts empty. |
| `HumanBeingForm.EmptyForm` | src/components/forms/HumanBeingForm.tsx:30 | No contract of its own: the empty defaults; see `HumanBeingForm.DefaultValues`, `HumanBeingForm.EmptyFormErrors`. |
| `HumanBeingForm.ToRequest` | src/components/forms/HumanBeingForm.tsx:19 | The values read as a create request exactly when every non-optional request field is present. The name and optional fields carry over. |
| `HumanBeingForm.DefaultValuesCopyRequestFields` | src/components/forms/HumanBeingForm.tsx:20-30 | The defaults of a record read back as exactly that record's nine request fields. |
| `HumanBeingForm.DefaultValuesIgnoreIdentity` | src/components/forms/HumanBeingForm.tsx:20-30 | The defaults do not depend on the record's id or creation date. |
| `HumanBeingForm.SubmitLabel` | src/components/forms/HumanBeingForm.tsx:121 | The caption is "Update" iff there is initial data, and "Create" otherwise. |
| `HumanBeingForm.OptionsOf` | src/components/forms/HumanBeingForm.tsx:40-105 | The rule table, one entry per registered field. No contract of its own; see `HumanBeingForm.ValidateAcceptsExactlyDeclaredRules`. |
| `HumanBeingForm.CheckField` | src/components/forms/HumanBeingForm.tsx:52-55 | The required rule is checked before the max rule. No contract of its own; see `HumanBeingForm.XBoundary`. |
| `HumanBeingForm.ValueOf` | src/components/forms/HumanBeingForm.tsx:40-105 | No contract of its own: what each input's rule sees, empty or not and the number for `max`; see `HumanBeingForm.ErrorsForMembership`. |
| `HumanBeingForm.ErrorsFor` | src/components/forms/HumanBeingForm.tsx:40-105 | No contract of its own: the field-by-field pass in registration order; see `HumanBeingForm.ErrorsForMembership`. |
| `HumanBeingForm.Validate` | src/components/forms/HumanBeingForm.tsx:40-105 | No contract of its own; see `HumanBeingForm.ValidateAcceptsExactlyDeclaredRules`, `HumanBeingForm.EmptyFormErrors`. |
| `HumanBeingForm.ErrorsForMembership` | src/components/forms/HumanBeingForm.tsx:40-105 | An error is reported for a field exactly when it is a checked field whose value breaks its rule, with that rule's message. |
| `HumanBeingForm.ValidateAcceptsExactlyDeclaredRules` | src/components/forms/HumanBeingForm.tsx:40-105 | No errors iff: name non-empty, x given and ≤ 15, y given and ≤ 277, impact speed given and ≤ 664, weapon type chosen. |
| `HumanBeingForm.NameRequired` | src/components/forms/HumanBeingForm.tsx:40 | An empty name is rejected with "Name is required", and is the only error. |
| `HumanBeingForm.XBoundary` | src/components/forms/HumanBeingForm.tsx:52-55 | x = 15 is accepted. x = 16 is rejected with "X cannot exceed 15". A blank x gives "X is required". |
| `HumanBeingForm.YBoundary` | src/components/forms/HumanBeingForm.tsx:64-67 | y = 277 is accepted. y = 277.01 is rejected with "Y cannot exceed 277". A blank y gives "Y is required". |
| `HumanBeingForm.ImpactSpeedBoundary` | src/components/forms/HumanBeingForm.tsx:79-82 | 664 is accepted and 664.01 rejected, with the max message. A blank value gives the required message. |
| `HumanBeingForm.WeaponTypeRequiredMoodFree` | src/components/forms/HumanBeingForm.tsx:91-105 | The weapon-type placeholder is rejected with "Weapon type is required". An unchosen mood is accepted. |
| `HumanBeingForm.NoLowerBounds` | src/components/forms/HumanBeingForm.tsx:52-82 | Lowering x, y or impact speed in accepted values keeps them accepted. |
| `HumanBeingForm.EmptyFormErrors` | src/components/forms/HumanBeingForm.tsx:30-105 | An empty form reports the five required-field messages, in registration order. |
| `HumanBeingForm.DefaultValuesValid` | src/components/forms/HumanBeingForm.tsx:20-82 | A record's defaults pass validation exactly when the record has a non-empty name and keeps the three upper bounds. |
| `HumanBeingForm.SubmitWithoutHiddenFields` | src/components/forms/HumanBeingForm.tsx:19-105 | Values that keep every declared rule but lack realHero or soundtrackName still reach onSubmit unchanged, though they do not form a create request. |
| `HumanBeingForm.EmptyDefaultsSubmitIncompleteRequest` | src/components/forms/HumanBeingForm.tsx:19-105 | A new record with only the five checked inputs filled passes validation but is not a create request. |
| `HumanBeingForm.HandleSubmit` | src/components/forms/HumanBeingForm.tsx:34 | The values reach onSubmit, unchanged, exactly when the declared rules hold. |
| `Home.SearchParameter` | src/pages/HomePage.tsx:24 | The search parameter is absent iff the term is empty, and the term itself otherwise. |
| `Home.HomePage.constructor` | src/pages/HomePage.tsx:11-16 | Initial state: empty list, page 0, size 10, total 0, empty search, form closed, nothing edited, not loading. |
| `Home.HomePage.BeginLoad` | src/pages/HomePage.tsx:18-25 | Sets loading and changes nothing else. The request carries the given page, the current size and the search parameter. |
| `Home.HomePage.LoadSucceeded` | src/pages/HomePage.tsx:26-35 | The list becomes response.content, page becomes response.number and total becomes response.totalElements. Size is kept and loading is cleared. |
| `Home.HomePage.LoadFailed` | src/pages/HomePage.tsx:32-36 | Only loading is cleared; the list and pagination are unchanged. |
| `Home.HomePage.ChangeSearchTerm` | src/pages/HomePage.tsx:39-41 | A changed term triggers a load of page 0 with the new term. An unchanged term triggers nothing. |
| `Home.HomePage.HandleCreate` | src/pages/HomePage.tsx:43-45 | Issues a create call with the form data and changes no state before the answer. |
| `Home.HomePage.HandleUpdate` | src/pages/HomePage.tsx:58-62 | Does nothing without an edited record. Otherwise issues an update whose path id and payload id are the edited record's id. |
| `Home.HomePage.Submit` | src/pages/HomePage.tsx:134-140 | The submit handler is update iff a record is being edited, and create otherwise. The form's caption reads "Update" exactly in the update case. |
| `Home.HomePage.CreateSucceeded` | src/pages/HomePage.tsx:46-47 | Closes the form and reloads page 0. |
| `Home.HomePage.UpdateSucceeded` | src/pages/HomePage.tsx:63-65 | Closes the form, clears the edited record and reloads page 0. |
| `Home.HomePage.HandleDelete` | src/pages/HomePage.tsx:71-74 | Issues the delete call exactly when the user confirmed. |
| `Home.HomePage.DeleteSucceeded` | src/pages/HomePage.tsx:74-75 | Reloads page 0. |
| `Home.HomePage.Edit` | src/pages/HomePage.tsx:53-56 | Sets the edited record and opens the form. |
| `Home.HomePage.Add` | src/pages/HomePage.tsx:104-108 | Clears the edited record and opens the form. |
| `Home.HomePage.CloseModal` | src/pages/HomePage.tsx:128-131 | Closes the form and clears the edited record. |
| `Home.HomePage.CancelForm` | src/pages/HomePage.tsx:136-139 | Closes the form and clears the edited record. |
| `Home.HomePage.FormInitialData` | src/pages/HomePage.tsx:140 | No contract of its own: the record being edited, if any; see `Home.HomePage.Submit`, whose caption clause uses it. |
| `Home.HomePage.Table` | src/pages/HomePage.tsx:116-123 | No contract of its own: the table rendered from the page's state; see `HumanBeingTable.Render`. |
| `Home.HomePage.ModalTitle` | src/pages/HomePage.tsx:132 | The title is "Edit Human Being" iff a record is being edited, and "Create Human Being" otherwise. |
| `SpecialOperations.OperationsTableShape` | src/pages/SpecialOperationsPage.tsx:64-118 | The five ids are non-empty and distinct. Only the two deletions declare inputs: one required select over the weapon types. |
| `SpecialOperations.WeaponTypeChoices` | src/pages/SpecialOperationsPage.tsx:75 | Every select choice names a weapon type, and every weapon type is a choice. |
| `SpecialOperations.WithInput` | src/pages/SpecialOperationsPage.tsx:54-62 | Sets data[op][field] = value. Every other operation and every other field of op keeps its value. No key is lost. |
| `SpecialOperations.IsOperationDisabled` | src/pages/SpecialOperationsPage.tsx:120-127 | No contract of its own; see `SpecialOperations.DisabledAfterInputChange`, `SpecialOperations.InputChangeIsLocal`. |
| `SpecialOperations.InputChangeIsLocal` | src/pages/SpecialOperationsPage.tsx:120-127 | Typing into one operation's inputs never changes whether another operation is disabled. |
| `SpecialOperations.DisabledAfterInputChange` | src/pages/SpecialOperationsPage.tsx:120-127 | After an input change, an operation with inputs is disabled iff some required input is still missing: the edited one if its value is empty, or another. |
| `SpecialOperations.WeaponTypeSelectionScenario` | src/pages/SpecialOperationsPage.tsx:120-127 | Delete-by-weapon starts disabled, a chosen weapon type enables it, and the placeholder disables it again. The grouping operation, which has no inputs, is never disabled. |
| `SpecialOperations.InputsOf` | src/pages/SpecialOperationsPage.tsx:123 | No contract of its own: an operation's typed values, or none; see `SpecialOperations.WithInput`, `SpecialOperations.DisabledAfterInputChange`. |
| `SpecialOperations.Missing` | src/pages/SpecialOperationsPage.tsx:125 | No contract of its own: an input is absent or empty; see `SpecialOperations.DisabledAfterInputChange`. |
| `SpecialOperations.Running` | src/pages/SpecialOperationsPage.tsx:196 | No contract of its own; see `SpecialOperations.RunningLocksEveryButton`. |
| `SpecialOperations.ExecuteDisabled` | src/pages/SpecialOperationsPage.tsx:196 | No contract of its own; see `SpecialOperations.RunningLocksEveryButton`. |
| `SpecialOperations.SpecialOperationsPage.ExecuteButtonDisabled` | src/pages/SpecialOperationsPage.tsx:196 | No contract of its own: `ExecuteDisabled` on the page's state; see `SpecialOperations.RunningLocksEveryButton`. |
| `SpecialOperations.RunningLocksEveryButton` | src/pages/SpecialOperationsPage.tsx:196 | While any listed operation is loading, every Execute button is disabled. |
| `SpecialOperations.ExecuteArgument` | src/pages/SpecialOperationsPage.tsx:35 | execute gets the operation's stored inputs iff it declares inputs and some were typed. Otherwise it gets undefined. |
| `SpecialOperations.GroupingLines` | src/pages/SpecialOperationsPage.tsx:40-41 | One line per entry, in entry order, each "k: v human beings". |
| `SpecialOperations.EntryLine` | src/pages/SpecialOperationsPage.tsx:41 | No contract of its own; see `SpecialOperations.GroupingLines`, `SpecialOperations.GroupingScenario`. |
| `SpecialOperations.GroupingHeader` | src/pages/SpecialOperationsPage.tsx:43 | No contract of its own: the first line of the grouping banner; see `SpecialOperations.GroupingMessageLines`. |
| `SpecialOperations.GroupingMessage` | src/pages/SpecialOperationsPage.tsx:40-43 | No contract of its own; see `SpecialOperations.GroupingMessageLines`. |
| `SpecialOperations.SuccessMessage` | src/pages/SpecialOperationsPage.tsx:45 | No contract of its own; see `SpecialOperations.ResultBanner`. |
| `SpecialOperations.ErrorMessage` | src/pages/SpecialOperationsPage.tsx:48 | No contract of its own; see `SpecialOperations.ErrorMessageCarriesCause`. |
| `SpecialOperations.ResultBanner` | src/pages/SpecialOperationsPage.tsx:38-48 | The banner is an error iff the run failed, or the grouping run returned no value. Failure text: "Error during <title>: <msg>". Other operations: "<title> completed successfully!". Grouping: the grouping message. |
| `SpecialOperations.ErrorMessageCarriesCause` | src/pages/SpecialOperationsPage.tsx:48 | The error text begins with the operation's title prefix and ends with the rejection's `message`, unchanged. |
| `SpecialOperations.GroupingMessageLines` | src/pages/SpecialOperationsPage.tsx:40-43 | With no newline in any soundtrack name, the message splits into "Grouping completed:" followed by the entry lines in order. With no entries it is the header and a newline. |
| `SpecialOperations.GroupingScenario` | src/pages/SpecialOperationsPage.tsx:40-43 | {"Imagine": 3, "Bohemian Rhapsody": 1} renders as "Grouping completed:\nImagine: 3 human beings\nBohemian Rhapsody: 1 human beings". |
| `SpecialOperations.SpecialOperationsPage.constructor` | src/pages/SpecialOperationsPage.tsx:25-27 | Nothing loading, no result, no input values. |
| `SpecialOperations.SpecialOperationsPage.HandleInputChange` | src/pages/SpecialOperationsPage.tsx:54-62 | The input map becomes WithInput of the old one. Loading and result are unchanged. |
| `SpecialOperations.SpecialOperationsPage.BeginExecute` | src/pages/SpecialOperationsPage.tsx:29-36 | loading := the op id and result := none. Returns the argument execute receives. |
| `SpecialOperations.SpecialOperationsPage.FinishExecute` | src/pages/SpecialOperationsPage.tsx:37-51 | loading := none on success and failure alike. result := the banner for the outcome. |

## Left out

- `src/services/api.ts` is not part of this model. The HTTP wrappers hold only path strings. Requests are returned as values and responses passed in as parameters.
- `src/App.tsx` and `src/components/layout/Navigation.tsx` are not part of this model. They hold only routing and link highlighting.
- JSX markup, CSS class strings (except the badge colours), and icons are left out. The operations' descriptions are kept as data in `Operation.description`; only how they are rendered is left out.
- `formatDate` and `toFixed(2)` are left out: locale date formatting and floating-point display.
- Async interleaving is left out, because it is concurrency. Each request and each response is one atomic step, so a stale response overwriting a newer one is not modelled.
- `window.confirm` becomes the `confirmed` parameter of `HandleDelete`. `console.error` is dropped, so a failed create, update or delete changes no state and needs no method.
- The effect that loads page 0 on first render is the same step as `BeginLoad(0)` and has no method of its own.
- The operations' `execute` functions, the backend calls behind them, are not modelled. A run's outcome is an input to `FinishExecute`.
- react-hook-form internals are left out: coercing strings to numbers and the HTML `step` attribute. Only the declared rules are modelled. The defaults of fields without an input (`realHero`, `hasToothpick`, `car`, `soundtrackName`) stay in the form values, and `HandleSubmit` passes them through unchanged, as react-hook-form does with `defaultValues`. An empty number input or unchosen select is `None`, and an empty name is `""`.
- HumanBeingTable.TotalPages: requires a positive page size. With size 0, JavaScript gives Infinity or NaN, which integers cannot represent. `PaginationControls` and `Render` carry the same requirement. The list page always uses size 10.
- SpecialOperations.GroupingLines: takes the entries in the order `Object.entries` lists them, so JavaScript's ordering of integer-like keys first is not modelled. Counts are unbounded integers, so exponent notation for counts of 10^21 or more is not rendered.
- SpecialOperations.ResultBanner: a grouping run that resolves without a value gives an error banner. Its text uses the TypeError wording of the V8 engine, which differs between engines.
- `getWeaponColor`'s default branch can only be reached by a value outside the enum, so it is not modelled.
