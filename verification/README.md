# SuperRider merchant dashboard — a Dafny model of its order logic

This project models the logic of the SuperRider merchant dashboard, a Next.js/React front end:

- **The order store.** Two lists of orders, active and completed. New orders are prepended to the active list. An operation rewrites the status of the active orders with a given id.
- **The orders page.** It selects a partition, searches it case-insensitively, sorts it by creation time in place, and splits the result back by status.
- **The new-order form.** An item list edited line by line, five ordered checks, and a reset after a successful submission.
- **The sign-up wizard.** Two validation steps and a two-state step counter.
- **The login page.** Two ordered emptiness checks.
- **The active-order card.** A guard that lets the interface make one status change only, Preparing → Waiting for Pickup, and a badge colour per status.

Pure logic is modelled with datatypes, functions and lemmas. State the source updates is modelled with classes:

- `OrderStore.Store` holds the two order lists.
- `NewOrderForm.NewOrderForm`, `Signup.SignupPage` and `Login.LoginPage` hold component state.

The page's in-place `Array.prototype.sort` is modelled as an insertion sort on an `array`. When the page sorts the store's own list (filter "active" or "completed" with a blank query), the sorted array is written back into the store.

The store invariant `OrderStore.ValidState` has three parts:

- order ids are unique across both lists;
- every id has the form `ORD-nnn`, with a number of at most the active count plus 100, so the next id created is fresh;
- every completed order is Delivered.

The seed data establishes this invariant, and every state-changing operation preserves it.

Modelling choices:

- **Clock values are parameters.** `now` is the creation time in milliseconds, and `pickupTime` is the locale time string. `createdAt` is an integer timestamp. The seed orders' ISO dates are converted to milliseconds.
- **Prices are integer cents.**
- **`toLowerCase` covers the ASCII letters only.**
- **`trim` and the regular-expression class `\s` use the ECMAScript white-space and line-terminator set.**

## Model

| member | source | states |
|---|---|---|
| Text.Trim | src/app/orders/page.tsx:42 | `trim()`: removes the leading and then the trailing white space; its meaning is stated by `Text.TrimStart`, `Text.TrimEnd` and `Text.TrimEmptyIffBlank` |
| Text.TrimStart | src/app/orders/page.tsx:42 | the result is a suffix of the input, the removed prefix is all white space, and the result does not start with white space |
| Text.TrimEnd | src/app/orders/page.tsx:42 | the result is a prefix of the input, the removed suffix is all white space, and the result does not end with white space |
| Text.TrimEmptyIffBlank | src/app/signup/page.tsx:107-113 | `x.trim()` is empty exactly when every character of `x` is white space |
| Text.Lower | src/app/orders/page.tsx:44-53 | `toLowerCase()` on ASCII letters, character by character (see "## Left out" for the letters outside ASCII) |
| Text.Contains | src/app/orders/page.tsx:44-53 | `includes`: a scan from the front; `Text.ContainsIffOccurs` states that it succeeds exactly when the needle occurs |
| Text.ContainsIffOccurs | src/app/orders/page.tsx:45-53 | the `includes` scan succeeds exactly when the needle occurs at some index of the haystack |
| Text.IntString | src/stores/orderStore.tsx:174 | `${n}` for an integer: a minus sign before a negative number's numeral; for naturals it is `Text.Decimal` |
| Text.Decimal | src/stores/orderStore.tsx:170 | `String(n)` is a non-empty string of digits |
| Text.ValueOfDecimal | src/stores/orderStore.tsx:170 | reading back the numeral of `n` gives `n` |
| Text.DecimalAtLeastThreeDigits | src/stores/orderStore.tsx:170 | numbers from 100 on have at least three digits |
| Text.Repeat | src/stores/orderStore.tsx:170 | the fill has the requested length and consists of the fill character |
| Text.PadStart | src/stores/orderStore.tsx:170 | `padStart` gives the longer of the input and the width, ends with the input, and is filled in front |
| Text.ValueLeadingZero | src/stores/orderStore.tsx:170 | a leading zero keeps a numeral's value |
| Text.ValueLeadingZeros | src/stores/orderStore.tsx:170 | any number of leading zeros keeps a numeral's value |
| Text.Join | src/stores/orderStore.tsx:173-175 | `join(sep)`: the elements with one separator between neighbours; `Text.JoinAppend` states how it splits over a concatenation |
| Text.JoinAppend | src/stores/orderStore.tsx:173-175 | joining two non-empty lists is joining each with one separator between them |
| OrderStore.OrderId | src/stores/orderStore.tsx:169-170 | "ORD-" + `String(n).padStart(3, "0")`; `OrderStore.ParseOrderIdRoundTrip`, `OrderStore.OrderIdInjective` and `OrderStore.OrderIdUnpadded` state what it means |
| OrderStore.ItemLabel | src/stores/orderStore.tsx:174 | the label "{quantity}x {name}" of one item |
| OrderStore.ItemsSummary | src/stores/orderStore.tsx:173-175 | the item labels joined by ", "; `OrderStore.ItemsSummarySingle` and `OrderStore.ItemsSummaryAppend` state what it means |
| OrderStore.ParseOrderIdRoundTrip | src/stores/orderStore.tsx:169-170 | every generated id reads back as its running number |
| OrderStore.OrderIdInjective | src/stores/orderStore.tsx:169-170 | distinct running numbers give distinct ids |
| OrderStore.OrderIdUnpadded | src/stores/orderStore.tsx:170 | from 100 on, `padStart(3, "0")` never pads |
| OrderStore.ItemsSummarySingle | src/stores/orderStore.tsx:173-175 | one item is summarised as its own "{quantity}x {name}" label |
| OrderStore.ItemsSummaryAppend | src/stores/orderStore.tsx:173-175 | the summary of a concatenation is the two summaries joined by ", " |
| OrderStore.NewOrder | src/stores/orderStore.tsx:165-196 | the new order's id parses back to the active count + 101; its status is Preparing, it has no completed time, and its delivery address is the drop location; name, phone, locations and item list are copied, and it carries the items summary, the pickup time and the creation time |
| OrderStore.NewOrderIdUnpadded | src/stores/orderStore.tsx:168-170 | the new order's id is "ORD-" followed by the plain decimal numeral of active count + 101, with no padding |
| OrderStore.NewOrderIdsDistinct | src/stores/orderStore.tsx:168-170 | orders created at different active counts get different ids |
| OrderStore.FirstOrderExample | src/stores/orderStore.tsx:168-196 | on an empty store, one Pizza ×2 gives id "ORD-101", summary "2x Pizza" and status Preparing |
| OrderStore.SetStatus | src/stores/orderStore.tsx:202-208 | the length, the order and every id are kept; exactly the orders with the id get the new status; no other field changes |
| OrderStore.SetStatusIdempotent | src/stores/orderStore.tsx:204-206 | applying the same status change twice equals applying it once |
| OrderStore.SetStatusAbsent | src/stores/orderStore.tsx:203-207 | an id no active order carries leaves the list unchanged |
| OrderStore.IdSetCons | src/stores/orderStore.tsx:26-27 | the id set of a list with one more order gains that order's id |
| OrderStore.IdSetBound | src/stores/orderStore.tsx:26-27 | a list has no more distinct ids than orders |
| OrderStore.RepeatedHead | src/stores/orderStore.tsx:26-27 | a list whose first id recurs later does not have unique ids |
| OrderStore.FreshHead | src/stores/orderStore.tsx:26-27 | a list whose first id does not recur has unique ids exactly when its tail does |
| OrderStore.UniqueIdsCard | src/stores/orderStore.tsx:26-27 | ids are pairwise distinct exactly when there are as many distinct ids as orders |
| OrderStore.UniqueIdsPermutation | src/app/orders/page.tsx:58-67 | reordering a list keeps its ids unique |
| OrderStore.PrependKeepsValid | src/stores/orderStore.tsx:198-200 | prepending an order with number active count + 101 keeps the store invariant |
| OrderStore.SameIdsKeepsValid | src/stores/orderStore.tsx:202-208 | replacing the active list by one of the same length with the same id at every position keeps the store invariant |
| OrderStore.StatusChangeKeepsValid | src/stores/orderStore.tsx:202-208 | a status change keeps the store invariant |
| OrderStore.PermutationKeepsValid | src/app/orders/page.tsx:58 | reordering either list in place keeps the store invariant |
| OrderStore.ParseThreeDigits | src/stores/orderStore.tsx:43 | a seed id "ORD-" + three digits parses to the value of the digits |
| OrderStore.SeedActive | src/stores/orderStore.tsx:41-102 | the six active seed orders; `OrderStore.SeedIds` and `OrderStore.SeedValid` state their ids and the invariant |
| OrderStore.SeedCompleted | src/stores/orderStore.tsx:103-164 | the six completed seed orders; `OrderStore.SeedCompletedDelivered` states that all are Delivered |
| OrderStore.SeedIds | src/stores/orderStore.tsx:41-164 | the twelve seed orders carry the ids ORD-001 … ORD-012 listed in the seed |
| OrderStore.SeedIdsDistinct | src/stores/orderStore.tsx:41-164 | the twelve seed ids are pairwise distinct |
| OrderStore.SeedIdsBounded | src/stores/orderStore.tsx:41-164 | every seed id has a number of at most 106 |
| OrderStore.SeedUnique | src/stores/orderStore.tsx:41-164 | no two seed orders share an id |
| OrderStore.SeedBounded | src/stores/orderStore.tsx:41-164 | every seed order's number is at most the seed's active count plus 100 |
| OrderStore.SeedCompletedDelivered | src/stores/orderStore.tsx:103-164 | every completed seed order is Delivered |
| OrderStore.SeedValid | src/stores/orderStore.tsx:41-164 | the seed state satisfies the store invariant |
| OrderStore.Store.constructor | src/stores/orderStore.tsx:38-164 | the store starts with the seed lists and satisfies its invariant |
| OrderStore.Store.AddOrder | src/stores/orderStore.tsx:165-201 | the new active list is the new order prepended to the old list; the completed list is untouched; the invariant is kept |
| OrderStore.Store.OrderStatusChange | src/stores/orderStore.tsx:202-208 | the active list becomes `SetStatus` of the old one; the completed list is untouched, so no order moves between lists, even for "Delivered"; the invariant is kept |
| OrdersQuery.Filter | src/app/orders/page.tsx:43-54 | `filter` keeps exactly the elements satisfying the test and yields a sub-multiset of its input |
| OrdersQuery.FilterCount | src/app/orders/page.tsx:43-54 | an element that passes the test occurs in the result as often as in the input, any other element not at all |
| OrdersQuery.FilterAppend | src/app/orders/page.tsx:43-54 | filtering a concatenation is filtering each part and concatenating, so the relative order is kept |
| OrdersQuery.FilterSingle | src/app/orders/page.tsx:43-54 | a single element is kept exactly when it passes the test |
| OrdersQuery.SelectPartition | src/app/orders/page.tsx:26-39 | "active" selects the active list, "completed" the completed list, anything else both lists concatenated |
| OrdersQuery.Matches | src/app/orders/page.tsx:44-53 | the search test as written, with lower-casing and `includes`; `OrdersQuery.MatchesIffMentions` states what it means |
| OrdersQuery.Search | src/app/orders/page.tsx:42-55 | the search step: nothing changes for a blank query, otherwise `filter` with the search test; `OrdersQuery.SearchBlankKeepsAll`, `OrdersQuery.SearchKeepsExactlyMentions` and `OrdersQuery.SearchOnlyRemoves` state what it means |
| OrdersQuery.MatchesIffMentions | src/app/orders/page.tsx:44-53 | the search test holds exactly when the lower-cased query occurs in the items summary, in a present and non-empty drop location, in the delivery address or in the customer name |
| OrdersQuery.SearchBlankKeepsAll | src/app/orders/page.tsx:42 | a query of white space only keeps every order in place |
| OrdersQuery.SearchKeepsExactlyMentions | src/app/orders/page.tsx:42-55 | with a non-blank query, an order is kept exactly when it is in the list and mentions the query |
| OrdersQuery.SearchOnlyRemoves | src/app/orders/page.tsx:43-54 | the search result is a sub-multiset of its input |
| OrdersQuery.Compare | src/app/orders/page.tsx:58-67 | the comparator, `timeA - timeB` for "asc" and `timeB - timeA` otherwise; `OrdersQuery.SortedMeaning` states which order it asks for |
| OrdersQuery.SortedMeaning | src/app/orders/page.tsx:58-67 | sorted "asc" means non-decreasing `createdAt`; otherwise it means non-increasing |
| OrdersQuery.SwapDown | src/app/orders/page.tsx:58 | exchanges two neighbours and leaves the rest and the multiset as they were |
| OrdersQuery.InsertingStep | src/app/orders/page.tsx:58-67 | swapping the element being inserted with a greater left neighbour keeps the rest in order and the element before everything after it |
| OrdersQuery.InsertingDone | src/app/orders/page.tsx:58-67 | once the left neighbour is not greater, the prefix is in order |
| OrdersQuery.InsertAt | src/app/orders/page.tsx:58-67 | extends the sorted prefix by one element and keeps the multiset |
| OrdersQuery.SortByCreatedAt | src/app/orders/page.tsx:58-67 | the array ends sorted by the comparator and is a permutation of what it held |
| OrdersQuery.SortedCopy | src/app/orders/page.tsx:58-67 | the sorted copy is sorted by the comparator and a permutation of the list |
| OrdersQuery.ReplaceActive | src/app/orders/page.tsx:35-58 | the store's active list becomes the given permutation of it; the completed list and the invariant are kept |
| OrdersQuery.ReplaceCompleted | src/app/orders/page.tsx:37-58 | the store's completed list becomes the given permutation of it; the active list and the invariant are kept |
| OrdersQuery.FilteredAndSortedOrders | src/app/orders/page.tsx:31-77 | the result is sorted and is a permutation of the searched partition. With filter "active" or "completed" and a blank query, the store's list becomes the sorted result; otherwise the store is untouched; the invariant is kept |
| OrdersQuery.ActiveSplit | src/app/orders/page.tsx:80-84 | `filteredActiveOrders`: the shown orders with one of the four active statuses; `OrdersQuery.SplitMembership` and `OrdersQuery.SplitSubMultiset` state what it means |
| OrdersQuery.CompletedSplit | src/app/orders/page.tsx:86-88 | `filteredCompletedOrders`: the shown orders that are Delivered; `OrdersQuery.SplitMembership` and `OrdersQuery.SplitSubMultiset` state what it means |
| OrdersQuery.SplitMembership | src/app/orders/page.tsx:80-88 | the active section holds exactly the orders with one of the four active statuses, and the completed section exactly the Delivered ones; the sections are disjoint, and any other status appears in neither |
| OrdersQuery.FilterDisjointSubMultiset | src/app/orders/page.tsx:80-88 | two filters whose tests no order passes together show each order at most as often as the list holds it |
| OrdersQuery.SplitSubMultiset | src/app/orders/page.tsx:80-88 | together the two sections show each order at most as often as the list does |
| OrdersQuery.ShownActiveIsStoreActive | src/app/orders/page.tsx:31-84 | in a reachable state, an order shown as active is one of the store's active orders |
| NewOrderForm.InitialForm | src/components/NewOrderForm.tsx:24-30 | the initial form has exactly one item line |
| NewOrderForm.ItemsInvalid | src/components/NewOrderForm.tsx:106 | `items.some(...)`: some item has no name or a quantity of at most 0; `NewOrderForm.ItemsInvalidIff` states what it means |
| NewOrderForm.ItemsInvalidIff | src/components/NewOrderForm.tsx:106 | the items are invalid exactly when some item has an empty name or a quantity of at most 0 |
| NewOrderForm.ValidateOrderForm | src/components/NewOrderForm.tsx:72-112 | the result is the first failing check in the order pickup, drop, customer name, customer phone, items; no result means that no check fails |
| NewOrderForm.AcceptedInputIsWellFormed | src/components/NewOrderForm.tsx:72-121 | a form that passes has all four fields filled in, and every item has a name and a positive quantity |
| NewOrderForm.OrderTotal | src/components/NewOrderForm.tsx:64-69 | the `reduce` of price times quantity from 0; `NewOrderForm.OrderTotalAppend` and `NewOrderForm.OrderTotalZeroPrices` state what it means |
| NewOrderForm.OrderTotalAppend | src/components/NewOrderForm.tsx:64-69 | the total of a concatenation is the sum of the totals |
| NewOrderForm.OrderTotalZeroPrices | src/components/NewOrderForm.tsx:64-69 | a list whose prices are all zero totals zero |
| NewOrderForm.SetField | src/components/NewOrderForm.tsx:33-35 | only the named field takes the new value |
| NewOrderForm.SetFieldClearsItsCheck | src/components/NewOrderForm.tsx:33-35 | filling a field with text clears that field's check and leaves every other check's outcome unchanged |
| NewOrderForm.ApplyEdit | src/components/NewOrderForm.tsx:38-46 | only the edited field of the item changes |
| NewOrderForm.Without | src/components/NewOrderForm.tsx:59 | filtering out index i removes exactly that position when it is in range, and nothing otherwise |
| NewOrderForm.RemoveItemFrom | src/components/NewOrderForm.tsx:57-62 | `removeItem`'s new list: the list without index i when it has more than one item, else unchanged; `NewOrderForm.RemoveItemKeepsOne` states what it means |
| NewOrderForm.RemoveItemKeepsOne | src/components/NewOrderForm.tsx:57-62 | removal never empties the list, and removes one line only when there are several and the index is in range |
| NewOrderForm.NewOrderForm.constructor | src/components/NewOrderForm.tsx:24-30 | the form starts at its initial value |
| NewOrderForm.NewOrderForm.HandleOrderFormChange | src/components/NewOrderForm.tsx:33-35 | only the named field changes; the list stays non-empty |
| NewOrderForm.NewOrderForm.HandleItemChange | src/components/NewOrderForm.tsx:38-46 | only the named field of item i changes; the list stays non-empty |
| NewOrderForm.NewOrderForm.AddItem | src/components/NewOrderForm.tsx:49-53 | appends {"", 1, 0}, keeps the earlier items, and keeps the total |
| NewOrderForm.NewOrderForm.RemoveItem | src/components/NewOrderForm.tsx:57-62 | removes index i only when there is more than one item, so the list is never empty |
| NewOrderForm.NewOrderForm.HandleSubmitOrder | src/components/NewOrderForm.tsx:72-140 | on the first failing check, nothing changes. Otherwise exactly one order, built from the form's five fields, is prepended to the store; the reported total is the form's total; and the form resets to its initial value |
| Signup.EmailShape | src/app/signup/page.tsx:81 | a scan for the `@` of an address; `Signup.EmailShapeIffPattern` states that it decides `/\S+@\S+\.\S+/.test` |
| Signup.DotTailIff | src/app/signup/page.tsx:81 | the scan after the `@` succeeds exactly when non-white characters, a `.` and a non-white character follow |
| Signup.EmailShapeHasAtSign | src/app/signup/page.tsx:81 | a successful address scan has found an `@` with a non-white character before it and a dotted tail after it |
| Signup.AtSignGivesEmailShape | src/app/signup/page.tsx:81 | any such `@` makes the address scan succeed |
| Signup.EmailShapeIffAtSign | src/app/signup/page.tsx:81 | the address scan succeeds exactly when some `@` has a non-white character before it and a dotted tail after it |
| Signup.AtSignIffPattern | src/app/signup/page.tsx:81 | such an `@` exists exactly when `\S+@\S+\.\S+` matches some substring |
| Signup.EmailShapeIffPattern | src/app/signup/page.tsx:81 | the executable scan decides the unanchored pattern exactly |
| Signup.SetDeliveryType | src/app/signup/page.tsx:65-73 | the named flag takes the new value and the other two keep theirs |
| Signup.ValidateStep1 | src/app/signup/page.tsx:75-104 | `validateStep1`: the five checks in the source's order; `Signup.ValidateStep1FirstFailure` and `Signup.Step1AcceptsExactly` state what it means |
| Signup.ValidateStep1FirstFailure | src/app/signup/page.tsx:75-104 | the step-1 result is the first failing check in the order email present, email matches the pattern, phone present, password of at least 8 characters, password confirmed; no result means that no check fails |
| Signup.Step1AcceptsExactly | src/app/signup/page.tsx:75-104 | step 1 passes exactly when the email matches the pattern, the phone is present, and the password has at least 8 characters and equals its confirmation |
| Signup.UnanchoredExample | src/app/signup/page.tsx:81 | "my shop@store.in" matches, because the pattern is not anchored |
| Signup.DotTailHasDot | src/app/signup/page.tsx:81 | the tail after the `@` contains a `.` |
| Signup.EmailShapeNeedsAtAndDot | src/app/signup/page.tsx:81 | an accepted address has an `@` with a `.` somewhere after it |
| Signup.NoDotRefused | src/app/signup/page.tsx:81 | "shop@store", which has no dot after the `@`, is refused |
| Signup.Step2ChecksMeaning | src/app/signup/page.tsx:107-117 | each step-2 check fails exactly when its condition holds: a blank store name, a blank store location, no delivery type ticked |
| Signup.ValidateStep2 | src/app/signup/page.tsx:106-127 | the result is the first failing check in the order store name not blank, store location not blank, some delivery type ticked; no result means that no check fails |
| Signup.HasDeliveryType | src/app/signup/page.tsx:117 | `Object.values(deliveryTypes).some(type => type === true)`; `Signup.HasDeliveryTypeIff` states what it means |
| Signup.HasDeliveryTypeIff | src/app/signup/page.tsx:117 | `hasDeliveryType` holds exactly when some delivery type is ticked |
| Signup.Label | src/app/signup/page.tsx:160-169 | the label of each of the three keys, as the `switch` gives it; `Signup.LabelInjective` states that the labels differ |
| Signup.LabelInjective | src/app/signup/page.tsx:157-170 | different delivery types have different labels |
| Signup.SelectedKeys | src/app/signup/page.tsx:157-158 | exactly the ticked keys, in key order |
| Signup.SelectedDeliveryTypes | src/app/signup/page.tsx:157-170 | one label per ticked key, in the same order |
| Signup.SelectedLabelsMeaning | src/app/signup/page.tsx:117-170 | a type's label is listed exactly when its box is ticked, and the list is non-empty exactly when some box is ticked |
| Signup.AcceptedStoreHasLabels | src/app/signup/page.tsx:117-170 | a form that passes step 2 lists at least one delivery label |
| Signup.SubmitOutcomeOf | src/app/signup/page.tsx:146-196 | a form failing step 2 is refused with its first error; otherwise the account gets the store name, the labels of the ticked types (at least one), and a redirect to "/login" |
| Signup.SignupPage.constructor | src/app/signup/page.tsx:35-59 | the page starts at step 1 with empty fields and not loading |
| Signup.SignupPage.HandleDeliveryTypeChange | src/app/signup/page.tsx:65-73 | only the named delivery flag changes |
| Signup.SignupPage.HandleNext | src/app/signup/page.tsx:129-140 | the step becomes 2 exactly when step 1 passes and stays as it was otherwise; step 2 is shown only with valid personal details |
| Signup.SignupPage.HandleBack | src/app/signup/page.tsx:142-144 | the step becomes 1 and the form data is kept |
| Signup.SignupPage.HandleSubmit | src/app/signup/page.tsx:146-196 | the outcome is `SubmitOutcomeOf` the form; a refusal returns before loading starts, an account ends with loading off; the form and the step are kept |
| Login.ValidateLogin | src/app/login/page.tsx:40-50 | an empty email is reported first; an empty password only when the email is present; the form passes exactly when both are present |
| Login.LoginAcceptsMalformedEmail | src/app/login/page.tsx:40-50 | login has no format check: "x" passes login but does not match the sign-up pattern |
| Login.LoginPage.constructor | src/app/login/page.tsx:23-29 | the page starts with empty fields and not loading |
| Login.LoginPage.HandleSubmit | src/app/login/page.tsx:35-66 | a failing check rejects with its error and no redirect; otherwise the page is sent to "/"; either way loading ends false |
| ActiveOrderCard.StatusColor | src/components/ActiveOrderCard.tsx:41-54 | `getStatusColor`: one badge class per active status, gray otherwise; `ActiveOrderCard.StatusColorsDistinguishActive` states what it means |
| ActiveOrderCard.StatusColorsDistinguishActive | src/components/ActiveOrderCard.tsx:41-54 | the four active statuses get four different classes, and exactly the other statuses (Delivered included) get the gray default |
| ActiveOrderCard.OffersStatusSelector | src/components/ActiveOrderCard.tsx:60 | the card shows the selector only for a Preparing order |
| ActiveOrderCard.AcceptsChange | src/components/ActiveOrderCard.tsx:32 | the guard of `handleStatusChange`: Waiting for Pickup chosen on a Preparing order |
| ActiveOrderCard.CardEffect | src/components/ActiveOrderCard.tsx:31-39 | the active list after a card reports a choice: `orderStatusChange` when the guard holds, else unchanged; `ActiveOrderCard.CardChangesOnlyPreparingToWaiting` and `ActiveOrderCard.CardEffectIdle` state what it means |
| ActiveOrderCard.SelectorOptionsMeaning | src/components/ActiveOrderCard.tsx:60-78 | of the two options the selector offers a Preparing order, only "Waiting for Pickup" is acted on |
| ActiveOrderCard.HandleStatusChange | src/components/ActiveOrderCard.tsx:31-39 | the store's status change runs exactly when the new status is Waiting for Pickup and the order is Preparing; otherwise the store is unchanged |
| ActiveOrderCard.ValidActiveUnique | src/stores/orderStore.tsx:41-200 | in a reachable state, the active orders' ids are unique |
| ActiveOrderCard.CardChangesOnlyPreparingToWaiting | src/components/ActiveOrderCard.tsx:32-33 | in a reachable state, any order the card changes is the card's own active order; it was Preparing and becomes Waiting for Pickup with every other field kept |
| ActiveOrderCard.CardEffectIdle | src/components/ActiveOrderCard.tsx:32 | any other status or choice leaves the active list unchanged |

## Left out

- Persistence of the store to `localStorage` (src/stores/orderStore.tsx:210-213) is not modelled. It is library-driven JSON I/O.
- Clock and locale formatting are not modelled: `new Date()`, `toLocaleTimeString` and `toISOString` become the parameters `now` and `pickupTime`. The page's `new Date(createdAt).getTime()` is replaced by an integer `createdAt`, so unparsable dates (NaN comparisons) are not modelled.
- Money is modelled as integer cents. `toFixed(2)` formatting of the total is not modelled.
- Unicode case mapping is not modelled: `Text.Lower` lower-cases ASCII letters only.
- String lengths count Unicode scalar values, not UTF-16 code units as JavaScript's `length` does. The password-length check can differ for characters outside the Basic Multilingual Plane.
- `OrdersQuery.SortByCreatedAt`: the contract states order and permutation, not the stability of `Array.prototype.sort`, which keeps orders with equal `createdAt` in their filtered order.
- `OrdersQuery.SortedCopy`: states sortedness and permutation only; the stability of `Array.prototype.sort` is not stated.
- `OrdersQuery.FilteredAndSortedOrders`: states sortedness and permutation of the searched partition; which of several orders with equal `createdAt` comes first (the stable order of `Array.prototype.sort`) is not stated.
- `NewOrderForm.ApplyEdit`: quantities are whole numbers in the model. The source stores `Number(e.target.value)` from a number input whose `min="1"` is never enforced (there is no form element), so a fractional quantity such as 1.5 passes the `quantity <= 0` check, is summarised as "1.5x …" and scales the total; that case is not modelled. Quantities are also exact unbounded integers: the source's quantity is a double, so from 1e21 on `${item.quantity}` prints exponent notation ("1e+21x …"), and above 2^53 the summary and the total lose precision, neither of which the model reproduces.
- `NewOrderForm.NewOrderForm.HandleItemChange`: takes a whole-number quantity, for the same reason as `NewOrderForm.ApplyEdit`; fractional quantities are not modelled.
- `NewOrderForm.NewOrderForm.HandleItemChange` requires an index inside the list. The page only calls it with such indices. What the source does with any other index (an index past the end leaves holes, an index equal to the length appends an item with only the edited field, a negative index sets a property that `map` and `some` ignore) is not modelled.
- `Signup.SignupPage.HandleDeliveryTypeChange` takes one of the three keys the page passes. The source's computed key would accept any string, and its label mapping has a default branch that is never reached.
- The `handleInputChange` field setters of the sign-up and login pages are not modelled. Form data is the classes' state.
- The interval during which `isLoading` is true, while the sign-up and login pages wait on `setTimeout`, is not modelled. So are the pages' `catch` branches, which nothing in the `try` can reach. Toasts, `console.log` and the `window.location` redirects are modelled as outcome values.
- Stale closures in `handleItemChange` and `removeItem` are not modelled. These read `orderForm` rather than the previous state. Handlers run one at a time here.
- src/components/MapTracker.tsx, src/components/PlacesAutocomplete.tsx and mock-server.js are not part of this model. They are network, map and timer code with floating-point coordinates.
- Presentational components are not part of this model: the dashboard, stats, modal, completed table, order tracking and button components. Neither is src/components/AddOrderModal.tsx, which nothing imports.
- No operation moves an order from the active list to the completed list, and ids come from the active count; the model keeps both as the code has them.
