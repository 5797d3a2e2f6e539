# Field-service front end: navigation stack and list filters

A Dafny model of the logic under the views of a mobile-style field-service
application (technicians log in, browse service orders and equipment, execute
an order with photo evidence, create orders). All data is in memory. The
model covers:

- the application shell (`App.tsx`): the navigation stack of
  `(screen, params)` frames with `navigate` and `goBack`, the active frame,
  the view router `renderScreen`, and the dark-mode flag; the pushes done by
  the login button, the logout button and the finalize button are modelled as
  stack effects;
- the equipment list: case-insensitive search over name, model and serial,
  the filter modal with its two multi-select category lists (toggle, apply,
  clear), the chips that remove one applied value, the badge count, the
  distinct-value option lists, and the type icon;
- the service-order list: the single-select status chip (`"Todos"` means no
  constraint), the search over client name, client address and order number,
  the card button per status, and the status badge styles;
- the service-order detail screen: lookup by id with its not-found branch, the
  scheduled date and time derived from `scheduled`, the equipment and history
  icons, and the navigation targets of its buttons;
- the execution screen: the evidence image list (upload appends, remove by
  index) and the finalize push;
- the new-order form: the distinct client names, the equipment options, the
  five required fields and a submit that only goes back.

Modules: `Wrappers` (Option), `Seqs` (`filter`, subsequences,
`[...new Set(xs)]`), `Text` (ASCII `toLowerCase`, `includes`, `trim`,
`split(' ')[0]`, the `/\(([^)]+)\)/` capture), `Types` (types.ts and the
`find` by id), `SampleData` (constants.ts), `Navigation`, `EquipmentList`,
`ServiceOrderList`, `ServiceOrderDetail`, `ExecuteServiceOrder`,
`NewServiceOrder`, and `EquipmentScenarios` / `OrderScenarios` (worked examples
on the sample data).

State that the source keeps in React state becomes a class whose methods
change its fields: `Navigation.App` (stack and dark mode),
`EquipmentList.EquipmentListScreen`, `ServiceOrderList.ServiceOrderListScreen`,
`ExecuteServiceOrder.ExecuteServiceOrderScreen` and
`NewServiceOrder.NewServiceOrderForm`. The filters, the router and the
derivations are functions. Button handlers that touch the stack are described
by an `Effect` value (`Push(frame)`, `Pop`, `NoOp`) that `App.Perform` carries
out.

Behaviour of the code worth knowing, each point with the member that states it:

- Within one category the selected values are alternatives, so a second
  selected type widens the equipment list rather than narrowing it
  (`EquipmentList.FurtherTypeWidens`, `EquipmentScenarios.SecondTypeWidens`).
  Only the first selection of a category narrows it
  (`EquipmentList.FirstTypeNarrows`).
- The order list offers "Todos" and three of the seven statuses as chips
  (`ServiceOrderList.FilterChipsAreStatuses`).
- Finalizing an order pushes the list screen instead of going back
  (`ExecuteServiceOrder.ExecuteServiceOrderScreen.HandleFinalize`), and
  logging out pushes the login screen on top of the history
  (`Navigation.LogoutKeepsHistory`).
- The filter modal stays mounted while it is closed. Its working copy of the
  selection is therefore initialised once and is not refreshed when a chip is
  removed: removing a chip and pressing "Aplicar" selects the value again
  (`EquipmentList.RemovedChipReturnsOnApply`).

## Model

| member | source | states |
|---|---|---|
| `Navigation.Pushed` | App.tsx:47-49 | navigating appends exactly one frame at the end and keeps every earlier frame |
| `Navigation.Popped` | App.tsx:51-53 | going back on more than one frame removes exactly the last one; on one frame (or none) the stack is unchanged |
| `Navigation.PopAfterPush` | App.tsx:47-53 | going back right after navigating restores the previous stack exactly |
| `Navigation.PopAtRootIdempotent` | App.tsx:52 | going back any number of times on the one-frame stack leaves it unchanged |
| `Navigation.RunKeepsRoot` | App.tsx:47-53 | no sequence of pushes, pops and no-ops empties a non-empty stack or changes its bottom frame |
| `Navigation.ReachableStacks` | App.tsx:44-55 | from the initial stack every reachable stack is non-empty, so the active frame (the last) is defined, and its bottom frame is the login screen |
| `Navigation.Current` | App.tsx:55 | the active frame is the top of the stack: the stack is its lower frames with that frame appended |
| `Navigation.RenderScreen` | App.tsx:67-88 | the router shows the frame's screen; order detail and execution get `params?.serviceOrderId`, equipment detail gets `params?.equipmentId`, the profile gets the dark-mode flag, no other screen gets anything; the default branch is unreachable |
| `Navigation.RenderWithoutParams` | App.tsx:74-80 | a frame without a parameter bag gives its screen an undefined id |
| `Navigation.LoginEffect` | screens/LoginScreen.tsx:10-13 | the login button pushes the order list without params; its effect on the initial stack is stated by `LoginThenBackTwice` |
| `Navigation.LogoutEffect` | screens/ProfileScreen.tsx:47-50 | the logout button pushes the login screen without params; its effect on any stack is stated by `LogoutKeepsHistory` |
| `Navigation.LogoutKeepsHistory` | screens/ProfileScreen.tsx:47-50 | logout pushes the login screen on top of the history; going back from it returns to where logout happened |
| `Navigation.LoginThenBackTwice` | screens/LoginScreen.tsx:10-13 | from the initial stack, login shows the order list; going back returns to the initial stack, and going back again does nothing |
| `Navigation.App.constructor` | App.tsx:44-45 | the stack starts as the single frame `{screen: 'Login'}` without params, dark mode off |
| `Navigation.App.Navigate` | App.tsx:47-49 | the new stack is the old one with the frame appended; dark mode unchanged; the stack stays valid |
| `Navigation.App.GoBack` | App.tsx:51-53 | the new stack is the old one with its last frame dropped unless it was the only one |
| `Navigation.App.Perform` | App.tsx:47-53 | carrying out a handler's effect pushes, pops or does nothing, as the effect says |
| `Navigation.App.ToggleDarkMode` | App.tsx:65 | the flag is negated; the stack is unchanged |
| `Navigation.App.CurrentScreen` | App.tsx:55 | the active frame is defined (the stack is never empty) and is a frame of the stack |
| `Navigation.App.Rendered` | App.tsx:67-95 | the view shown is the one for the active frame's screen |
| `Navigation.NavigateThenGoBack` | App.tsx:47-53 | navigate followed by goBack leaves the application state as it was |
| `Navigation.ToggleDarkModeTwice` | App.tsx:65 | toggling twice restores the flag |
| `Seqs.FilterIsSubsequence` | screens/EquipmentListScreen.tsx:123-134 | a filter's result keeps the relative order of its input |
| `Seqs.FilterFilter` | screens/ServiceOrderListScreen.tsx:78-93 | filtering by one predicate and then another equals filtering by their conjunction |
| `Seqs.FilterStrengthen` | screens/EquipmentListScreen.tsx:123-134 | a stronger predicate keeps a subsequence of what a weaker one keeps |
| `Seqs.FilterMultiset` | screens/EquipmentListScreen.tsx:140 | a filter keeps every copy of an element that passes and no copy of one that fails |
| `Seqs.FilterOut` | screens/EquipmentListScreen.tsx:140 | `filter(x => x !== v)` has the multiset of its input without `v` |
| `Seqs.Distinct` | screens/EquipmentListScreen.tsx:21-22 | `[...new Set(xs)]` has no duplicates, holds only values of `xs`, and holds every value of `xs` |
| `Seqs.DistinctFirstOccurrenceOrder` | screens/NewServiceOrderScreen.tsx:15 | the distinct values appear in the order of their first occurrence |
| `Text.ToLower` | screens/EquipmentListScreen.tsx:126-128 | the modelled lowering maps each character on its own (ASCII `A`-`Z` to `a`-`z`, all others unchanged) and keeps the length; `toLowerCase` itself is context-sensitive and can change the length outside ASCII (see "## Left out") |
| `Text.ContainsPrefix` | screens/EquipmentListScreen.tsx:126-128 | a string that contains `a + b` contains `a` |
| `Text.AbsentLetter` | screens/ServiceOrderListScreen.tsx:87-92 | a lower-case letter of the query that the field has in neither case rules out a match in the lowercased field |
| `Text.BlankIffAllWhitespace` | screens/EquipmentListScreen.tsx:125 | `trim() === ''` holds exactly when the query is whitespace only |
| `Text.NotBlankExtend` | screens/ServiceOrderListScreen.tsx:86 | a query that is not blank stays not blank when text is appended |
| `Text.FirstToken` | screens/ServiceOrderDetailScreen.tsx:101 | `split(' ')[0]` is the prefix before the first space, or the whole string when it has none |
| `Text.ParenGroup` | screens/ServiceOrderDetailScreen.tsx:102 | the capture of `/\(([^)]+)\)/` is absent exactly when no `(`, non-empty run without `)`, `)` occurs, and otherwise is the run of the leftmost such match |
| `Text.ParenGroupShape` | screens/ServiceOrderDetailScreen.tsx:102 | the capture is non-empty and holds no `)` |
| `Types.StatusOfText` | types.ts:2-10 | the display string identifies the status; strings of no status give none |
| `Types.StatusTextInjective` | types.ts:2-10 | distinct statuses have distinct display strings |
| `Types.FindById` | screens/ServiceOrderDetailScreen.tsx:44 | the lookup (of an order here, of an equipment on the equipment detail screen) gives the first element with the id; an undefined id or an id no element has gives nothing |
| `EquipmentList.WithSelected` | screens/EquipmentListScreen.tsx:32 | `{ ...f, [c]: values }` replaces one category and leaves the other unchanged |
| `EquipmentList.Without` | screens/EquipmentListScreen.tsx:140 | every occurrence of the value is removed and every other occurrence of every other value is kept, in order (same multiset without the value, and a subsequence) |
| `EquipmentList.Toggled` | screens/EquipmentListScreen.tsx:28-31 | a present value is removed everywhere and every other occurrence of every other value is kept, in order; an absent one is appended at the end |
| `EquipmentList.ToggleTwiceRestores` | screens/EquipmentListScreen.tsx:28-31 | ticking an unticked box and unticking it again restores the list |
| `EquipmentList.CheckboxChanged` | screens/EquipmentListScreen.tsx:26-33 | the toggle applies to the chosen category only |
| `EquipmentList.FilterRemoved` | screens/EquipmentListScreen.tsx:137-142 | removing a chip removes every occurrence of the value from its category, keeps every other value of that category with its multiplicity and order, and leaves the other category unchanged |
| `EquipmentList.RemoveFilterCount` | screens/EquipmentListScreen.tsx:137-144 | removing a chip never raises the badge count, and lowers it when the value was selected |
| `EquipmentList.ActiveFilterCount` | screens/EquipmentListScreen.tsx:144 | the badge count is zero exactly when no type and no status is applied |
| `EquipmentList.FilteredEquipments` | screens/EquipmentListScreen.tsx:122-135 | the list is an order-preserving subsequence of the equipments, every element passes search, type and status, and every passing equipment occurs in it as often as in the input (multiset equation) |
| `EquipmentList.SearchMatch` | screens/EquipmentListScreen.tsx:124-128 | the search condition: a blank query, or the lowercased query inside the lowercased name, model or serial; `FilteredEquipments`, `BlankQueryNoFiltersListsAll` and `LongerQueryNarrows` state what it does to the list |
| `EquipmentList.TypeMatch` | screens/EquipmentListScreen.tsx:130 | no type applied, or the equipment's type is applied; `FirstTypeNarrows` and `FurtherTypeWidens` state its effect |
| `EquipmentList.StatusMatch` | screens/EquipmentListScreen.tsx:131 | no status applied, or the equipment's status text is applied; `FilteredEquipments` states its effect |
| `EquipmentList.BlankQueryNoFiltersListsAll` | screens/EquipmentListScreen.tsx:124-131 | a blank query with empty category lists shows every equipment |
| `EquipmentList.CategoriesOnlyNarrow` | screens/EquipmentListScreen.tsx:130-131 | any result is a subsequence of the result with both category lists empty |
| `EquipmentList.LongerQueryNarrows` | screens/EquipmentListScreen.tsx:124-128 | under the modelled per-character lowering, typing more text keeps a subsequence of the list |
| `EquipmentList.FirstTypeNarrows` | screens/EquipmentListScreen.tsx:130 | selecting the first type keeps a subsequence of the list |
| `EquipmentList.FurtherTypeWidens` | screens/EquipmentListScreen.tsx:130 | selecting a further type keeps a supersequence of the list |
| `EquipmentList.EquipmentKinds` | screens/EquipmentListScreen.tsx:21 | `map(e => e.type)`: one type per equipment, in order |
| `EquipmentList.EquipmentStatusTexts` | screens/EquipmentListScreen.tsx:22 | `map(e => e.status)`: one status text per equipment, in order |
| `EquipmentList.EquipmentTypes` | screens/EquipmentListScreen.tsx:21 | the type options have no duplicates, each is some equipment's type, and every equipment's type is one |
| `EquipmentList.EquipmentStatuses` | screens/EquipmentListScreen.tsx:22 | the status options have no duplicates, each is some equipment's status, and every equipment's status is one |
| `EquipmentList.TypesInFirstOccurrenceOrder` | screens/EquipmentListScreen.tsx:21 | the type options appear in the order of each type's first occurrence |
| `EquipmentList.StatusesInFirstOccurrenceOrder` | screens/EquipmentListScreen.tsx:22 | the status options appear in the order of each status's first occurrence |
| `EquipmentList.GetIcon` | screens/EquipmentListScreen.tsx:90-96 | the pump icon exactly for a lowercased type with "bomba" and without "ar condicionado", the bolt exactly for "gerador" without the other two; the snowflake otherwise |
| `EquipmentList.CardEffect` | screens/EquipmentListScreen.tsx:99 | an equipment card pushes the equipment detail with its id |
| `EquipmentList.EquipmentListScreen.constructor` | screens/EquipmentListScreen.tsx:118-120 | empty query, modal closed, nothing selected, in the applied and the modal's selection |
| `EquipmentList.EquipmentListScreen.SetSearchQuery` | screens/EquipmentListScreen.tsx:159 | the query is replaced; nothing else changes |
| `EquipmentList.EquipmentListScreen.OpenFilterModal` | screens/EquipmentListScreen.tsx:166 | the modal opens; the selections are unchanged |
| `EquipmentList.EquipmentListScreen.CloseFilterModal` | screens/EquipmentListScreen.tsx:211 | the modal closes; the selections are unchanged |
| `EquipmentList.EquipmentListScreen.HandleCheckboxChange` | screens/EquipmentListScreen.tsx:26-34 | called while the modal is open (the handler exists only then); only the modal's selection changes, by the toggle |
| `EquipmentList.EquipmentListScreen.HandleApply` | screens/EquipmentListScreen.tsx:36-39 | the modal's selection becomes the applied one and the modal closes |
| `EquipmentList.EquipmentListScreen.HandleClear` | screens/EquipmentListScreen.tsx:41-46 | both lists of both selections become empty and the modal closes |
| `EquipmentList.EquipmentListScreen.RemoveFilter` | screens/EquipmentListScreen.tsx:137-142 | only the applied selection changes, by the chip removal |
| `EquipmentList.EquipmentListScreen.Visible` | screens/EquipmentListScreen.tsx:122-135 | the shown list is the order-preserving subsequence of the equipments holding every copy of each equipment that matches the current query and applied selection, and nothing else |
| `EquipmentList.ClearResetsCount` | screens/EquipmentListScreen.tsx:41-46 | after "Limpar" the badge count is zero and only the query filters |
| `EquipmentList.RemovedChipReturnsOnApply` | screens/EquipmentListScreen.tsx:19 | a chip removed while the modal still has it checked comes back on "Aplicar" |
| `ServiceOrderList.FilterChipsAreStatuses` | screens/ServiceOrderListScreen.tsx:73-75 | the chips are "Todos" and the display strings of exactly ForStart, Started and ForQuote |
| `ServiceOrderList.FilteredServiceOrders` | screens/ServiceOrderListScreen.tsx:77-96 | every shown order passes the status chip and the search |
| `ServiceOrderList.StatusKeeps` | screens/ServiceOrderListScreen.tsx:81-83 | "Todos", or the order's status text equals the chip; `StatusFilterSound` and `StatusFilterExact` state its effect |
| `ServiceOrderList.QueryKeeps` | screens/ServiceOrderListScreen.tsx:86-93 | a blank query, or the lowercased query inside the lowercased client name, address or order number; `FilteredIsConjunction` and `CentralSearch` state its effect |
| `ServiceOrderList.FilteredIsConjunction` | screens/ServiceOrderListScreen.tsx:77-96 | the two conditional steps equal one filter by the conjunction, so the result is an order-preserving subsequence holding every order that passes both |
| `ServiceOrderList.AllFilterIsWeakest` | screens/ServiceOrderListScreen.tsx:81-83 | any chip shows a subsequence of what "Todos" shows |
| `ServiceOrderList.StatusFilterSound` | screens/ServiceOrderListScreen.tsx:81-93 | whatever the query, a status chip shows only orders of that status |
| `ServiceOrderList.StatusFilterExact` | screens/ServiceOrderListScreen.tsx:81-83 | with a blank query a status chip shows exactly the orders of that status |
| `ServiceOrderList.GetAction` | screens/ServiceOrderListScreen.tsx:22-39 | ForStart, AwaitingParts and Pending push the order's detail, Started pushes its execution, ForQuote, QuoteSent and Completed do nothing; no button pops |
| `ServiceOrderList.CardActionStack` | screens/ServiceOrderListScreen.tsx:22-39 | a card button either pushes exactly one frame or leaves the stack unchanged, by status |
| `ServiceOrderList.StatusStylesTotal` | screens/ServiceOrderListScreen.tsx:8-16 | every status has a style |
| `ServiceOrderList.StyleLookup` | screens/ServiceOrderListScreen.tsx:20 | a status's own style when the table has it, otherwise the Pending style, and nothing only when both are missing |
| `ServiceOrderList.StatusStyleNeverFallsBack` | screens/ServiceOrderListScreen.tsx:20 | with the application's table the Pending fallback is never taken |
| `ServiceOrderList.ServiceOrderListScreen.constructor` | screens/ServiceOrderListScreen.tsx:73-74 | the chip starts at "Todos" and the query empty |
| `ServiceOrderList.ServiceOrderListScreen.SetActiveFilter` | screens/ServiceOrderListScreen.tsx:130 | the chip is replaced; the query is unchanged |
| `ServiceOrderList.ServiceOrderListScreen.SetSearchQuery` | screens/ServiceOrderListScreen.tsx:116 | the query is replaced; the chip is unchanged |
| `ServiceOrderList.ServiceOrderListScreen.Visible` | screens/ServiceOrderListScreen.tsx:77-96 | every shown order passes the current chip and query, and the list is exactly the order-preserving filter of the orders by both conditions |
| `ServiceOrderList.FreshListShowsAll` | screens/ServiceOrderListScreen.tsx:73-96 | a freshly opened list shows every order |
| `ServiceOrderDetail.ScheduledDate` | screens/ServiceOrderDetailScreen.tsx:101 | the date is the prefix of `scheduled` before the first space, or all of it |
| `ServiceOrderDetail.ScheduledTime` | screens/ServiceOrderDetailScreen.tsx:102 | the time shown; `TimeWithoutParenthesis` and `TimeFromParenthesis` state it for both branches |
| `ServiceOrderDetail.TimeWithoutParenthesis` | screens/ServiceOrderDetailScreen.tsx:102 | without a `(` the order's `time` is shown |
| `ServiceOrderDetail.TimeFromParenthesis` | screens/ServiceOrderDetailScreen.tsx:102 | with a `(` the text of the group that starts leftmost is shown (non-empty, without `)`), or nothing when there is no group |
| `ServiceOrderDetail.HistoryIconFor` | screens/ServiceOrderDetailScreen.tsx:33 | the user icon exactly when the action contains "atribuído" |
| `ServiceOrderDetail.EquipmentIconFor` | screens/ServiceOrderDetailScreen.tsx:19 | the snowflake exactly when the lowercased name contains "ar" |
| `ServiceOrderDetail.EquipmentItems` | screens/ServiceOrderDetailScreen.tsx:109-111 | one entry per equipment of the order, in order, with its id, name, model and icon |
| `ServiceOrderDetail.HistoryItems` | screens/ServiceOrderDetailScreen.tsx:121-123 | one entry per history item, in order, with its action, date and icon |
| `ServiceOrderDetail.DetailScreen` | screens/ServiceOrderDetailScreen.tsx:44-53 | not found exactly for an undefined id or an id no order has; otherwise the first order with that id (no earlier order carries it), its derived date and time, and its equipment and history entries as `EquipmentItems` and `HistoryItems` give them |
| `ServiceOrderDetail.ActionEffect` | screens/ServiceOrderDetailScreen.tsx:46-131 | back pops; the not-found view offers only back; an equipment entry pushes its detail; "Gerenciar Equipamentos" pushes the list without params; "Iniciar Serviço" pushes the execution of this order; "Navegar" does nothing |
| `ServiceOrderDetail.StartServiceRoutesToSameOrder` | screens/ServiceOrderDetailScreen.tsx:131 | starting the service routes the execution screen to the same order id |
| `ExecuteServiceOrder.RemovedAt` | screens/ExecuteServiceOrderScreen.tsx:23-25 | an index in range removes exactly that image, keeping the others in order; any other index changes nothing |
| `ExecuteServiceOrder.FilterOutIndex` | screens/ExecuteServiceOrderScreen.tsx:24 | the index filter, element by element, computes that removal |
| `ExecuteServiceOrder.ExecuteServiceOrderScreen.constructor` | screens/ExecuteServiceOrderScreen.tsx:5-11 | the screen keeps the orders and the routed id, and the images start as the two placeholder URLs |
| `ExecuteServiceOrder.ExecuteServiceOrderScreen.Order` | screens/ExecuteServiceOrderScreen.tsx:7 | the order is the first with the routed id (the contract of `Types.FindById`) |
| `ExecuteServiceOrder.ExecuteServiceOrderScreen.RendersNothing` | screens/ExecuteServiceOrderScreen.tsx:32 | the screen renders nothing exactly when the route has no id or no order has that id |
| `ExecuteServiceOrder.ExecuteServiceOrderScreen.HandleImageUpload` | screens/ExecuteServiceOrderScreen.tsx:14-21 | the new URLs are appended in file order; without a file list nothing changes |
| `ExecuteServiceOrder.ExecuteServiceOrderScreen.RemoveImage` | screens/ExecuteServiceOrderScreen.tsx:23-25 | the image list becomes the index removal of the old one |
| `ExecuteServiceOrder.ExecuteServiceOrderScreen.HandleFinalize` | screens/ExecuteServiceOrderScreen.tsx:27-30 | finalizing pushes the order list; nothing is popped |
| `ExecuteServiceOrder.BackReturnsToOpener` | screens/ExecuteServiceOrderScreen.tsx:37 | the back arrow returns to the screen that opened the execution, with its stack exactly as before |
| `ExecuteServiceOrder.UploadThenRemove` | screens/ExecuteServiceOrderScreen.tsx:14-25 | uploading and then removing the first new photo keeps the old photos and the other new ones, in order |
| `NewServiceOrder.Clients` | screens/NewServiceOrderScreen.tsx:15 | the client options have no duplicates, each is some order's client name, and every order's client name is one |
| `NewServiceOrder.ClientNames` | screens/NewServiceOrderScreen.tsx:15 | `serviceOrders.map(so => so.client.name)`: one name per order, in order |
| `NewServiceOrder.ClientsInFirstOccurrenceOrder` | screens/NewServiceOrderScreen.tsx:15 | the client options appear in the order of their first occurrence |
| `NewServiceOrder.EquipmentOptions` | screens/NewServiceOrderScreen.tsx:64 | one option per equipment, valued by its id, whatever client is selected |
| `NewServiceOrder.NewServiceOrderForm.constructor` | screens/NewServiceOrderScreen.tsx:9-13 | the five fields start empty |
| `NewServiceOrder.NewServiceOrderForm.Set` | screens/NewServiceOrderScreen.tsx:43-104 | a field's `onChange` sets that field only |
| `NewServiceOrder.NewServiceOrderForm.CanSubmit` | screens/NewServiceOrderScreen.tsx:39-104 | the five `required` fields are all non-empty; `Submit` and `FreshFormBlocked` state its effect |
| `NewServiceOrder.NewServiceOrderForm.Submit` | screens/NewServiceOrderScreen.tsx:17-29 | the submit goes through exactly when all five required fields are non-empty, and then pops one frame; otherwise the stack is unchanged |
| `NewServiceOrder.FreshFormBlocked` | screens/NewServiceOrderScreen.tsx:48 | a fresh form cannot be submitted |
| `EquipmentScenarios.AirConditionerTypeFilter` | screens/EquipmentListScreen.tsx:130 | type filter {"Ar Condicionado"} on the sample data lists e1 then e4 |
| `EquipmentScenarios.PumpTypeFilter` | screens/EquipmentListScreen.tsx:130 | type filter {"Bomba"} lists only e2 |
| `EquipmentScenarios.PumpOrGeneratorTypeFilter` | screens/EquipmentListScreen.tsx:130 | type filter {"Bomba", "Gerador"} lists e2 then e3 |
| `EquipmentScenarios.SecondTypeWidens` | screens/EquipmentListScreen.tsx:130 | ticking a second type lists more equipment |
| `EquipmentScenarios.InactiveStatusFilter` | screens/EquipmentListScreen.tsx:131 | status filter {"Inativo"} lists only e3 |
| `EquipmentScenarios.UnknownEquipment` | screens/EquipmentDetailScreen.tsx:49-51 | the id "e999" finds no equipment, so its detail screen renders nothing |
| `OrderScenarios.ForStartChip` | screens/ServiceOrderListScreen.tsx:81-83 | the "Por Iniciar" chip lists only so1 |
| `OrderScenarios.CentralMiss` | screens/ServiceOrderListScreen.tsx:87-92 | an order is not a search hit when each searched field lacks, in both cases, some letter of the query |
| `OrderScenarios.CentralKeeps` | screens/ServiceOrderListScreen.tsx:86-93 | with "Todos" and "central", so1 and so3 pass and so2, so4, so5, so6 and so7 do not |
| `OrderScenarios.CentralSearch` | screens/ServiceOrderListScreen.tsx:86-93 | searching "central" lists exactly so1 then so3 |
| `OrderScenarios.UnknownOrderNotFound` | screens/ServiceOrderDetailScreen.tsx:44-53 | the id "so999" shows the not-found view |
| `OrderScenarios.KnownOrderFound` | screens/ServiceOrderDetailScreen.tsx:44 | the id "so7" shows so7 |

## Left out

- JSX, styling, layout and icons: icon choices appear only as small enumerations (`GetIcon`, `HistoryIconFor`, `EquipmentIconFor`).
- `toLowerCase` is modelled for the ASCII letters only; other characters are left as they are. JavaScript's `toLowerCase` also maps non-ASCII letters, some to more than one code unit ('İ' becomes "i̇"), and lowers the Greek capital sigma by context (Final_Sigma: "ΑΣ" becomes "ας" but "ΑΣΑ" becomes "ασα"). `trim` removes the ECMAScript white space and line terminators, with the space separators taken from a fixed list (Unicode category Zs as of Unicode 15).
- `Text.ToLowerAppend`: holds for the per-character lowering of the model only; with the context-sensitive, length-changing mappings of JavaScript the lowering of `a + b` need not be the lowering of `a` followed by that of `b`.
- `EquipmentList.LongerQueryNarrows`: search monotonicity rests on `Text.ToLowerAppend` and so holds for the modelled lowering only; in the program an equipment named "ασα" is hidden by the query "ΑΣ" and shown by the longer query "ΑΣΑ".
- `URL.createObjectURL` and the file picker are outside the model: `HandleImageUpload` takes the created URLs as its input.
- `alert` and `console.log` in the finalize and submit handlers are output only and are not modelled.
- React's hook machinery (`useMemo`, `useCallback`, `useRef`, re-render timing) is not modelled: state is fields, setters are methods, memoised values are functions of the fields.
- The status `<select>` of the execution screen, the report text area and the signature area hold no state the code reads and are not modelled.
- The equipment detail, login and profile screens are not modelled beyond their lookup (`Types.FindById`) and their pushes (`LoginEffect`, `LogoutEffect`); the password-visibility toggle is left out. The user record (`User` in types.ts, `userProfile` in constants.ts) is shown only by the profile screen and is not part of this model.
- `Navigation.App.CurrentScreen`: states that the active frame belongs to the stack; that it is the last frame is what `Navigation.ReachableStacks` and the definition of `Current` give.
- `NewServiceOrder.NewServiceOrderForm.Submit`: the browser's `required` check is modelled as "every field non-empty", the rule for text and select fields; the browser's own validation of the date field's format is not modelled.
- The order list's profile button and floating new-order button are modelled as effects (`ProfileEffect`, `NewOrderEffect`) without a property of their own.
