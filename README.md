# divi-tally-flow: a verified model of the money-splitting core

divi-tally-flow is a shared-expenses web app. Users form groups, add expenses
that are split between group members, see each member's net balance, chat, and
keep a personal monthly budget with categories and charts. This project models
in Dafny the parts of the app that compute something:

- the split calculator hook and the split selector around it;
- the balance map of the group page and the per-group card figures of the home page;
- the "add expense" page: the member selection and submission with one equal share per selected member;
- the "create group" page: parsing the invitation e-mail field and the write issued for each address;
- the invitation page: loading while pending and not expired, and accepting;
- the personal-expenses, group-members and group-chat hooks;
- the personal charts, the month summary and the icon table.

The following choices run through the whole model:

- Every store query and write is a parameter. A fetched result is a `Query`
  (data that may be null, or an error). A write's outcome is a `bool` or the
  row it returned. A handler returns the writes it issues, in order, as a
  `seq` of `Write` values.
- Hooks and pages whose state the code replaces through setters are classes.
  Each class has the state variables as fields, and each handler is a method
  with a `modifies` clause. Every method states the whole new state.
- Loops in the source are `while` loops proved against a specification
  function. These are the calculation memo, `distributeEqually`, the three
  passes of `calculateBalances`, the chart reductions and the e-mail loop.
- Amounts are exact `real`s, and the 0.01 validation tolerance is kept.
  `parseFloat` is modelled on decimal text (`JsNumber`). `trim` uses the
  ECMAScript whitespace set (`JsText`). `split` is modelled on one separator
  character.
- A JavaScript `Set` or `Map` becomes a duplicate-free `seq`, which keeps the
  insertion order, beside a Dafny `map`.
- A property lookup on an object literal also sees the names every object
  inherits from `Object.prototype` (`JsObject`). Two findings below come from
  this.
- Day numbers and expiry timestamps are given integers.
  `String.prototype.localeCompare` is modelled as the code-point
  lexicographic order.

Shares and expenses of users outside the member list are ignored when the
group's balances are computed (src/pages/GroupDetail.tsx:186-191):
`Balances.NonMemberRowsIgnored`.

## Model

| member | source | states |
|---|---|---|
| SplitCalculator.CalculationOf | src/hooks/useSplitCalculator.tsx:26-82 | one entry per member in member order, copying id and name, carrying the current split type and echoing the member's stored override; at most one error and `isValid` exactly when there is none; under `equal` always valid with every share `total / n` |
| SplitCalculator.Updated | src/hooks/useSplitCalculator.tsx:84-89 | supplied fields overwrite the member's entry, unsupplied fields are kept, every other member's entry is unchanged |
| SplitCalculator.CalculationIgnoresOtherIds | src/hooks/useSplitCalculator.tsx:31-32 | overrides stored for ids outside the member list play no part in the calculation |
| SplitCalculator.PercentageSplit | src/hooks/useSplitCalculator.tsx:40-68 | under `percentage` each share is `total * p / 100` with a missing p as 0, and the one error is reported exactly when the stored percentages miss 100 by more than 0.01 |
| SplitCalculator.CustomSplit | src/hooks/useSplitCalculator.tsx:45-74 | under `custom` each share is the stored amount or 0, and the one error is reported exactly when the shares miss the total by more than 0.01 |
| SplitCalculator.UpdatePercentageEffect | src/hooks/useSplitCalculator.tsx:84-89 | after storing percentage p for one member, that member's share is `total * p / 100` and every other member's entry is as before |
| SplitCalculator.DistributedIsValid | src/hooks/useSplitCalculator.tsx:96-112 | after `distributeEqually` among at least one member the calculation is valid under every split type |
| SplitCalculator.DistributedShares | src/hooks/useSplitCalculator.tsx:96-112 | the equal percentages add up to exactly 100 and the equal amounts to exactly the total |
| SplitCalculator.SplitCalculatorHook.constructor | src/hooks/useSplitCalculator.tsx:22-23 | the split starts as `equal` with no overrides |
| SplitCalculator.SplitCalculatorHook.SetSplitType | src/hooks/useSplitCalculator.tsx:22 | the type changes and the overrides are kept |
| SplitCalculator.SplitCalculatorHook.Calculation | src/hooks/useSplitCalculator.tsx:26-82 | the accumulate-then-validate pass returns exactly `CalculationOf` of the current state |
| SplitCalculator.SplitCalculatorHook.AccumulateEntries | src/hooks/useSplitCalculator.tsx:31-60 | the `forEach` pushes every member's entry in order, and `totalCalculated` is the sum of their shares |
| SplitCalculator.SplitCalculatorHook.ShareOf | src/hooks/useSplitCalculator.tsx:35-48 | the `switch` computes the member's share under the current split type |
| SplitCalculator.SplitCalculatorHook.UpdateMemberSplit | src/hooks/useSplitCalculator.tsx:84-89 | the override map becomes `Updated(old map, id, updates)` and the type is kept |
| SplitCalculator.SplitCalculatorHook.ResetToEqual | src/hooks/useSplitCalculator.tsx:91-94 | type `equal` and an empty override map from any state, so a second call changes nothing |
| SplitCalculator.SplitCalculatorHook.DistributeEqually | src/hooks/useSplitCalculator.tsx:96-112 | under percentage or custom the map is replaced by the equal override for each member id, dropping the other field; under equal nothing changes |
| SplitSelector.PayloadOfCalculation | src/components/SplitSelector.tsx:41-49 | the payload has the members' length and order, and each item copies id, type, stored percentage, stored amount and share; it sums to the total assigned |
| SplitSelector.EqualAssignsTotal | src/components/SplitSelector.tsx:228 | with at least one member an equal split assigns exactly the total |
| SplitSelector.PercentageAssigned | src/components/SplitSelector.tsx:228 | a percentage split assigns the total scaled by the sum of the percentages over 100 |
| SplitSelector.PercentShares | src/hooks/useSplitCalculator.tsx:40-43 | shares of `total * p / 100` add up to `total` times the summed p over 100 |
| SplitSelector.ValidPercentageAssigned | src/components/SplitSelector.tsx:228-241 | a percentage split shown as valid assigns the total up to 0.01% of it |
| SplitSelector.CustomAssigned | src/components/SplitSelector.tsx:228-241 | a custom split shown as valid assigns the total up to 0.01 |
| SplitSelector.AlertOrBadge | src/components/SplitSelector.tsx:210-241 | exactly one of the error alert and the "valid" badge is shown, and the alert lists one error |
| SplitSelector.HandleSplitTypeChange | src/components/SplitSelector.tsx:51-56 | the type changes; switching to equal clears the overrides, switching to the other two keeps them |
| SplitSelector.OnPercentageInput | src/components/SplitSelector.tsx:142-144 | stores `parseFloat(v) \|\| 0` as the member's percentage, nothing else changes |
| SplitSelector.OnAmountInput | src/components/SplitSelector.tsx:195-197 | stores `parseFloat(v) \|\| 0` as the member's amount, nothing else changes |
| SplitSelector.ClearedPercentage | src/components/SplitSelector.tsx:142-144 | clearing the percentage field stores 0 and keeps the member's amount |
| JsNumber.NoDigitsStoresZero | src/components/SplitSelector.tsx:143 | input without any digit (the empty field, for one) parses to NaN and is stored as 0 |
| JsNumber.ParseNatText | src/components/SplitSelector.tsx:143 | the decimal text of a number, with leading whitespace and a non-numeric tail, reads back as that number |
| JsNumber.ParseDecimalPrefixNat | src/components/SplitSelector.tsx:143 | the longest decimal prefix of a number's digits followed by a non-numeric tail is that number |
| Balances.BalancesOf | src/pages/GroupDetail.tsx:175-205 | the balances array: one entry per distinct member id, in order of first occurrence |
| Balances.InitAccounts | src/pages/GroupDetail.tsx:175-183 | the map holds exactly the member ids, each at 0 with the last name set for it, keys in first-insertion order |
| Balances.ApplyShares | src/pages/GroupDetail.tsx:186-191 | each member's balance drops by the sum of that member's shares; keys are unchanged, so rows of non-members add nothing |
| Balances.ApplyPayments | src/pages/GroupDetail.tsx:194-199 | each member's balance rises by the sum of what the member paid; keys are unchanged |
| Balances.EntriesInOrder | src/pages/GroupDetail.tsx:201-205 | `Array.from(map.entries()).map(...)` lists the keys in insertion order with their name and balance |
| Balances.CalculateBalances | src/pages/GroupDetail.tsx:156-211 | the three in-place passes and the entries pass compute `BalancesOf`, with a null query result counting as no rows |
| Balances.OneEntryPerMember | src/pages/GroupDetail.tsx:175-205 | no id twice, an entry exactly for the member ids, each with the last name for the id and balance = paid − owed |
| Balances.NonMemberRowsIgnored | src/pages/GroupDetail.tsx:186-199 | a share or an expense of a non-member changes no balance |
| Balances.NoActivityZero | src/pages/GroupDetail.tsx:175-183 | a member with no shares and no payments stays at 0 |
| Balances.OrderIndependent | src/pages/GroupDetail.tsx:186-199 | the balances do not depend on the order of the shares or the expenses |
| Balances.Conservation | src/pages/GroupDetail.tsx:186-199 | with every owner and payer a member and the shares adding up to the expenses, the balances sum to 0 |
| Balances.SharesCoverExpenses | src/pages/GroupDetail.tsx:159-172 | if each expense's shares add up to its amount and every share belongs to one of the distinct expenses, the shares total the expenses |
| Balances.TotalOfBalances | src/pages/GroupDetail.tsx:201-205 | the balances sum to what the distinct ids paid minus what they owe |
| Balances.BalanceBadge | src/pages/GroupDetail.tsx:369-370 | the badge is destructive exactly for a negative balance, and has a '+' prefix exactly otherwise |
| Balances.WithProfile | src/pages/GroupDetail.tsx:97-107 | the first profile with the member's id gives the name (or 'Usuario' when empty) and the e-mail; without one, 'Usuario' and '' |
| Balances.MergeProfiles | src/pages/GroupDetail.tsx:97-107 | one merged row per fetched member row, in order, keeping the ids |
| Balances.PayerName | src/pages/GroupDetail.tsx:129-134 | the payer name shown is never empty: the profile's name or 'Usuario' |
| GroupSummary.SumOrZero | src/pages/Index.tsx:63 | a null query result sums to 0; otherwise the sum of the rows |
| GroupSummary.MemberCount | src/pages/Index.tsx:86 | the exact count, or 0 when the count is null |
| GroupSummary.CardOf | src/pages/Index.tsx:51-87 | the card carries the group's id, name and creation date, the member count or 0, the sum of the group's expenses or 0, and the user's paid total minus the user's owed total, each null result counting 0 |
| GroupSummary.GroupsWithData | src/pages/Index.tsx:47-91 | no memberships give no cards; otherwise one card per membership, in order, each the `CardOf` that group with its own query results |
| GroupSummary.NoExpensesZero | src/pages/Index.tsx:57-63 | with no expense rows, or no result, the group total is 0 |
| GroupSummary.AgreesWithGroupBalances | src/pages/Index.tsx:66-80 | from the user's own rows the card balance is paid − owed, and equals the user's entry in the group page's balances |
| GroupSummary.MemberLabel | src/pages/Index.tsx:206 | "miembro" exactly for a count of 1, "miembros" otherwise |
| AddExpense.Toggle | src/pages/AddExpense.tsx:112-120 | the id is removed if present and added if absent, every other id keeps its membership, and the result is still a set |
| AddExpense.ToggleTwice | src/pages/AddExpense.tsx:112-120 | toggling twice restores the same set of ids |
| AddExpense.ToggleTwiceAbsent | src/pages/AddExpense.tsx:112-120 | for an absent id, toggling twice restores the exact sequence |
| AddExpense.ToggleTwicePresent | src/pages/AddExpense.tsx:112-120 | for a present id, toggling twice moves it to the end, because `add` appends |
| AddExpense.AllSelected | src/pages/AddExpense.tsx:122-125 | select-all gives every member id once and nothing else |
| AddExpense.ExpenseRow | src/pages/AddExpense.tsx:150-158 | the inserted row carries the group, payer and date, and the description trimmed, empty exactly when the field is blank |
| AddExpense.PerPersonShares | src/pages/AddExpense.tsx:146-147 | n shares of `amount / n` make up the amount |
| AddExpense.BuildShares | src/pages/AddExpense.tsx:165-169 | one share per selected id, in selection order, each with the expense id and the per-person amount |
| AddExpense.EmptySelectionNoWrites | src/pages/AddExpense.tsx:135-142 | with an empty selection nothing is written |
| AddExpense.WriteOrder | src/pages/AddExpense.tsx:150-175 | the expense is written first and the shares second, the shares only if the expense insert returned a row; a failed share insert does not take the expense back |
| AddExpense.OneSharePerMember | src/pages/AddExpense.tsx:165-173 | the share insert has exactly one share per selected member, each with the new expense's id |
| AddExpense.SharesOfSelection | src/pages/AddExpense.tsx:165-169 | a member has a share exactly when selected |
| AddExpense.SharesSumToAmount | src/pages/AddExpense.tsx:146-169 | with a numeric amount every share is `amount / n` and the shares add up to the amount |
| AddExpense.EqualSharesTotal | src/pages/AddExpense.tsx:146-169 | the equal shares built for a selection add up to the amount |
| AddExpense.EnabledSubmitWrites | src/pages/AddExpense.tsx:377 | an enabled submit on a group page writes the expense, with a non-empty description |
| AddExpense.AddExpensePage.constructor | src/pages/AddExpense.tsx:29-38 | empty fields, today's date, nothing selected |
| AddExpense.AddExpensePage.FetchGroupData | src/pages/AddExpense.tsx:51-110 | the group's name, then, when members are found, the merged members, the current user as payer and every member id selected; a failed query stops the load |
| AddExpense.AddExpensePage.HandleMemberToggle | src/pages/AddExpense.tsx:112-120 | the selection becomes `Toggle(old, id)`; nothing else changes |
| AddExpense.AddExpensePage.HandleSelectAll | src/pages/AddExpense.tsx:122-125 | the selection becomes every member id once |
| AddExpense.AddExpensePage.HandleSelectNone | src/pages/AddExpense.tsx:127-129 | the selection becomes empty |
| AddExpense.AddExpensePage.HandleSubmit | src/pages/AddExpense.tsx:131-193 | issues exactly `SubmitWrites` and ends with `SubmitResultOf`; `loading` is false again whenever the inserts were attempted |
| CreateGroup.TrimAll | src/pages/CreateGroup.tsx:61 | each piece trimmed, in order |
| CreateGroup.KeepEmails | src/pages/CreateGroup.tsx:62 | exactly the non-empty pieces with an '@', in their original order, each as many times as it occurs |
| CreateGroup.ParseEmails | src/pages/CreateGroup.tsx:59-62 | no parsed address has a comma or surrounding whitespace, each has an '@', they keep input order, and each trimmed piece with an '@' occurs as often as in the field |
| CreateGroup.ParseKeepsEveryAddress | src/pages/CreateGroup.tsx:59-62 | a piece between commas that trims to an address is kept, and every kept address is such a piece |
| CreateGroup.ParseJoin | src/pages/CreateGroup.tsx:59-62 | a list of clean addresses joined with commas parses back to itself |
| CreateGroup.BlankFieldNoEmails | src/pages/CreateGroup.tsx:58-62 | a blank field parses to no address |
| CreateGroup.EmailAction | src/pages/CreateGroup.tsx:72-90 | a membership for the profile's user when one exists, an invitation with role 'member' otherwise |
| CreateGroup.EmailWrites | src/pages/CreateGroup.tsx:64-91 | one write per address, in order |
| CreateGroup.GroupThenCreator | src/pages/CreateGroup.tsx:36-55 | the group is written first, with the trimmed name and the creator, then the creator's membership; a failed group insert writes nothing more |
| CreateGroup.LaterWritesInGroup | src/pages/CreateGroup.tsx:64-91 | every later write belongs to the new group and none inserts a group |
| CreateGroup.OneActionPerEmail | src/pages/CreateGroup.tsx:57-91 | once the group and the creator are in, each address yields exactly one write, in list order |
| CreateGroup.BlankFieldOnlyGroup | src/pages/CreateGroup.tsx:58 | a blank e-mail field writes only the group and the creator's membership |
| CreateGroup.EnabledStoresName | src/pages/CreateGroup.tsx:198 | an enabled submit stores a non-empty, trimmed name |
| CreateGroup.ProcessEmails | src/pages/CreateGroup.tsx:64-91 | the `for` loop issues exactly `EmailWrites` |
| CreateGroup.Submit | src/pages/CreateGroup.tsx:35-91 | the group insert, the creator's membership and the loop over the parsed addresses issue exactly `SubmitWrites` and report `SubmitResultOf` |
| CreateGroup.CreateGroupPage.constructor | src/pages/CreateGroup.tsx:18-22 | empty name and e-mail fields, not loading |
| CreateGroup.CreateGroupPage.HandleSubmit | src/pages/CreateGroup.tsx:29-110 | issues exactly `SubmitWrites` and ends with `SubmitResultOf`; `loading` is false again afterwards |
| JsText.Trim | src/pages/CreateGroup.tsx:61 | the result neither starts nor ends with whitespace |
| JsText.TrimIsPiece | src/pages/CreateGroup.tsx:61 | the trim is the slice of the input between the leading and the trailing whitespace |
| JsText.TrimEmptyIff | src/pages/CreateGroup.tsx:58 | the trim is empty exactly for a blank string |
| JsText.TrimPadded | src/hooks/useGroupChat.tsx:126 | whitespace around a trimmed, non-empty text is dropped |
| JsText.TrimIdempotent | src/pages/CreateGroup.tsx:61 | trimming twice is trimming once |
| JsText.Split | src/pages/CreateGroup.tsx:60 | at least one piece, none containing the separator, and joining them back gives the input |
| JsText.SplitJoin | src/pages/CreateGroup.tsx:60 | splitting separator-free pieces joined by the separator gives the pieces |
| GroupInvitation.PendingWithToken | src/pages/GroupInvitation.tsx:45-49 | exactly the rows with the token and status 'pending', each as many times as it occurs |
| GroupInvitation.SingleRow | src/pages/GroupInvitation.tsx:50-52 | a row exactly when one row of the table matches, and then that row; an error when none or several match |
| GroupInvitation.OnePending | src/pages/GroupInvitation.tsx:45-52 | the filtered list has length 1 exactly when one row matches, and is then that row alone |
| GroupInvitation.LoadedOf | src/pages/GroupInvitation.tsx:43-82 | an invitation loads exactly when a single pending row matches and has not expired; the group falls back to 'Grupo desconocido' and the inviter to 'Usuario desconocido' |
| GroupInvitation.ExpiresNowStillLoads | src/pages/GroupInvitation.tsx:55 | expiry is strict: an invitation expiring at this instant loads |
| GroupInvitation.MarkAcceptedRows | src/pages/GroupInvitation.tsx:112-118 | the row with the id becomes 'accepted' with the timestamp; the others are kept |
| GroupInvitation.AcceptOrder | src/pages/GroupInvitation.tsx:95-120 | no writes without a user or an invitation; otherwise the membership with the invitation's group and role first, and the status update second, only after it succeeded |
| GroupInvitation.FailedInsertKeepsPending | src/pages/GroupInvitation.tsx:109 | a failed membership insert leaves every invitation row as it was |
| GroupInvitation.AcceptedNotReloadable | src/pages/GroupInvitation.tsx:45-50 | after acceptance no row with the token is pending, so it cannot be loaded again |
| GroupInvitation.InvitationPage.constructor | src/pages/GroupInvitation.tsx:33-35 | no invitation, loading, not accepting |
| GroupInvitation.InvitationPage.FetchInvitation | src/pages/GroupInvitation.tsx:37-93 | with a token, the invitation is set when it loads and kept otherwise, and loading stops |
| GroupInvitation.InvitationPage.AcceptInvitation | src/pages/GroupInvitation.tsx:95-138 | issues exactly `AcceptWrites` and ends with `AcceptResultOf`; `accepting` is false again afterwards |
| PersonalExpenses.AddedCategory | src/hooks/usePersonalExpenses.tsx:158 | after an add the list is the old rows plus the new one, sorted by name |
| PersonalExpenses.AddedLastName | src/hooks/usePersonalExpenses.tsx:158 | a row whose name sorts after all others is appended to a sorted list |
| PersonalExpenses.Replaced | src/hooks/usePersonalExpenses.tsx:197 | the row with the id is replaced, the others are kept, the length is the same |
| PersonalExpenses.UpdatedCategory | src/hooks/usePersonalExpenses.tsx:196-198 | after an update the list is the replaced rows, sorted by name |
| PersonalExpenses.UpdateAbsentId | src/hooks/usePersonalExpenses.tsx:196-198 | an update for an id no row has only re-sorts |
| PersonalExpenses.DeletedCategory | src/hooks/usePersonalExpenses.tsx:230 | deleting keeps exactly the rows with another id, in their order |
| PersonalExpenses.DeletedExpense | src/hooks/usePersonalExpenses.tsx:262 | deleting keeps exactly the expenses with another id, in their order |
| PersonalExpenses.PersonalExpensesHook.constructor | src/hooks/usePersonalExpenses.tsx:31-34 | empty lists, loading, not submitting |
| PersonalExpenses.PersonalExpensesHook.FetchCategories | src/hooks/usePersonalExpenses.tsx:37-57 | nothing without a user; the rows (or none) on success; unchanged on error |
| PersonalExpenses.PersonalExpensesHook.FetchExpenses | src/hooks/usePersonalExpenses.tsx:60-91 | nothing without a user; the rows (or none) on success, unchanged on error, and loading false |
| PersonalExpenses.PersonalExpensesHook.AddExpense | src/hooks/usePersonalExpenses.tsx:94-135 | no insert and null without a user; otherwise the insert with the user's id, the returned row, and submitting false |
| PersonalExpenses.PersonalExpensesHook.AddCategory | src/hooks/usePersonalExpenses.tsx:138-177 | no insert and null without a user; on success the row is added and the list re-sorted, on error the list is unchanged; submitting false |
| PersonalExpenses.PersonalExpensesHook.UpdateCategory | src/hooks/usePersonalExpenses.tsx:180-217 | on success the list is replaced and re-sorted, on error unchanged; submitting false |
| PersonalExpenses.PersonalExpensesHook.DeleteCategory | src/hooks/usePersonalExpenses.tsx:220-249 | on success the rows with the id are filtered out, on error unchanged; submitting false |
| PersonalExpenses.PersonalExpensesHook.DeleteExpense | src/hooks/usePersonalExpenses.tsx:252-281 | on success the expenses with the id are filtered out, on error unchanged; submitting false |
| Sorting.SortByPermutation | src/hooks/usePersonalExpenses.tsx:158 | `sort` rearranges the rows and loses or adds none |
| Sorting.SortBySorted | src/hooks/usePersonalExpenses.tsx:158 | under a total preorder the sorted rows are in order |
| Sorting.SortByOfSorted | src/hooks/usePersonalExpenses.tsx:197 | sorting rows already in order changes nothing |
| GroupMembers.WithProfile | src/hooks/useGroupMembers.tsx:42-48 | the first profile with the member's id as it is, or 'Usuario' and 'Sin email' when none matches |
| GroupMembers.Merge | src/hooks/useGroupMembers.tsx:42-48 | one merged entry per fetched row, in order; none when the data is null |
| GroupMembers.IsAdminOf | src/hooks/useGroupMembers.tsx:53-54 | true exactly when the first row of the current user exists and has role admin |
| GroupMembers.AdminNeedsRow | src/hooks/useGroupMembers.tsx:53-54 | without a row of the user, the user is not an admin |
| GroupMembers.AdminOfOwnRows | src/hooks/useGroupMembers.tsx:53-54 | a user all of whose rows are admin rows is an admin |
| GroupMembers.AdminIgnoresProfiles | src/hooks/useGroupMembers.tsx:42-54 | the admin flag does not depend on the fetched profiles |
| GroupMembers.GroupMembersHook.constructor | src/hooks/useGroupMembers.tsx:21-23 | no members, loading, not admin |
| GroupMembers.GroupMembersHook.FetchMembers | src/hooks/useGroupMembers.tsx:25-65 | on success the merged rows and the admin flag, on error both unchanged; loading false |
| GroupMembers.GroupMembersHook.AddMember | src/hooks/useGroupMembers.tsx:73-126 | no insert when no profile has the e-mail or its user is already listed; otherwise the insert with the given role |
| GroupMembers.AddWithDefaultRole | src/hooks/useGroupMembers.tsx:73 | called without a role, the insert carries role 'member' |
| GroupChat.AuthorIds | src/hooks/useGroupChat.tsx:91 | each author id of the fetched messages once, and no other id |
| GroupChat.WithAuthor | src/hooks/useGroupChat.tsx:98-101 | the first profile with the author's id gives the name; otherwise 'Usuario' |
| GroupChat.Merge | src/hooks/useGroupChat.tsx:98-101 | the fetched messages in their `created_at` order, each with its author |
| GroupChat.Appended | src/hooks/useGroupChat.tsx:58-61 | a realtime insert adds one message at the end, earlier messages unchanged, with the profile or 'Usuario' |
| GroupChat.AppendAgreesWithMerge | src/hooks/useGroupChat.tsx:58-61 | a message appended live carries the same author as if it had been fetched |
| GroupChat.ReplyTo | src/hooks/useGroupChat.tsx:127 | an absent or empty reply id is null |
| GroupChat.SendInsert | src/hooks/useGroupChat.tsx:116-128 | no insert without a user or for a blank message; otherwise the trimmed, non-empty message of the user in the group |
| GroupChat.SendIgnoresPadding | src/hooks/useGroupChat.tsx:126 | whitespace around a message does not change what is sent |
| GroupChat.DeletedMessage | src/hooks/useGroupChat.tsx:152 | deleting keeps exactly the messages with another id, in order |
| GroupChat.GroupChatHook.constructor | src/hooks/useGroupChat.tsx:23-25 | no messages, loading, not sending |
| GroupChat.GroupChatHook.FetchMessages | src/hooks/useGroupChat.tsx:71-114 | on success the merged rows, fetched with the profiles of the distinct author ids; on error unchanged; loading false |
| GroupChat.GroupChatHook.OnInsert | src/hooks/useGroupChat.tsx:58-61 | the list becomes `Appended(old, message, profile)` |
| GroupChat.GroupChatHook.SendMessage | src/hooks/useGroupChat.tsx:116-141 | issues exactly `SendInsert` and leaves the list to the realtime insert; sending false again |
| GroupChat.GroupChatHook.DeleteMessage | src/hooks/useGroupChat.tsx:143-166 | on success the messages with the id are filtered out, on error unchanged |
| ExpensesChart.CategoryName | src/components/personal/ExpensesChart.tsx:36 | the category's name, or 'Sin categoría' when it is missing or empty |
| ExpensesChart.CategoryColor | src/components/personal/ExpensesChart.tsx:37 | the category's colour, or '#6b7280' when it is missing or empty |
| ExpensesChart.TallyCategories | src/components/personal/ExpensesChart.tsx:35-49 | the reduction leaves a map keyed by every category name seen, in first-insertion order, each with its slice |
| ExpensesChart.TallyStep | src/components/personal/ExpensesChart.tsx:39-47 | the body adds to an existing slice or creates one with the first expense's colour |
| ExpensesChart.ValuesInOrder | src/components/personal/ExpensesChart.tsx:51 | `Object.values` lists the values in key insertion order |
| ExpensesChart.SlicesOfTally | src/components/personal/ExpensesChart.tsx:49-51 | the values of a finished tally are the slices |
| ExpensesChart.CategoryTotals | src/components/personal/ExpensesChart.tsx:35-51 | the pie data, every category name counted as the map's own key |
| ExpensesChart.TallyAsWritten | src/components/personal/ExpensesChart.tsx:39-47 | as written: a name not yet set but inherited from `Object.prototype` leaves the tally unchanged |
| ExpensesChart.TallyCategoriesAsWritten | src/components/personal/ExpensesChart.tsx:35-49 | as written, the reduction tallies only the expenses whose category name is not inherited |
| ExpensesChart.CategoryTotalsAsWritten | src/components/personal/ExpensesChart.tsx:35-51 | as written, the pie data leaves out categories named like inherited properties |
| ExpensesChart.AsWrittenAgrees | src/components/personal/ExpensesChart.tsx:39 | without such names the code as written and the corrected tally agree |
| ExpensesChart.InheritedCategoryDropped | src/components/personal/ExpensesChart.tsx:39 | one expense of 5 in a category "constructor" gives no slice, though the month totals 5 |
| ExpensesChart.CategorySlices | src/components/personal/ExpensesChart.tsx:35-51 | one slice per distinct category name, in first-appearance order, none twice, each summing that category's amounts |
| ExpensesChart.CategoryColours | src/components/personal/ExpensesChart.tsx:37-46 | each slice takes the colour of its category's first expense |
| ExpensesChart.CategoryTotalsSum | src/components/personal/ExpensesChart.tsx:171 | the slices add up to the sum of all the expenses |
| ExpensesChart.TallyDays | src/components/personal/ExpensesChart.tsx:54-62 | the daily reduction leaves each date seen with the sum of its amounts, a running total of 0 being overwritten to the same effect |
| ExpensesChart.EntriesInOrder | src/components/personal/ExpensesChart.tsx:64 | `Object.entries` lists the dates in insertion order with their totals |
| ExpensesChart.Bars | src/components/personal/ExpensesChart.tsx:65-68 | each date becomes its day of the month with its total |
| ExpensesChart.DailyChart | src/components/personal/ExpensesChart.tsx:54-71 | the bar data computed by the loops is `DailyChartOf` |
| ExpensesChart.DailyBars | src/components/personal/ExpensesChart.tsx:54-69 | bars sorted by day, a permutation of one bar per distinct date, each with that date's sum |
| ExpensesChart.DailyTotalsSum | src/components/personal/ExpensesChart.tsx:54-69 | the bars add up to the sum of all the expenses |
| ExpensesChart.StatsOf | src/components/personal/ExpensesChart.tsx:171-189 | the month total is the slices' sum; the average times the number of bars is the total, or 0 without bars; "Categorías Usadas" is the number of slices |
| ExpensesChart.BarCount | src/components/personal/ExpensesChart.tsx:64-69 | one bar per date, and at least one for a non-empty month |
| ExpensesChart.StatsOfExpenses | src/components/personal/ExpensesChart.tsx:171-189 | the month total is the sum of the expenses and of the bars; one category per slice |
| ExpensesChart.DailyAverageOfExpenses | src/components/personal/ExpensesChart.tsx:180 | for a non-empty month the average is the total over the number of days with expenses |
| ExpensesChart.NoExpensesNoData | src/components/personal/ExpensesChart.tsx:72-75 | no expenses, no slices and no bars |
| ExpensesChart.ChartState.constructor | src/components/personal/ExpensesChart.tsx:25-26 | both lists start empty |
| ExpensesChart.ChartState.OnExpenses | src/components/personal/ExpensesChart.tsx:32-76 | the effect, as written, sets the pie data of the expenses whose category is not named like an inherited property (the corrected tally when no category is) and the bar data of all expenses, both empty for no expenses |
| ExpensesSummary.TotalAfterAdd | src/components/personal/ExpensesSummary.tsx:24 | one more expense adds its amount to the total |
| ExpensesSummary.EmptyMonthZero | src/components/personal/ExpensesSummary.tsx:24 | an empty month totals 0 |
| ExpensesSummary.TotalOrderFree | src/components/personal/ExpensesSummary.tsx:24 | the total does not depend on the order of the expenses |
| ExpensesSummary.ChartViews | src/components/personal/ExpensesSummary.tsx:24 | the charts see each expense's amount, date and category, in order |
| ExpensesSummary.AgreesWithChart | src/components/personal/ExpensesSummary.tsx:24 | the summary's total equals the corrected chart's "Total del Mes"; the chart as written totals only the expenses whose category is not named like an inherited property, and agrees with the summary when no category is |
| ExpensesSummary.CountLabel | src/components/personal/ExpensesSummary.tsx:59 | 'gasto' exactly for one expense, 'gastos' otherwise |
| ExpensesSummary.DescriptionShown | src/components/personal/ExpensesSummary.tsx:88 | the description, or 'Sin descripción' when it is missing or empty; never empty |
| ExpensesSummary.HandleDeleteExpense | src/components/personal/ExpensesSummary.tsx:28-32 | the expense is deleted only after the user confirms |
| Icon.AvailableIcons | src/components/ui/icon.tsx:56 | `Object.keys(iconMap)`: the table's names in declaration order |
| Icon.OwnGlyph | src/components/ui/icon.tsx:22-39 | the table has its own entry for a name exactly when the name is available |
| Icon.TableByGlyph | src/components/ui/icon.tsx:22-39 | sixteen entries, each named after its glyph |
| Icon.AvailableIconsDistinct | src/components/ui/icon.tsx:56 | sixteen names, none twice |
| Icon.AvailableIconsExact | src/components/ui/icon.tsx:22-39 | each name looks up the glyph declared with it |
| Icon.FallbackAvailable | src/components/ui/icon.tsx:64 | the fallback 'DollarSign' is an icon and draws the dollar sign |
| Icon.GetValidIconNameAsWritten | src/components/ui/icon.tsx:59-65 | as written: the name itself when `name in iconMap` holds, inherited names included, and 'DollarSign' otherwise |
| Icon.IconAsWritten | src/components/ui/icon.tsx:45-54 | as written: an available name draws its glyph, an inherited name draws the inherited member, any other name draws DollarSign |
| Icon.InheritedNameAccepted | src/components/ui/icon.tsx:59-65 | "toString" passes the validator as written, although it is not an icon, and the component then draws no glyph |
| Icon.GetValidIconName | src/components/ui/icon.tsx:63-65 | always an available icon: the name when it is one, 'DollarSign' otherwise |
| Icon.GetValidIconNameIdempotent | src/components/ui/icon.tsx:63-65 | validating twice is validating once |
| Icon.IconOf | src/components/ui/icon.tsx:45-54 | the name's glyph, or DollarSign when the table has none |
| Icon.ValidatedNameDraws | src/components/ui/icon.tsx:45-65 | a validated name always draws its own glyph, and both readings agree on every name that is not inherited |
| Icon.EmojiForEveryIcon | src/components/ui/icon.tsx:68-85 | every icon has an emoji, and no two icons share one |

## Left out

- All store calls, `await`, toasts, navigation and console output. Each query is an input, and each write is an element of the returned write list or an outcome parameter.
- The membership query's error path (src/pages/Index.tsx:43). The thrown error leaves the cards as they were and shows a toast. `GroupSummary.GroupsWithData` covers only a result that arrived, with a null result giving no cards.
- The realtime channel subscription and its teardown (src/hooks/useGroupChat.tsx:35-69). Only the append reducer is modelled.
- React scheduling. `calculateBalances` is modelled as a function of the member list it is given. In the code it reads the `members` state right after `setMembers` (src/pages/GroupDetail.tsx:109, 142, 178), so on a first load that state may still be the previous list.
- Effects that only call a fetch when a route parameter and a user are present (for example src/pages/GroupDetail.tsx:61-65). The methods take those presence flags where the handler itself checks them.
- Floating-point arithmetic, `Number(...)` and `toFixed` display rounding. Amounts are exact reals, so last-cent drift in equal splits is not modelled.
- JsNumber: `parseFloat` is modelled on decimal text only. "Infinity", hexadecimal text and the rounding to the nearest double are not covered.
- Date handling: the month window (src/hooks/usePersonalExpenses.tsx:65-66), `new Date(date).getDate()` (src/components/personal/ExpensesChart.tsx:66, the `dayOf` parameter) and date formatting. Day numbers and expiry timestamps are given integers. `now` and `accepted_at` are parameters.
- `localeCompare` is locale-dependent. It is modelled as the code-point lexicographic order on names, which is a total order.
- ExpensesChart.ValuesInOrder: `Object.values` and `Object.entries` put integer-like keys, such as a category named "12", first and in ascending order. The model keeps plain insertion order for every key.
- ExpensesChart.TallyDays: a date string that names an inherited property (e.g. "toString") is not modelled. Dates are ISO day strings.
- SplitCalculator.OverrideOf: an override looked up for a user id that names an inherited property is not modelled. User ids are UUIDs.
- `removeMember` and `changeRole` of src/hooks/useGroupMembers.tsx (lines 128-175). They are single store writes followed by a refetch, with no logic of their own.
- Photo URLs, the e-mail shown in the chat, the message type, and every localized message and toast text.
- `window.confirm` (src/components/personal/ExpensesSummary.tsx:29) is the `confirmed` parameter.
- The loading and empty-state render branches, avatars, initials and the other display-only parts of the pages.
- The pure UI components (GroupChat.tsx, GroupMembersManager.tsx, CategoriesManager.tsx, AddExpenseForm.tsx, Layout.tsx) and the pages Profile.tsx and PersonalExpenses.tsx. They are wiring around the hooks above.
- The generated store types (src/integrations/supabase/types.ts). They give only the record shapes.
- Icon.EmojiFor: the emoji table is written with the Unicode code points of the emoji that the source file's bytes encode.

## Findings

| source | as written | input that shows it | evidently intended | confidence | as-written member | corrected member |
|---|---|---|---|---|---|---|
| src/components/ui/icon.tsx:59-61 | `iconName in iconMap` also holds for names inherited from `Object.prototype` | "toString" passes `isValidIcon`, `getValidIconName` returns it, and `Icon` finds no glyph for it | only the sixteen table names are valid; any other name falls back to 'DollarSign' | not executed | Icon.InheritedNameAccepted | Icon.GetValidIconName |
| src/components/personal/ExpensesChart.tsx:39 | `if (acc[categoryName])` is truthy for an inherited name that is not yet a key, so the amount is added to the inherited property | one expense of 5 in a category named "constructor" gives no slice, while the month totals 5 | every category gets its own slice, and the slices add up to the month's total | not executed | ExpensesChart.InheritedCategoryDropped | ExpensesChart.CategoryTotals |
