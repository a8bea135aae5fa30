# CMR Associates dashboard — a verified model of its state logic

CMR Associates is a React dashboard for an accounting practice. It runs on mock data: a demo sign-in, a file browser, a global search bar, a client list, a settings page, an AI chat panel and cards for third-party integrations. This project is a Dafny model of the parts of that front end that compute or change state. It models the following:

- **Session store** (`Auth`). The `AuthProvider` has the demo allow-list, `login`, `logout`, the mount-time restore from local storage (`cmr_user`), and `isAuthenticated`. It is a class with the fields `user`, `isLoading` and `storage`.
- **File grid** (`FileGrid`):
  - the sort menu's state machine (`handleSortChange`, `toggleSortDirection`, the view switch);
  - the comparator sort that produces `sortedFiles` from a copy of `files`. It is proved to be a sorted permutation and stable.
- **Search bar** (`SearchBar`):
  - the recent-search list: put at the front if new, capped at five, removable;
  - the file-type multi-select toggle;
  - the filter reset and the "filters active" indicator;
  - the handlers that set the term, category and dropdown state.
- **Client list** (`Clients`): the status-tab filter, the tax-status labels, and the avatar initials.
- **Settings** (`Settings`):
  - the profile/password form, with a single-field update;
  - the preference and notification switches;
  - the ordered checks of "Update Password".
- **AI chat assistant** (`ChatAssistant`):
  - the append-only message log and the rule that a blank question is ignored;
  - the ordered keyword tests that pick a canned reply;
  - "clear chat".
- **Integration cards** (`Integrations`): the connect switch. It goes from not connected, through a loading spinner, to connected. From connected it goes straight back to not connected.

Two shared modules hold the JavaScript built-ins these handlers use:

- `Common`:
  - `Option`;
  - `Array.prototype.filter` and its laws;
  - subsequences and "no duplicates".
- `Text`:
  - `trim`;
  - `toLowerCase` (ASCII);
  - `includes`;
  - `split(' ')`, with `join(' ')` as its inverse;
  - `localeCompare`, taken as code-point lexicographic order.

Timers and promises (`setTimeout`, `await`) are modelled as sequential steps:

- `login` runs to completion in one call;
- a chat send is a first half plus a completion;
- an integration toggle schedules a completion, which a caller then runs.

Serialisation to local storage is the identity. Dates are integers that increase with time. Message ids are parameters.

Three behaviours of the code worth knowing:

- **A rejected login leaves `isLoading` true.** The `throw` skips `setIsLoading(false)`.
- **A stored user is adopted without any check.** `JSON.parse` runs unguarded, so there is no "malformed storage means signed out" path.
- **The date sort key is `b - a`, as written.** With this key, `asc` lists the newest file first and the initial `desc` lists the oldest first.

## Model

| member | source | states |
|---|---|---|
| Common.Filter | src/pages/Clients.tsx:217-221 | `Array.prototype.filter`: the result keeps exactly the elements of the input that satisfy the predicate and is no longer than the input |
| Common.FilterCount | src/pages/Clients.tsx:217-221 | each value occurs in the filtered list as often as in the input if it passes the predicate, and not at all otherwise |
| Common.FilterIsSubsequence | src/pages/Clients.tsx:217-221 | filtering keeps the surviving elements in their original relative order |
| Common.FilterIdempotent | src/pages/Clients.tsx:217-221 | filtering twice by the same predicate is filtering once |
| Common.FilterAppend | src/components/ui/SearchBar.tsx:98-104 | filtering distributes over concatenation |
| Common.FilterKeepsAll | src/pages/Clients.tsx:219 | when every element passes, the filter returns the list unchanged |
| Common.RemoveAbsent | src/components/ui/SearchBar.tsx:101 | removing a value that is not present changes nothing |
| Text.IsWhitespace | src/components/ui/SearchBar.tsx:67 | what `trim` removes: space, tab, line feed and carriage return are whitespace, and no visible ASCII character is |
| Text.Trim | src/components/ui/SearchBar.tsx:67 | `trim` leaves a string that is empty or starts and ends with a non-whitespace character |
| Text.TrimIsInfix | src/components/ui/SearchBar.tsx:67 | `trim` returns a contiguous part of the string, with only whitespace removed before and after it |
| Text.TrimEmptyIffBlank | src/components/ai/AiChatAssistant.tsx:55 | `!s.trim()` holds exactly when every character of `s` is whitespace |
| Text.ToLower | src/components/ai/AiChatAssistant.tsx:74 | lower-casing keeps the length and maps each character on its own |
| Text.ToLowerIdempotent | src/components/ai/AiChatAssistant.tsx:74 | lower-casing twice equals lower-casing once |
| Text.ToLowerAppend | src/components/ai/AiChatAssistant.tsx:74 | lower-casing distributes over concatenation |
| Text.Contains | src/components/ai/AiChatAssistant.tsx:76-83 | `includes` finds the empty string in anything and a string in itself, and never finds a needle longer than the haystack |
| Text.ContainsIff | src/components/ai/AiChatAssistant.tsx:76-83 | `includes` holds exactly when the needle occurs at some index of the haystack |
| Text.ContainsMiddle | src/components/ai/AiChatAssistant.tsx:85 | a string embedded anywhere in another is found by `includes` |
| Text.Split | src/pages/Clients.tsx:227 | `split(' ')` yields at least one piece and no piece holds a space |
| Text.Join | src/pages/Clients.tsx:227 | `join(' ')`, the inverse against which `split(' ')` is checked: no pieces give the empty string, and otherwise the result starts with the first piece |
| Text.JoinLength | src/pages/Clients.tsx:227 | the joined string's length is the pieces' total plus one separator between each pair of neighbours |
| Text.JoinSplit | src/pages/Clients.tsx:227 | joining the pieces of `split(' ')` with single spaces gives the original string back |
| Text.SplitNoSpace | src/pages/Clients.tsx:227 | a string without spaces splits into itself alone |
| Text.LexCompare | src/components/files/FileGrid.tsx:265 | `localeCompare` as code-point order returns -1, 0 or 1, and 0 exactly for equal strings |
| Text.LexCompareAntisymmetric | src/components/files/FileGrid.tsx:265 | swapping the operands negates the comparison |
| Text.LexCompareTransitive | src/components/files/FileGrid.tsx:265 | "sorts no later than" is transitive |
| Auth.MockUsers | src/contexts/AuthContext.tsx:25-50 | three demo accounts, all with the password "password" |
| Auth.FindAccount | src/contexts/AuthContext.tsx:72 | the lookup finds an entry exactly when some allow-list entry matches both email and password, and what it finds is such an entry |
| Auth.StripPassword | src/contexts/AuthContext.tsx:75 | the session user carries every field of the matched entry except the password |
| Auth.MatchIsUnique | src/contexts/AuthContext.tsx:25-50 | with distinct emails, a matching entry is the one the lookup returns |
| Auth.MockEmailsDistinct | src/contexts/AuthContext.tsx:25-50 | the three demo accounts have distinct emails |
| Auth.SessionStore.constructor | src/contexts/AuthContext.tsx:53-54 | the provider starts with no user and `isLoading` true, over whatever was persisted |
| Auth.SessionStore.IsAuthenticated | src/contexts/AuthContext.tsx:96 | authenticated exactly when a user is set |
| Auth.SessionStore.Restore | src/contexts/AuthContext.tsx:57-64 | a persisted user is adopted and otherwise the user is left as it was; storage is untouched; loading is over in both cases |
| Auth.SessionStore.Login | src/contexts/AuthContext.tsx:66-86 | success sets the user to the matched entry without its password, persists that same user and ends loading; failure rejects with "Invalid credentials", changes neither user nor storage, and leaves `isLoading` true |
| Auth.SessionStore.Logout | src/contexts/AuthContext.tsx:88-90 | the user and the persisted copy are both cleared; `isLoading` is unchanged |
| Auth.LoginThenReload | src/contexts/AuthContext.tsx:59-61 | after a successful login a reloaded provider restores exactly the logged-in user; after a rejected one it restores what was persisted before |
| Auth.LogoutThenReload | src/contexts/AuthContext.tsx:88-90 | after logout a reload signs no one in, and a second logout gives the same state as one |
| Auth.AdminScenario | src/contexts/AuthContext.tsx:25-33 | the admin credentials sign in with role admin; the same email with a wrong password is rejected and leaves the session unauthenticated |
| FileGrid.TypeName | src/components/files/FileGrid.tsx:27 | each file type is named by a lower-case string literal |
| FileGrid.TypeOrder | src/components/files/FileGrid.tsx:270-272 | comparing type names puts documents, then folders, then spreadsheets, then tax files |
| FileGrid.MockFiles | src/components/files/FileGrid.tsx:200-257 | eight demo files, and exactly the two folders have no size |
| FileGrid.KeyCompare | src/components/files/FileGrid.tsx:263-276 | the date key is negative exactly when the first file is later and zero exactly on equal dates; the string keys give -1, 0 or 1, zero exactly when the compared fields are equal |
| FileGrid.KeyCompareAntisymmetric | src/components/files/FileGrid.tsx:263-276 | swapping two files negates the key comparison, for every mode |
| FileGrid.Compare | src/components/files/FileGrid.tsx:260-279 | `asc` uses the key comparison; `desc` compares the two files the other way round; the direction neither makes nor breaks ties |
| FileGrid.CompareAntisymmetric | src/components/files/FileGrid.tsx:260-279 | swapping two files negates the comparator, for every mode and direction |
| FileGrid.CompareTransitive | src/components/files/FileGrid.tsx:260-279 | the comparator's "not after" is transitive, for every mode and direction |
| FileGrid.Insert | src/components/files/FileGrid.tsx:260 | one insertion step adds exactly the inserted file to the list's contents |
| FileGrid.InsertSorted | src/components/files/FileGrid.tsx:260 | inserting into a sorted list keeps it sorted |
| FileGrid.SortFiles | src/components/files/FileGrid.tsx:260-279 | the sorted copy is a permutation of the files and is ordered by the comparator |
| FileGrid.TiesShareAClass | src/components/files/FileGrid.tsx:260-279 | two files tied with a third are tied with each other |
| FileGrid.InsertKeepsTies | src/components/files/FileGrid.tsx:260 | an inserted file lands ahead of every element tied with it, as in the input |
| FileGrid.SortIsStable | src/components/files/FileGrid.tsx:260 | among files the comparator ties, the sorted list keeps their input order |
| FileGrid.DateOrder | src/components/files/FileGrid.tsx:267-268 | with the `b - a` date key, `asc` lists later dates first and `desc` earlier dates first |
| FileGrid.StringKeyOrder | src/components/files/FileGrid.tsx:264-278 | on name, type or client, `asc` lists the key in non-decreasing order and `desc` in non-increasing order |
| FileGrid.Opposite | src/components/files/FileGrid.tsx:282 | the toggled direction differs from the current one |
| FileGrid.FileGridView.constructor | src/components/files/FileGrid.tsx:195-257 | the view starts in grid mode, sorted by date, descending, over the eight demo files |
| FileGrid.FileGridView.SortedFiles | src/components/files/FileGrid.tsx:260 | `sortedFiles` is a sorted permutation of `files`; `files` itself is a constant and is not reordered |
| FileGrid.FileGridView.ToggleSortDirection | src/components/files/FileGrid.tsx:281-283 | the direction flips; the mode and view are unchanged |
| FileGrid.FileGridView.HandleSortChange | src/components/files/FileGrid.tsx:285-292 | picking the current mode flips the direction; picking another mode selects it ascending |
| FileGrid.FileGridView.SetViewMode | src/components/files/FileGrid.tsx:196 | only the view mode changes |
| FileGrid.SortMenuScenario | src/components/files/FileGrid.tsx:281-292 | choosing a mode twice more, or toggling twice, returns to the same direction; choosing name after the initial date mode gives name ascending |
| SearchBar.RememberSearch | src/components/ui/SearchBar.tsx:70-71 | the term ends up in the list; a term already present (compared untrimmed) leaves the list unchanged; a new term goes to index 0, followed by the old entries, truncated to five |
| SearchBar.RememberSearchKeepsInvariant | src/components/ui/SearchBar.tsx:35-39 | a list of at most five entries without repeats stays so after a submission |
| SearchBar.ToggleMember | src/components/ui/SearchBar.tsx:98-104 | toggling flips the membership of the chosen type and no other |
| SearchBar.ToggleKeepsOthers | src/components/ui/SearchBar.tsx:98-104 | the other types keep their relative order, and an absent type is appended at the end |
| SearchBar.ToggleTwiceRestores | src/components/ui/SearchBar.tsx:98-104 | ticking an unticked type and unticking it again restores the list |
| SearchBar.RemoveKeepsInvariant | src/components/ui/SearchBar.tsx:274 | removing a recent search keeps the others in order and keeps the list short and without repeats |
| SearchBar.MultisetOfDistinct | src/components/ui/SearchBar.tsx:70 | in a list without repeats every value occurs at most once |
| SearchBar.SearchBarState.constructor | src/components/ui/SearchBar.tsx:32-46 | the initial state: collapsed, empty term, category "all", the three initial recent searches, no filters |
| SearchBar.SearchBarState.HandleFocus | src/components/ui/SearchBar.tsx:61-63 | focusing expands the dropdown and changes nothing else |
| SearchBar.SearchBarState.SetSearchTerm | src/components/ui/SearchBar.tsx:114 | typing replaces the term only |
| SearchBar.SearchBarState.HandleSearch | src/components/ui/SearchBar.tsx:65-81 | a blank term changes no state; any other term is remembered and closes the dropdown; the list stays at most five entries without repeats |
| SearchBar.SearchBarState.HandleCategorySelect | src/components/ui/SearchBar.tsx:83-85 | only the category changes |
| SearchBar.SearchBarState.ClearSearch | src/components/ui/SearchBar.tsx:87-89 | only the term is emptied |
| SearchBar.SearchBarState.HandleRecentSearchClick | src/components/ui/SearchBar.tsx:91-96 | the clicked search becomes the term and the dropdown closes |
| SearchBar.SearchBarState.RemoveRecentSearch | src/components/ui/SearchBar.tsx:274 | every copy of the search is deleted, the rest keep their order, and the list invariant is kept |
| SearchBar.SearchBarState.ToggleFileType | src/components/ui/SearchBar.tsx:98-104 | the file types become the toggled list; nothing else changes |
| SearchBar.SearchBarState.SetDateRange | src/components/ui/SearchBar.tsx:151 | only the date range changes |
| SearchBar.SearchBarState.SetTaxStatus | src/components/ui/SearchBar.tsx:184 | only the tax status changes |
| SearchBar.FiltersActive | src/components/ui/SearchBar.tsx:140 | the indicator is on exactly when some filter differs from the value Reset restores |
| SearchBar.SearchBarState.SetFiltersOpen | src/components/ui/SearchBar.tsx:131 | the popover's own open/close request sets the flag and changes nothing else |
| SearchBar.SearchBarState.ApplyFilters | src/components/ui/SearchBar.tsx:211-216 | "Apply Filters" closes the popover and changes no filter, so the indicator is as before |
| SearchBar.SearchBarState.ResetFilters | src/components/ui/SearchBar.tsx:203-207 | no file types, date range "all" and tax status "all", after which the filters-active indicator is off |
| SearchBar.SearchScenario | src/components/ui/SearchBar.tsx:65-81 | a new non-blank term goes to the front of the initial list and submitting it again changes nothing; a blank term is never remembered |
| Clients.MockClients | src/pages/Clients.tsx:70-141 | seven demo clients with distinct ids |
| Clients.ShownOn | src/pages/Clients.tsx:218-221 | a client passes the row test exactly when the tab is "all" or the client's status is the tab's |
| Clients.VisibleClients | src/pages/Clients.tsx:217-221 | the "all" tab shows every client in order; a status tab shows exactly the clients with that status; either way the rows are a subsequence of the list |
| Clients.StatusTabKeepsCounts | src/pages/Clients.tsx:220 | a status tab shows each matching client as often as the list holds it, and no other client |
| Clients.VisibleIdempotent | src/pages/Clients.tsx:217-221 | filtering a tab's rows again by the same tab changes nothing |
| Clients.StatusTabsPartition | src/pages/Clients.tsx:24 | the active, pending and completed tabs together show the whole list, each client exactly once |
| Clients.PendingTabOnMockClients | src/pages/Clients.tsx:70-141 | on the demo data the pending tab shows Susan Smith and Michael Taylor, in that order |
| Clients.PendingOfSeven | src/pages/Clients.tsx:217-221 | for any seven clients with the demo statuses, the pending tab shows the second and the seventh |
| Clients.TaxStatusText | src/pages/Clients.tsx:39-47 | every tax status gets its fixed label, so the "Unknown" default is never produced |
| Clients.TaxStatusTextInjective | src/pages/Clients.tsx:39-47 | different tax statuses get different labels |
| Clients.Heads | src/pages/Clients.tsx:227 | there is at most one initial per piece |
| Clients.HeadsFromPieces | src/pages/Clients.tsx:227 | each initial is the first character of some non-empty piece |
| Clients.Initials | src/pages/Clients.tsx:227 | a name gives at most one initial per space-separated piece |
| Clients.InitialsHaveNoSpace | src/pages/Clients.tsx:227 | the initials never contain a space |
| Clients.HeadsAppend | src/pages/Clients.tsx:227 | the initials of concatenated piece lists are the concatenated initials |
| Clients.SplitAround | src/pages/Clients.tsx:227 | splitting two strings joined by a space splits each side separately |
| Clients.InitialsAppend | src/pages/Clients.tsx:227 | the initials of "a b" are the initials of a followed by those of b |
| Clients.InitialsOfWord | src/pages/Clients.tsx:227 | a single word gives its first character |
| Clients.InitialsOfFirstLast | src/pages/Clients.tsx:227 | "First Last" gives the two first characters, as in "Robert Johnson" giving "RJ" |
| Settings.WithField | src/pages/Settings.tsx:39-45 | the named field takes the new value and every other field is unchanged |
| Settings.FieldsDetermineForm | src/pages/Settings.tsx:16-24 | two forms that agree on every field are equal |
| Settings.WithFieldUnchanged | src/pages/Settings.tsx:39-45 | writing a field's own value back leaves the form unchanged |
| Settings.WithFieldOverwrites | src/pages/Settings.tsx:39-45 | the last of two edits to a field wins |
| Settings.TogglePreference | src/pages/Settings.tsx:47-51 | exactly the chosen preference is negated |
| Settings.TogglePreferenceTwice | src/pages/Settings.tsx:47-51 | toggling a preference twice restores the record |
| Settings.TogglePreferencesCommute | src/pages/Settings.tsx:47-51 | toggles of two preferences give the same record in either order |
| Settings.ToggleNotification | src/pages/Settings.tsx:55-59 | exactly the chosen notification switch is negated |
| Settings.ToggleNotificationTwice | src/pages/Settings.tsx:55-59 | toggling a notification twice restores the record |
| Settings.OutcomeToast | src/pages/Settings.tsx:68-76 | the success toast is shown exactly for a successful update |
| Settings.OutcomeToastInjective | src/pages/Settings.tsx:68-76 | each outcome has a toast of its own |
| Settings.CheckPassword | src/pages/Settings.tsx:67-76 | the outcome is a mismatch exactly when the new and confirm passwords differ; "current required" exactly when they agree and the current one is empty; success otherwise |
| Settings.MismatchCheckedFirst | src/pages/Settings.tsx:68-74 | a mismatch is reported even when the current password is also empty |
| Settings.AnyAgreeingPasswordAccepted | src/pages/Settings.tsx:76-82 | there is no length or strength rule: any agreeing pair, even empty, is accepted once a current password is given |
| Settings.ClearPasswords | src/pages/Settings.tsx:77-82 | the three password fields become empty and name, email, company and phone are unchanged |
| Settings.ClearedFormNeedsCurrent | src/pages/Settings.tsx:72-74 | submitting a just-cleared form reports that the current password is required |
| Settings.SettingsPage.constructor | src/pages/Settings.tsx:15-37 | name and email come from the signed-in user or are empty; the company, phone, preference and notification defaults are set |
| Settings.SettingsPage.HandleInputChange | src/pages/Settings.tsx:39-45 | only the field named by the input id changes |
| Settings.SettingsPage.HandleToggleChange | src/pages/Settings.tsx:47-51 | the preferences become the toggled record; form and notifications are unchanged |
| Settings.SettingsPage.HandleNotificationChange | src/pages/Settings.tsx:55-59 | the notifications become the toggled record; form and preferences are unchanged |
| Settings.SettingsPage.UpdatePassword | src/pages/Settings.tsx:67-83 | the outcome is the first failed check and the form is unchanged, or on success exactly the three password fields are cleared |
| Settings.ChangePassword | src/pages/Settings.tsx:67-83 | after typing the three passwords and pressing the button, a mismatch is reported exactly when the new ones differ; success clears the passwords and keeps the profile; a failure keeps what was typed |
| Settings.DarkModeTwice | src/pages/Settings.tsx:47-51 | toggling dark mode twice restores the defaults and touches no notification |
| ChatAssistant.Classify | src/components/ai/AiChatAssistant.tsx:76-86 | each canned topic is chosen only when its keywords occur in the lower-cased question |
| ChatAssistant.TaxDeadlineTakesPriority | src/components/ai/AiChatAssistant.tsx:76-77 | "tax" together with "deadline" wins over every other keyword |
| ChatAssistant.EarlierTestsWin | src/components/ai/AiChatAssistant.tsx:76-83 | a later topic is chosen only when every earlier test failed: quickbooks/integration, then categorize/organize, then report/"financial statement" |
| ChatAssistant.UnrecognisedIff | src/components/ai/AiChatAssistant.tsx:84-86 | the fallback is reached exactly when no keyword test matches |
| ChatAssistant.Reply | src/components/ai/AiChatAssistant.tsx:73-86 | each recognised topic gets its own canned answer (deadline, integration, categorising, report); the fallback is the fixed prefix, the question exactly as typed (not lower-cased) and the fixed suffix, so it contains the question |
| ChatAssistant.LowerQuickBooks | src/components/ai/AiChatAssistant.tsx:74 | "QuickBooks" lower-cases to "quickbooks" |
| ChatAssistant.QuickBooksMentionIsIntegration | src/components/ai/AiChatAssistant.tsx:74-79 | a question mentioning "QuickBooks" in any capitalisation gets the integration answer unless it asks about a tax deadline |
| ChatAssistant.CapitalisedIsSendable | src/components/ai/AiChatAssistant.tsx:55 | a text that starts with a capital letter passes the blank check |
| ChatAssistant.PredefinedPromptsAreSendable | src/components/ai/AiChatAssistant.tsx:18-24 | every suggested prompt passes the blank check |
| ChatAssistant.ChatPanel.constructor | src/components/ai/AiChatAssistant.tsx:27-36 | the log holds only the welcome message, the input is empty and the panel is idle |
| ChatAssistant.ChatPanel.SetInput | src/components/ai/AiChatAssistant.tsx:200 | typing replaces the input only |
| ChatAssistant.ChatPanel.HandleQuickPrompt | src/components/ai/AiChatAssistant.tsx:104-106 | a suggestion is copied into the input and not sent |
| ChatAssistant.ChatPanel.BeginSend | src/components/ai/AiChatAssistant.tsx:55-66 | a blank input changes nothing; otherwise one user message with the input as content is appended, the input is cleared and the panel is busy |
| ChatAssistant.ChatPanel.FinishSend | src/components/ai/AiChatAssistant.tsx:88-101 | one assistant message with the reply is appended and the panel is idle again |
| ChatAssistant.ChatPanel.HandleSendMessage | src/components/ai/AiChatAssistant.tsx:52-102 | a non-blank send appends exactly the question and its reply after the untouched earlier messages; a blank one changes nothing |
| ChatAssistant.ChatPanel.ClearChat | src/components/ai/AiChatAssistant.tsx:108-118 | the log becomes exactly one assistant message |
| ChatAssistant.AskOnce | src/components/ai/AiChatAssistant.tsx:52-102 | on a fresh panel a blank question leaves only the greeting; any other is logged verbatim and answered, and the panel ends idle |
| ChatAssistant.AskTwiceThenClear | src/components/ai/AiChatAssistant.tsx:108-116 | two questions give five messages, and clearing leaves only the cleared greeting |
| Integrations.MockIntegrations | src/components/integration/IntegrationsPanel.tsx:93-126 | four demo cards, each starting connected exactly when it shows a last-sync time |
| Integrations.PhaseOf | src/components/integration/IntegrationsPanel.tsx:48-52 | the phase is `Loading` exactly while the spinner replaces the switch, and `Connected` exactly when connected and not loading |
| Integrations.AfterToggle | src/components/integration/IntegrationsPanel.tsx:22-33 | from connected the switch leads to not connected; from any other phase, to loading |
| Integrations.ToggleNeverConnects | src/components/integration/IntegrationsPanel.tsx:22-33 | the switch alone never makes a card connected |
| Integrations.PhaseDeterminesFlags | src/components/integration/IntegrationsPanel.tsx:19-20 | when loading implies not connected, the displayed phase determines both flags |
| Integrations.IntegrationCard.SwitchShown | src/components/integration/IntegrationsPanel.tsx:48-52 | the switch is shown exactly when the card is not loading |
| Integrations.IntegrationCard.ConnectedBadge | src/components/integration/IntegrationsPanel.tsx:57-71 | the "Connected" badge follows `isConnected` alone, whatever the loading flag; in states satisfying `Valid()` it shows exactly when the phase is `Connected`, so a loading card shows the spinner beside "Not connected" |
| Integrations.IntegrationCard.constructor | src/components/integration/IntegrationsPanel.tsx:19-20 | a card starts with `isConnected` from its prop and not loading |
| Integrations.IntegrationCard.HandleToggle | src/components/integration/IntegrationsPanel.tsx:22-33 | a connected card disconnects at once without loading; a disconnected one starts loading, stays disconnected and schedules a completion; loading still implies not connected |
| Integrations.IntegrationCard.FinishConnect | src/components/integration/IntegrationsPanel.tsx:26-29 | the completion leaves the card connected and not loading |
| Integrations.ToggleCard | src/components/integration/IntegrationsPanel.tsx:22-33 | one use of the switch: a connected card ends disconnected and never loads; a disconnected one passes through loading to connected |
| Integrations.PendingHidesSwitch | src/components/integration/IntegrationsPanel.tsx:48-52 | while a connection is pending the switch is hidden, so no second toggle can start |

## Left out

- JSX rendering, CSS classes, icons, toasts and navigation are not modelled. Toast texts appear only where they name an outcome (`Settings.OutcomeToast`). `Auth.InvalidCredentials` is the message of the `Error` a rejected login throws, not a toast.
- `localStorage` and `JSON.stringify`/`JSON.parse` are not modelled as I/O. Storage is a field and serialisation is the identity. A malformed stored value is out of scope: the source parses it unguarded.
- `setTimeout`, promises and `await` are modelled as sequential steps. So is the overlap of a pending login with a logout, a concurrency question this model does not capture.
- Auth.SessionStore.Login: the exception is modelled as a `Rejected` result. The error toast's different wording is not modelled.
- Locale-aware collation is not modelled. `localeCompare` is code-point lexicographic order, clamped to -1/0/1; the sort only uses the sign.
- `toLowerCase` is modelled on ASCII letters only. Other characters are kept as they are.
- Strings are sequences of Unicode characters, not UTF-16 code units. So `n[0]` of a word that starts with a character outside the Basic Multilingual Plane differs: JavaScript yields a lone surrogate, and `Clients.Initials` yields the whole character.
- Dates are integers, and `Day` numbers days so that later days are larger. `formatDistanceToNow` and message timestamps are left out.
- `generateUniqueId` depends on the clock and on randomness. Message ids are parameters instead.
- FileGrid.SortFiles: `Array.prototype.sort` on a spread copy is modelled as a stable insertion sort returning a new sequence. In-place mutation of the copy is not modelled.
- The source relies on a stable sort. Stability is proved for the model's sort, which is the behaviour the ECMAScript specification requires of `sort` since ES2019.
- Controls not wired to any logic are left out:
  - the file grid's filter menu items;
  - the client page's search input and filter button;
  - the "Save Changes", "Setup 2FA" and "Disconnect" toasts;
  - the integration card's footer button, which has no handler and is only disabled while loading.
- The click-outside listener that collapses the search dropdown is left out.
- The date-range and tax-status selects are modelled as enumerations of their listed options. An arbitrary string value cannot be chosen from the UI.
- Integrations.IntegrationCard.HandleToggle: the model needs `isLoading ==> !isConnected` on entry, and like the source's handler it accepts a toggle while loading and schedules another completion. The UI cannot produce such a toggle, because the switch is not rendered while loading (`PendingHidesSwitch`).
- ChatAssistant.ChatPanel.FinishSend: the `catch` branch is not modelled, because nothing in the simulated reply can throw.
- `ProtectedRoute` and the pages that only render mock data (dashboard widgets, header, sidebar, login form) are not part of this model.
