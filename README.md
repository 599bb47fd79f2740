# Exegese Pura & Simples: a Dafny model of the client core

"Exegese Pura & Simples" is a single-page client for Bible study. This project
models its core in Dafny 4.11 and proves properties of the model. The core consists of:

- **The application store** (`core/store.ts`). It is one mutable record: current
  screen, navigation parameters, user, content configuration, theme and
  loading flag. Its setters mirror each value to the browser-local cache. Its
  `updateUser` and `updateConfig` shallow-merge a patch, write the result to
  the remote document store, and then write it to the cache.
- **The root component** (`App.tsx`). It renders by fixed priority: the loader,
  the admin console (every identifier that starts `ADMIN_`), welcome,
  registration, the maintenance lockout, and finally the client `switch`. Its
  identity-provider listener resolves sign-in and sign-out.
- **The screens that change state**:
  - registration and the local CRM upsert;
  - saved-study history: search, delete, reopen;
  - the two exegesis generators, current and older;
  - the AI chat;
  - the "more" menu, with notes and feedback;
  - the community feed;
  - the admin dashboard;
  - the older admin editor.
- **The two prompt builders** (`core/gemini.ts`, `services/geminiService.ts`).
  Each takes a reference, a doctrinal line and a study module, and builds the
  prompt for the language model. Each also maps the model's outcome to the text
  the user sees.

Objects whose fields the source updates in place are Dafny `class`es:
- `AppStore`;
- `LocalCache` and `RemoteStore`;
- one class per screen component, holding its `useState` fields.

Each such class exposes a `State()` or `Snapshot()` value, and every method
states the whole new state as an update of `old(State())`. Pure logic is made of
functions with named results and lemmas:
- render dispatch;
- patch merges;
- prompt construction;
- validation;
- filters;
- paragraph rendering.

The outside world never runs inside the model. Each of the following is a
parameter of the method:
- an SDK answer;
- a network success;
- `Date.now()`;
- a `confirm()` answer.

An `async` handler that awaits is split into two methods at its suspension
point, `Begin…` and `Finish…`. This makes the interleaving visible, for
example a second send while the first is pending.

## Model

| member | source | states |
|---|---|---|
| CoreTypes.AdminPrefixExact | App.tsx:76-81 | the router's `startsWith('ADMIN_')` test is true exactly for the six identifiers declared under ADMIN VIEWS |
| CoreTypes.AllViewsComplete | core/types.ts:1-21 | the enum lists all sixteen identifiers |
| CoreTypes.AdminViewsAreSix | core/types.ts:14-20 | in declaration order, exactly the last six identifiers are admin views, and every admin identifier is one of those six |
| CoreTypes.TheologyLabelsDistinct | core/types.ts:23-27 | the three doctrinal lines have pairwise distinct runtime strings |
| CoreTypes.ModuleLabelsDistinct | core/types.ts:29-36 | the six study modules have pairwise distinct runtime strings |
| CoreTypes.InitialAdminConfigEnablesAll | core/types.ts:91-98 | the seed configuration is not in maintenance, has no library link and enables every module (`Object.values`) |
| CoreTypes.InitialUserIsGuest | core/types.ts:112-122 | the initial user is the unregistered `guest` with empty form fields |
| LegacyTypes.LegacyAdminPrefix | types.ts:1-12 | in the older enum only ADMIN_LOGIN and ADMIN_DASHBOARD carry the admin prefix |
| LegacyTypes.LegacyLabelsAgreeExceptDictionary | types.ts:20-27 | the older module strings equal the current ones except for the dictionary module |
| LegacyTypes.LegacyInitialConfigEnablesAll | types.ts:51-56 | the older seed configuration is open and enables every module |
| Storage.UpsertNote | client/More.tsx:157 | saving a note with a known id replaces every entry with that id in place, keeping length, order and all other entries; an unknown id is appended at the end |
| Storage.RemoteStore.SaveUserProfile | services/firebase.ts:44-46 | a profile write is logged; on success the `users` document for the id holds the profile; the config document is untouched |
| Storage.RemoteStore.SaveAdminConfig | services/firebase.ts:55-57 | a configuration write is logged; on success the `config/app` document holds it; users are untouched |
| Store.MergeUserLaws | core/store.ts:87-90 | the spread merge: an empty patch is the identity, a full patch replaces, two merges are one merge of the combined patch, merging a patch twice is merging it once |
| Store.MergeUserKeepsGuestInvariant | core/store.ts:87-90 | a merge keeps the guest invariant (the guest is never registered) when the patch touches neither id nor registration flag, or clears the flag; the guest id arises only from the patch or the old record |
| Store.MergeConfigIdempotent | core/store.ts:97-100 | the configuration merge is idempotent and an empty patch changes nothing |
| Store.AppStore.constructor | core/store.ts:38-44 | the store starts on WELCOME without parameters, with the initial user and configuration, the cached theme, and loading |
| Store.AppStore.SetView | core/store.ts:46 | view and parameters are replaced (parameters default to none); nothing else changes |
| Store.AppStore.SetUser | core/store.ts:48-51 | the state and the cache both hold the new user; nothing else changes |
| Store.AppStore.SetConfig | core/store.ts:53-56 | the state and the cache both hold the new configuration |
| Store.AppStore.SetTheme | core/store.ts:58-61 | the state and the cache both hold the new theme |
| Store.AppStore.SetLoading | core/store.ts:63 | only the loading flag changes |
| Storage.RemoteStore.GetAdminConfig | services/firebase.ts:59-63 | the reading rejects exactly when the store is unreachable; it returns the stored document, or the seed configuration when there is none, and changes nothing |
| Storage.RemoteStore.FindAdminConfig | core/store.ts:72-75 | corrected reading: a missing document is reported as nothing, as the store's fallback expects |
| Storage.SavedConfigIsRead | services/firebase.ts:55-63 | a configuration written successfully is what the next reading returns (`back`), and users are untouched |
| Store.AppStore.Init | core/store.ts:65-85 | loading ends on every path; a rejection keeps the old configuration and theme; otherwise the remote document, or the seed configuration when there is none, becomes the configuration and the theme is reloaded from the cache; the cache fallback never runs |
| Store.AppStore.InitWithLocalFallback | core/store.ts:65-85 | corrected boot: as `Init`, but a missing document gives the cached configuration |
| Store.BootWithoutRemoteDocument | core/store.ts:69-75 | with no remote document and a cached lockout, the boot as written ends without maintenance, the corrected boot keeps it |
| Store.AppStore.UpdateUser | core/store.ts:87-95 | the state holds the merged user; a non-guest record is written remotely; the cache receives it only when that write succeeds or none is needed |
| Store.AppStore.UpdateConfig | core/store.ts:97-103 | the state holds the merged configuration; it is always written remotely; the cache receives it only when the write succeeds |
| Store.UpdateConfigTwice | core/store.ts:97-103 | two successful calls with one patch leave state, remote document and cache as one call does, with two identical writes logged |
| App.RenderWhileLoading | App.tsx:66-73 | while loading only the loader renders |
| App.RenderAdmin | App.tsx:76-81 | once loaded, ADMIN_LOGIN renders the login and every other admin identifier the dashboard, whatever the configuration |
| App.RenderPreAuth | App.tsx:84-158 | welcome and registration render before the maintenance gate |
| App.RenderMaintenance | App.tsx:165-169 | the maintenance screen is shown if and only if maintenance is on and the view is a client view other than welcome and registration |
| App.RenderClient | App.tsx:200-219 | without maintenance the client switch decides; MORE receives `viewParams.section`; exactly the identifiers outside the switch render Home |
| App.MaintenanceEscape | App.tsx:169 | the lockout's button leads to ADMIN_LOGIN, an admin identifier |
| App.MaintenanceEscapeReachesLogin | App.tsx:76-169 | the lockout's button renders the admin login whatever the configuration, so maintenance never locks the admin out |
| App.EnterLeadsTo | App.tsx:76-169 | what "Entrar no Estudo" shows: Home for a registered user, or the lockout under maintenance; the registration form for anyone else, even under maintenance |
| App.SignOutRestoresGuest | App.tsx:57-60 | sign-out sets the guest id, clears registration, keeps the other fields and does not navigate |
| App.SignInOutcomes | App.tsx:45-56 | a found profile is adopted and redirects Home only from welcome or registration; a missing profile keeps the record with the identity's id and forces registration |
| App.ApplyAuthEffect | App.tsx:48-59 | the listener's effect goes through `setUser`, then `setView` when it navigates |
| App.OnAuthStateChangedAsWritten | App.tsx:39-64 | as written, the listener decides from the first render's view and user (WELCOME, INITIAL_USER); the store and the cache receive the resulting user |
| App.StaleListenerIgnoresCurrentScreen | App.tsx:39-64 | as written, a sign-in with a profile always goes Home and a sign-out yields INITIAL_USER; the intended rule would not navigate from BIBLE |
| App.OnAuthStateChanged | App.tsx:44-61 | corrected listener: a sign-in with a profile leaves the user Home exactly when they were on welcome, registration or Home; sign-out yields the guest with the current name and view |
| Registration.EffectiveChurchChoice | client/Registration.tsx:62 | the stored church is the free text for "Nova Igreja", the selection otherwise |
| Registration.Validate | client/Registration.tsx:61-72 | the form is accepted if and only if name, age, effective church, role, WhatsApp and photo are all non-empty; a missing photo is reported only when the photo is empty and every text field is complete |
| Registration.NewProfileFromForm | client/Registration.tsx:74-81 | the new profile does not depend on the cached record, is registered, dated now, and carries the form's fields and the given id |
| Registration.UpsertCrmSpec | client/Registration.tsx:85-88 | the CRM list keeps, in order and with every copy, each entry with another id, drops every old entry with the new id, and ends with the new profile, which appears exactly once under its id |
| Registration.HandleSubmit | client/Registration.tsx:61-91 | a rejected form writes nothing; an accepted one writes the new profile to the cached user and upserts it into the CRM list, then completes |
| History.FilterStudies | client/History.tsx:34-37 | the search keeps, in order and with every copy, exactly the studies whose lower-cased reference or module contains the lower-cased term, and drops every copy of the others; an empty term keeps all |
| History.SearchIgnoresTermCase | client/History.tsx:34-37 | the search folds the term's case: the lower-cased term selects exactly the same studies |
| History.RemoveStudy | client/History.tsx:22 | deleting drops every copy of a study with the id and keeps, in order, every copy of each other study |
| History.HistoryScreen.constructor | client/History.tsx:10-16 | mounting loads the saved studies with an empty search |
| History.HistoryScreen.SetSearchTerm | client/History.tsx:11 | only the search term changes |
| History.HistoryScreen.HandleDelete | client/History.tsx:18-26 | on confirmation the stored list and the screen list both become the reloaded list without the id; otherwise nothing changes |
| History.HistoryScreen.HandleOpenStudy | client/History.tsx:28-32 | opening navigates to EXEGESIS carrying the study |
| More.SectionFollowsProp | client/More.tsx:13-17 | the mount value and the prop-change effect agree: following the mount prop changes nothing, following a prop twice is following it once, a prop that opens a section at mount overrides the open one, any other prop keeps it |
| More.LibraryAndBooksAgree | client/More.tsx:27-43 | LIBRARY and BOOKS show the same pane: a redirect to the configured link, or the maintenance notice without one |
| More.UnknownSectionShowsMenu | client/More.tsx:22-60 | any section outside the six handled names shows the main menu |
| More.MoreMenu.constructor | client/More.tsx:13 | the menu starts on the initial section |
| More.MoreMenu.OnInitialSectionChanged | client/More.tsx:15-17 | the section follows a non-empty prop |
| More.MoreMenu.Select | client/More.tsx:51-56 | a menu card opens its section |
| More.MoreMenu.GoBack | client/More.tsx:19 | going back clears the section |
| More.MoreMenu.Render | client/More.tsx:22-43 | the pane is the dispatch of the current section; a library redirect also clears the section |
| More.NotesSection.constructor | client/More.tsx:152-153 | notes are loaded from the cache and no editor is open |
| More.NotesSection.NewNote | client/More.tsx:194 | the "+" button opens an empty note with a time-based id |
| More.NotesSection.Open | client/More.tsx:188 | tapping a note opens it in the editor |
| More.NotesSection.EditTitle | client/More.tsx:174 | editing changes only the open note's title |
| More.NotesSection.EditContent | client/More.tsx:175 | editing changes only the open note's content |
| More.NotesSection.CloseEditor | client/More.tsx:170 | the back arrow closes the editor without saving |
| More.NotesSection.Save | client/More.tsx:155-160 | saving requires a title; it upserts the note stamped `now`, reloads the list and closes the editor; without a title nothing changes |
| More.NotesSection.Delete | client/More.tsx:162-165 | on confirmation the note is removed from the cache and the list reloaded; otherwise nothing changes |
| More.FeedbackAfterRegistration | client/More.tsx:200-206 | feedback sent after registration carries the registered id and the form's name, whatever the cache held before, and the typed message |
| More.FeedbackSection.constructor | client/More.tsx:200 | the feedback text starts empty |
| More.FeedbackSection.SetText | client/More.tsx:200 | only the text changes |
| More.FeedbackSection.Send | client/More.tsx:201-206 | empty text sends nothing; otherwise one entry is appended to the cached feedback and the text is cleared |
| CoreGemini.ChooseApiKey | core/gemini.ts:5-9 | the key is the first non-empty of the Gemini key, the Firebase key and the fallback, and is never empty |
| CoreGemini.AskRequest | core/gemini.ts:14-25 | the chat sends the question as the prompt, under an instruction naming the persona and the doctrinal line |
| CoreGemini.AskReply | core/gemini.ts:25-31 | the chat reply is the model's text, or the fixed apology on any failure |
| CoreGemini.ExegesisInstruction | core/gemini.ts:43-45 | the generator's instruction names the doctrinal line |
| CoreGemini.ModuleOfLabel | core/gemini.ts:51-72 | a runtime string selects a case exactly when it is a module's label; otherwise it reaches `default` |
| CoreGemini.ModuleOfLabelInverse | core/gemini.ts:51-69 | every module's label selects that module's case |
| CoreGemini.CasePromptQuotes | core/gemini.ts:52-69 | every case prompt contains the reference |
| CoreGemini.PromptQuotesReference | core/gemini.ts:51-72 | every prompt, default included, contains the reference in double quotes |
| CoreGemini.CasePromptOpensWithLead | core/gemini.ts:52-69 | each case prompt starts with that case's lead sentence, which starts with the case's first words ("Realize", "Gere uma", "Gere apenas", "Crie um", "Defina", "Analise") |
| CoreGemini.CaseLeadsDiffer | core/gemini.ts:52-69 | the six leads differ in their first or sixth character, and each prompt carries its lead's characters at those positions |
| CoreGemini.PromptIdentifiesModule | core/gemini.ts:51-69 | different modules produce different prompts |
| CoreGemini.FullCaseNamesTheology | core/gemini.ts:56 | the full-exegesis prompt names the doctrinal line |
| CoreGemini.FullExegesisPromptNamesTheology | core/gemini.ts:55-57 | the same holds for the prompt selected by the full-exegesis label |
| CoreGemini.DefaultPromptNamesModule | core/gemini.ts:70-71 | a string that is no module's label reaches the default prompt, which names it |
| CoreGemini.ExegesisRequest | core/gemini.ts:41-74 | the request's instruction names the doctrinal line and its prompt quotes the reference |
| CoreGemini.FailureReply | core/gemini.ts:81-90 | the invalid-key notice is returned if and only if the error message contains `API_KEY_INVALID`; any other failure gives the generic notice |
| CoreGemini.EmptyAnswerIsGeneric | core/gemini.ts:78 | an empty answer's thrown error leads to the generic notice |
| CoreGemini.ExegesisReplyOutcomes | core/gemini.ts:74-90 | the reply is never empty: the model's non-empty text, the generic notice for an empty text, one of the two notices on failure |
| GeminiService.InstructionOpening | services/geminiService.ts:30-49 | each module's instruction starts with that module's first words ("Analise as", "Forneça", "Crie", "Prepare", "Liste", "Analise a"), so the six openings differ |
| GeminiService.ModuleInstructionsDistinct | services/geminiService.ts:30-49 | different modules append different instructions |
| GeminiService.PromptStructure | services/geminiService.ts:21-51 | the prompt opens with the header, quotes the reference, names the doctrinal line and the module, contains the module's instruction and ends with the closing sentence |
| GeminiService.GenerateExegesisOutcomes | services/geminiService.ts:4-66 | without a key nothing is sent and the missing-key notice is returned; with one the full prompt is sent and the reply is the non-empty text or one of two notices; never empty |
| BibleAI.ModeNamesDistinct | client/BibleAI.tsx:77-101 | personas and mode labels are distinct per mode; persona and label coincide except for the studies mode |
| BibleAI.SuggestionsAreNotBlank | client/BibleAI.tsx:16-38 | every mode offers five non-blank suggestions |
| BibleAI.ModeNotice | client/BibleAI.tsx:57-65 | the mode-change notice is an AI message labelled "Sistema" that names the new mode |
| BibleAI.RequestFor | client/BibleAI.tsx:76-82 | the question is sent under an instruction naming the mode's persona and the doctrinal line |
| BibleAI.AnswerMessage | client/BibleAI.tsx:84-89 | the answer is an AI message labelled with the mode, carrying the model's text or the apology |
| BibleAI.SendRefusedMeaning | client/BibleAI.tsx:69 | a send is refused exactly when the text is blank after trimming or an answer is pending |
| BibleAI.ChatScreen.constructor | client/BibleAI.tsx:42-48 | the chat starts in counselor mode, Calvinist, with the greeting only, empty input, not loading |
| BibleAI.ChatScreen.SetInput | client/BibleAI.tsx:207 | only the input changes |
| BibleAI.ChatScreen.SetTheology | client/BibleAI.tsx:139 | only the doctrinal line changes |
| BibleAI.ChatScreen.ModeChange | client/BibleAI.tsx:55-66 | the mode changes and exactly one notice is appended |
| BibleAI.ChatScreen.BeginSend | client/BibleAI.tsx:68-82 | a refused send changes nothing; otherwise the user message is appended, the input cleared, loading set, and the pending question carries text, line and mode |
| BibleAI.ChatScreen.FinishSend | client/BibleAI.tsx:82-91 | the answer is appended and loading cleared |
| BibleAI.Exchange | client/BibleAI.tsx:68-92 | an accepted send ends with exactly the user message and the answer appended; while it is pending a second send is refused (`secondRefused`); mode and line are unchanged |
| Exegesis.JobRequest | client/Exegesis.tsx:21 | the generator is asked with the form's reference quoted and its doctrinal line named |
| Exegesis.ResultParagraphsFaithful | client/Exegesis.tsx:58-63 | rejoining the rendered lines gives the result without `#` and `*`; headings are the lines starting `##` or `**` |
| Exegesis.ExegesisScreen.constructor | client/Exegesis.tsx:12-16 | the form starts empty, Calvinist, full exegesis, idle, without a result |
| Exegesis.ExegesisScreen.SetReference | client/Exegesis.tsx:12 | only the reference changes |
| Exegesis.ExegesisScreen.SetTheology | client/Exegesis.tsx:13 | only the doctrinal line changes |
| Exegesis.ExegesisScreen.SetModule | client/Exegesis.tsx:14 | only the module changes |
| Exegesis.ExegesisScreen.CloseResult | client/Exegesis.tsx:44 | the back button clears the result |
| Exegesis.ExegesisScreen.BeginExecute | client/Exegesis.tsx:18-21 | an empty reference does nothing; otherwise loading starts with the current form as the job |
| Exegesis.ExegesisScreen.FinishExecute | client/Exegesis.tsx:21-23 | the reply becomes the result, which is always shown, and loading ends |
| Exegesis.ExegesisScreen.HandleSave | client/Exegesis.tsx:26-37 | if and only if a result is shown, one study built from the form and the result is appended to the cache |
| ExegesisView.JobReply | views/ExegesisView.tsx:24-26 | the older generator always yields a non-empty text |
| ExegesisView.ResultParagraphsFaithful | views/ExegesisView.tsx:62-66 | rejoining the rendered lines gives the result without `#`; `*` is kept |
| ExegesisView.LegacyExegesisScreen.constructor | views/ExegesisView.tsx:12-16 | the form starts empty, Calvinist, full exegesis, idle, without a result |
| ExegesisView.LegacyExegesisScreen.SetReference | views/ExegesisView.tsx:12 | only the reference changes |
| ExegesisView.LegacyExegesisScreen.SetTheology | views/ExegesisView.tsx:13 | only the doctrinal line changes |
| ExegesisView.LegacyExegesisScreen.SetModule | views/ExegesisView.tsx:14 | only the module changes |
| ExegesisView.LegacyExegesisScreen.CloseResult | views/ExegesisView.tsx:48 | the back button clears the result |
| ExegesisView.LegacyExegesisScreen.BeginExecute | views/ExegesisView.tsx:18-24 | an empty reference does nothing; otherwise loading starts, the old result is cleared, and the form is the job |
| ExegesisView.LegacyExegesisScreen.FinishExecute | views/ExegesisView.tsx:24-27 | the non-empty reply becomes the result and loading ends |
| ExegesisView.LegacyExegesisScreen.HandleSave | views/ExegesisView.tsx:30-42 | a study is handed to the parent if and only if a result is shown, built from the form, the result and the timestamp |
| Community.ShareTextShape | client/Community.tsx:31-32 | the shared text opens with the heading and reference, contains the first 100 characters of the content, and is bounded in length |
| Community.ShareUrl | client/Community.tsx:33 | the share link is a `wa.me` text link |
| Community.CardFor | client/Community.tsx:78-116 | a card shows the avatar or the Felix default, the date or "Agora", the likes or 0, and the content without `#` and `*` |
| Community.CardIgnoresPrestrippedContent | client/Community.tsx:104 | content whose marks were already removed gives the same card as the raw content |
| Community.Screen | client/Community.tsx:36-63 | the feed shows the loader exactly while loading, the empty notice exactly for no studies, otherwise one card per study in order |
| Community.CommunityFeed.constructor | client/Community.tsx:14-15 | the feed starts loading with no studies |
| Community.CommunityFeed.FinishFetch | client/Community.tsx:17-29 | loading ends on every path; fetched studies replace the list, a rejection keeps it |
| Community.MountAndFetch | client/Community.tsx:13-63 | after mounting and fetching, a rejection shows the empty notice and a result shows its screen |
| Dashboard.RenderContentCases | admin/Dashboard.tsx:124-132 | the home panel, with the user count, is rendered exactly for identifiers outside users, content and support |
| Dashboard.MemberTableAgreesWithCount | admin/Dashboard.tsx:38-52 | the home panel's count equals the number of table rows over the same list, and the table is empty exactly when the count is zero |
| Dashboard.RegisteredMemberListedLast | admin/Dashboard.tsx:52 | after a registration the new member is the table's last row, with the form's name and role |
| Dashboard.DashboardScreen.constructor | admin/Dashboard.tsx:116-117 | the dashboard starts on ADMIN_HOME with count 0 |
| Dashboard.DashboardScreen.LoadUserCount | admin/Dashboard.tsx:119-122 | the count becomes the length of the CRM list, which is the number of rows the members table shows |
| Dashboard.DashboardScreen.Navigate | admin/Dashboard.tsx:116 | only the current panel changes |
| Dashboard.DashboardScreen.Current | admin/Dashboard.tsx:124-132 | the rendered panel is the dispatch of the current state |
| Dashboard.ContentConfigEditor.constructor | admin/Dashboard.tsx:62 | the editor starts from the cached configuration |
| Dashboard.ContentConfigEditor.SetCoverTitle | admin/Dashboard.tsx:70 | only the cover title changes; maintenance and modules stay as loaded |
| Dashboard.ContentConfigEditor.SetCoverImageUrl | admin/Dashboard.tsx:73 | only the cover image changes |
| Dashboard.ContentConfigEditor.SetAnnouncement | admin/Dashboard.tsx:76 | only the announcement changes |
| Dashboard.ContentConfigEditor.SetLibraryDriveUrl | admin/Dashboard.tsx:79 | only the library link changes |
| Dashboard.ContentConfigEditor.HandleSave | admin/Dashboard.tsx:63 | saving writes the edited configuration to the local cache only, with maintenance and modules as loaded |
| AdminView.SetModuleChecked | views/AdminView.tsx:100-107 | checking appends the module; unchecking removes every copy and keeps, in order and with every copy, the other modules |
| AdminView.ToggleModuleSpec | views/AdminView.tsx:100-107 | on a duplicate-free list, toggling flips exactly the module's membership, keeps the list duplicate-free, and toggling twice restores the membership |
| AdminView.AdminEditor.constructor | views/AdminView.tsx:12 | the local copy starts as the given configuration |
| AdminView.AdminEditor.SetCoverTitle | views/AdminView.tsx:48 | only the cover title changes |
| AdminView.AdminEditor.SetCoverImageUrl | views/AdminView.tsx:57 | only the cover image changes |
| AdminView.AdminEditor.ToggleMaintenance | views/AdminView.tsx:80 | the maintenance flag flips |
| AdminView.AdminEditor.OnModuleChange | views/AdminView.tsx:101-107 | the module list is updated by the checkbox rule |
| AdminView.AdminEditor.HandleSave | views/AdminView.tsx:14-17 | the parent receives the local copy |
| Paragraphs.Render | client/Exegesis.tsx:58-63 | one paragraph per line, heading as decided per line, no mark and no line break left in any text |
| Paragraphs.RenderKeepsText | client/Exegesis.tsx:58-63 | rejoining the paragraphs' texts gives the whole result with the marks removed |
| Paragraphs.StripJoinLines | client/Exegesis.tsx:60-62 | removing marks line by line then joining equals joining then removing marks |
| Text.ToLowerIdempotent | client/History.tsx:35-36 | lower-casing twice is lower-casing once |
| Text.TrimEmptyIffBlank | client/BibleAI.tsx:69 | the trimmed text is empty exactly when every character is whitespace |
| Text.StripIdempotent | client/Community.tsx:104 | removing marks twice is removing them once |
| Text.JoinSplitLines | client/Exegesis.tsx:58 | splitting at line breaks and rejoining gives the original text |

## Left out

- `CoreStorage` (`core/storage.ts`) is not part of this model. `LocalCache` assumes these semantics:
  - `saveStudy` and `saveFeedback` append;
  - `saveNote` upserts by id;
  - `deleteNote` removes every entry with the id;
  - every other `save…` overwrites its key;
  - each `load…` returns what was last saved.
- The Firebase SDK is `RemoteStore`, a document map with a log of issued writes. Whether a write succeeds is a parameter. Reading the profile on sign-in is the `profile` field of the sign-in event.
- The Gemini SDKs are not modelled. The model's answer, or the failure it throws, is a parameter (`AiOutcome`, `GenAiOutcome`). The environment variables are parameters (`ChooseApiKey`, `HasClient`).
- `Date.now()`, `new Date().toISOString()`, `alert`, `confirm`, `window.open`, `encodeURIComponent`, file reading for the photo upload and scrolling are parameters or are left out.
- Rendering is not modelled:
  - markup, styling and animation are left out;
  - the screens `Home`, `Tools`, `Profile`, `Settings`, `Navigation`, `Login` and `HomeView` are out;
  - buttons that only call `setView` with a fixed target are out.
  The dispatch is captured as the `Screen`, `MorePane`, `FeedScreen` and `AdminPanel` values.
- `readingSettings` / `setReadingSettings`: `App.tsx` takes both from the store, but `core/store.ts` defines neither. Only the seed value is modelled.
- `getSharedStudies` and `SharedStudy`: `client/Community.tsx` imports both from `services/firebase.ts`, which exports neither. The fetch result is a parameter of `FinishFetch`. `SharedStudy` is modelled from its uses.
- The devotional list, `loadDevotionals`, and the community list inside the "more" menu (`CommunitySection`, which reads the raw CRM key) are not modelled beyond being dispatched to.
- A rejected `getUserProfile` inside the identity listener (App.tsx:45) is not caught by the code and is not modelled. `AuthEvent.SignedIn` carries only a settled result, found or not found.
- Asynchrony: only the one suspension point of each awaited handler is modelled, as a `Begin…`/`Finish…` pair. Other interleavings are not, such as a screen unmounting while awaiting, or `init` racing the listener.
- `Text.ToLower` covers ASCII and Latin-1 capitals only, not the full Unicode case mapping of `toLowerCase`. Strings are sequences of code points, not UTF-16 units, so `substring(0, 100)` in `Take` counts code points.
- The React state updater functions (`prev => …`) are modelled as direct updates. In a single handler they give the same result.
- Behaviours of the code worth noting, which the model follows:
  - `updateUser` and `updateConfig` write the cache only after the remote write resolves, so a rejected remote write leaves the cache stale.
  - A new registration takes `Date.now()` as its id, not the identity provider's uid. So "a registered user's id is the authenticated id" is not asserted.
  - The `customChurch` form field is spread into the stored profile. `UserProfile` has no such field, so the model drops it.
  - Registration writes only the local cache: `onComplete` only navigates Home (App.tsx:153), and `handleSubmit` neither calls `updateUser` nor saves a remote profile. So the store's user and the remote `users` collection never receive the registration; after a reload, a signed-in identity with no remote profile is sent back to registration (`App.SignInOutcomes`).
- Dashboard.ContentConfigEditor.HandleSave: the console's content editor saves to the local cache only. It does not go through the store's `updateConfig`, so the remote configuration is not updated. This is the code's behaviour, not a weakened contract.

## Findings

| source | as written | input that shows it | evidently intended | confidence | as-written member | corrected member |
|---|---|---|---|---|---|---|
| App.tsx:44-61 | the identity listener is registered once (`useEffect(…, [])`), so its callback reads `view` and `user` from the first render: WELCOME and INITIAL_USER | a sign-in whose profile exists, arriving while the user is on BIBLE, navigates to HOME; a sign-out replaces the current record by INITIAL_USER instead of keeping its fields | redirect only from WELCOME or REGISTER, judged on the current view, and update the current user's record | not executed | App.OnAuthStateChangedAsWritten, App.StaleListenerIgnoresCurrentScreen | App.OnAuthStateChanged |
| core/store.ts:69-75 | `init` falls back to the cached configuration when `getAdminConfig()` gives nothing, but `getAdminConfig` (services/firebase.ts:59-63) substitutes INITIAL_ADMIN_CONFIG for a missing document, so the fallback never runs | no `config/app` document, and a cached configuration with maintenance on: the store boots with maintenance off | a missing remote document falls back to the cached configuration | not executed | Store.AppStore.Init, Store.BootWithoutRemoteDocument | Store.AppStore.InitWithLocalFallback |
