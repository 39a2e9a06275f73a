# FinancialForge project core, modelled in Dafny

This project models the core of FinancialForge AI, a tool for assembling financial-infrastructure
"blueprint" projects with help from a generative model. The model covers five parts:

- **Data model** (`types.dfy`, module `Types`). It holds the eight infrastructure-component tags and
  their literals. Each variant's specific fields sit in a `Details` datatype with one constructor per tag.
  The module also holds criticality, task status, the concept, the auxiliary records and the project
  record that owns them.
- **Project store** (`store.dfy`, module `Store`). The application state is
  `{projects, activeProjectId, currentView}`. The pure reducer `Reduce` handles the six action kinds
  and the default branch. The replace-by-id and filter-by-id patterns it uses live in `keyed.dfy`
  (module `Keyed`). The editor uses the find-first pattern from the same module.
- **Persistence** (`repository.dfy`, module `Repository`). Storage is one overwrite slot. At start-up
  the load effect dispatches `LOAD_PROJECTS` only when a value is stored. The save effect re-runs
  whenever the reducer returns a new project list. Its first run, in the same commit as the load,
  still sees the initial empty list, so a stored list is overwritten with `[]` before the re-render
  writes it back (`Repository.MountWrites`).
- **Generation service post-processing** (`service.dfy`, module `Service`). An absent or empty response
  text falls back to `{}` before parsing. The image reference is the data URL of the first part that
  carries inline data. Both flows are built from these pieces. The model calls and `JSON.parse` are an
  `Oracle`: a request is either answered or rejected, and a parse either yields a value or fails.
- **View handlers** (`editor.dfy` and `dashboard.dfy`, modules `Editor` and `Dashboard`). Each handler
  is a pure function. It takes the state, the oracle, a fresh id and the clock value. It returns the
  action(s) it would dispatch, or nothing. `scenario.dfy` chains them into one full session.

Behaviour of the code that is easy to misread:

- `SET_ACTIVE` picks the view by JavaScript truthiness (`App.tsx:44`). An empty-string id therefore
  selects the dashboard, not the editor (`Store.Truthy`).
- The reducer does not guarantee that the active id names a listed project. `SET_ACTIVE` and
  `LOAD_PROJECTS` accept any id (`Store.SetActiveCanDangle`). The guarantee holds only for the actions
  the views actually issue (`Store.Issuable`, `Store.ReduceAllPreservesNoDangling`).
- The reducer does not check that project ids are unique. They stay unique only while every added
  project brings a fresh id and every loaded list is itself unique (`Store.FreshIds`,
  `Store.ReduceAllPreservesUniqueIds`). The editor's first-match lookup relies on this.
- `UPDATE_PROJECT` replaces every project whose id matches. `DELETE_PROJECT` removes every one.
- Deleting a component does not refresh the project's `updatedAt` (`views/ProjectEditor.tsx:212`).
  Concept refinement and component generation do refresh it.
- A rejected image request fails the whole generation. Only a successful image response that carries
  no inline part is tolerated; it yields the empty reference.
- The payload is not checked against the requested component type. The stamped component is well
  tagged exactly when the payload's variant matches the requested tag (`Editor.Stamp`).
- The editor offers buttons for six of the eight types (`Editor.OfferedTypes`).
- No code drives the status of a generation task or records history. Only its shape is modelled.

## Model

| member | source | states |
|---|---|---|
| Types.ParseTag | types.ts:2-10 | A string reads back as a tag exactly when it is that tag's literal. Every tag's literal reads back to that same tag. |
| Types.ExactlyEightTags | types.ts:2-10 | There are exactly eight component tags, every tag is listed, and their literals are pairwise distinct. |
| Types.TagDeterminesVariant | types.ts:46-109 | Two variants have the same tag exactly when they are built by the same variant, so a variant is determined by its tag. |
| Types.BlankDetails | types.ts:111-119 | Every tag has a variant carrying it: the union has one variant per tag. |
| Types.ParseCriticality | types.ts:39 | Criticality is one of exactly Low, Medium, High, Mission-Critical, and each literal reads back to its value. |
| Types.ParseStatus | types.ts:185 | Task status is one of exactly Pending, InProgress, Completed, Failed, and each literal reads back to its value. |
| Keyed.Replace | App.tsx:36 | Length is kept. Every element whose key matches becomes the new one and every other element stays in place. With no match the sequence is unchanged. |
| Keyed.Remove | App.tsx:40 | The survivors are exactly the elements with a different key. The length drops exactly when some key matches, and with no match nothing changes. |
| Keyed.RemoveAppend | App.tsx:40 | Removal distributes over concatenation, so the survivors keep their relative order. |
| Keyed.Find | views/ProjectEditor.tsx:15 | Returns nothing exactly when no key matches. Otherwise it returns an element whose key matches and before which no key matches. |
| Keyed.RemoveKeepsUnique | views/ProjectEditor.tsx:212 | Removing by key keeps keys unique. |
| Store.Initial | App.tsx:22-26 | The initial state has no projects, no active id and the dashboard view. |
| Store.Reduce | App.tsx:30-48 | LOAD replaces the list and keeps the cursor. ADD appends the payload after the unchanged list. UPDATE keeps the length, turns every id match into the payload and leaves the rest alone. DELETE keeps exactly the other ids; it clears the cursor and shows the dashboard iff the victim was active, and never leaves the deleted id active. SET_ACTIVE sets the id and keeps the list; the view is the editor iff the id is truthy. SET_VIEW changes only the view. Unknown actions change nothing. |
| Store.DeleteKeepsOrder | App.tsx:40 | The projects that survive DELETE_PROJECT keep their relative order. |
| Store.ReducePreservesNoDangling | App.tsx:38-44 | For any action the views can issue, a state whose active id names a listed project is taken to another such state. |
| Store.ReduceAllPreservesNoDangling | App.tsx:30-48 | The same holds along any run of such actions. |
| Store.ReducePreservesUniqueIds | App.tsx:32-42 | Unique project ids stay unique under every action, provided an added project's id is not yet listed and a loaded list is unique. UPDATE keeps each id in place and DELETE only drops projects. |
| Store.ReduceAllPreservesUniqueIds | App.tsx:30-48 | The same holds along any run whose additions and loads respect ids. |
| Store.SetActiveCanDangle | App.tsx:44 | The reducer alone does not enforce it: SET_ACTIVE with an unlisted id leaves the active id dangling. |
| Store.AddThenDeleteRestores | App.tsx:33-43 | Adding a project with a fresh, inactive id and then deleting that id restores the state exactly. |
| Store.UpdateIdempotent | App.tsx:34-37 | Applying the same UPDATE_PROJECT twice equals applying it once. |
| Store.InitialNoDangling | App.tsx:22-26 | The initial state satisfies the active-id invariant. |
| Repository.LoadAction | App.tsx:59-64 | The start-up load dispatches LOAD_PROJECTS with the stored list exactly when a value is stored. |
| Repository.MountWrites | App.tsx:57-68 | At start-up the save effect first writes the initial empty list, and then the loaded list when a value was stored; nothing else is written. |
| Repository.Mount | App.tsx:57-68 | After start-up the state is the initial one, with the stored list if there is one, and the slot holds that list, which is the last start-up write. |
| Repository.Step | App.tsx:66-68 | A dispatch applies the reducer. The slot is overwritten with the new list when the action returns a new list and is left alone otherwise. |
| Repository.StepKeepsSynced | App.tsx:66-68 | If the slot mirrors the list before a dispatch, it still does afterwards. |
| Repository.RunKeepsSynced | App.tsx:59-68 | After start-up and any run of actions, the slot holds exactly the current list, and the state is the reducer applied in order. |
| Repository.RestartRestoresList | App.tsx:59-68 | Restarting from the slot left by any session restores that session's project list in order. |
| Service.BodyText | services/geminiService.ts:41 | The parser never sees an empty text. A non-empty response text passes unchanged, and an absent or empty one becomes `{}`. |
| Service.FirstInline | services/geminiService.ts:56-62 | Returns nothing exactly when no part has inline data. Otherwise it returns the index of a part with inline data before which no part has any. |
| Service.ImageUrl | services/geminiService.ts:53-63 | The reference is empty exactly when the first candidate has no inline part, counting a missing candidate, content or parts. Otherwise it is `data:image/png;base64,` followed by the first inline part's data. |
| Service.LaterPartsIgnored | services/geminiService.ts:57-61 | Once a part with inline data occurs, appending further parts does not change which part is used. |
| Service.ExtractImageUrl | services/geminiService.ts:91-100 | The scan that stops at the first inline part returns the same reference as `ImageUrl`. |
| Service.GenerateConcept | services/geminiService.ts:18-66 | A rejected text request, a failed parse or a rejected image request fails the flow. On success the parser was given the fallback body, the concept is the parsed value unmodified, and the image reference comes from the visual request for its description. |
| Service.GenerateComponent | services/geminiService.ts:68-103 | The same pattern for components. The payload is the parsed value unmodified. The icon request uses the requested type and the generated name, or the caller's prompt when the name is empty. |
| Editor.ActiveProject | views/ProjectEditor.tsx:15-17 | The editor acts on the first listed project whose id is the active id. There is none exactly when no id is active or no project carries it. |
| Editor.UpdateShowsInEditor | views/ProjectEditor.tsx:15 | After an UPDATE_PROJECT carrying the active project's id, the editor shows exactly the payload. |
| Editor.RefineConcept | views/ProjectEditor.tsx:19-35 | Something is dispatched iff there is an active project, the prompt is non-empty and generation succeeds. What is dispatched is one UPDATE_PROJECT with the same id. Its concept is the generated one with the image reference, its updatedAt is the clock, and every other field is unchanged. |
| Editor.ComponentContext | views/ProjectEditor.tsx:42 | The generation context is the concept description, or the project name when the description is empty. |
| Editor.ComponentPrompt | views/ProjectEditor.tsx:38 | The generation prompt is the user's prompt, or `Create a secure <type> for the infrastructure.` when it is empty. |
| Editor.Stamp | views/ProjectEditor.tsx:46-53 | The new component takes the fresh id, the requested type, the image reference and the clock, overriding the payload. It keeps the payload's other fields. It is well tagged iff the payload's variant matches the requested type. |
| Editor.AddComponent | views/ProjectEditor.tsx:37-64 | Something is dispatched iff there is an active project and generation succeeds. What is dispatched is one UPDATE_PROJECT with the same id. Its components are the old ones in order plus exactly one stamped component at the end, its updatedAt is the clock, and every other field is unchanged. |
| Editor.AddedComponentHasRequestedType | views/ProjectEditor.tsx:46-56 | The appended component always carries the requested type and the fresh id. |
| Editor.AddComponentKeepsIdsUnique | views/ProjectEditor.tsx:48 | A fresh id keeps component ids unique within the project. |
| Editor.DeleteComponent | views/ProjectEditor.tsx:208-214 | With an active project, the dispatched update keeps exactly the components with a different id. It changes no other field; in particular updatedAt keeps its old value. |
| Editor.DeleteComponentKeepsOrder | views/ProjectEditor.tsx:212 | The surviving components keep their relative order, and unique ids stay unique. |
| Editor.OfferedTypes | views/ProjectEditor.tsx:112 | The editor offers six distinct component types. Protocol Integration and Cryptographic Security Module are not among them. |
| Dashboard.NewProject | views/Dashboard.tsx:15-37 | A new project has the given id, name, description and clock. Its concept is empty, its collections and history are empty, and its settings are the defaults: the two fixed models, the fixed tone, an empty prompt prefix, the fixed negative prompt and autosave every 60. |
| Dashboard.Create | views/Dashboard.tsx:13-39 | An empty name dispatches nothing. Otherwise creation dispatches ADD_PROJECT with the new project, then SET_ACTIVE with its id. |
| Dashboard.CreateOpensNewProject | views/Dashboard.tsx:38-39 | After creation the list is the old list plus the new project at the end. Its id is active, the view is the editor, and the active id names a listed project. With a fresh id the editor shows the new project. |
| Dashboard.CreateEmptyNameIsNoop | views/Dashboard.tsx:14 | Creating with an empty name leaves the state unchanged. |
| Dashboard.SelectCard | views/Dashboard.tsx:88 | Clicking a card dispatches SET_ACTIVE with that card's id. |
| Dashboard.SelectCardOpensIt | views/Dashboard.tsx:88 | Clicking a listed card with a non-empty id is an issuable action. When ids are unique, the editor then shows that card's project. |
| Dashboard.ConfirmDelete | views/Dashboard.tsx:108-111 | The delete button dispatches DELETE_PROJECT with the card's id iff the user confirms. |
| Dashboard.ConfirmedDeleteRemovesCard | views/Dashboard.tsx:110 | After a confirmed delete, no project has the card's id, that id is not active, and every other project survives. A declined delete changes nothing. |
| Scenario.RailSession | views/ProjectEditor.tsx:19-64 | Create "Rail A", refine its concept to "X", add a Data Feed, then delete it. The steps yield one active project in the editor, then its concept "X", then exactly one Data Feed whose id differs from the project's, then an empty list with no active id. |

## Left out

- The model calls to the generation service and `JSON.parse` (`services/geminiService.ts:15-38`, `74-89`)
  are external library and network behaviour. They are the `Oracle` parameters.
- The literal prompt wording sent to the model is not modelled. Requests are structured values that
  carry the prompt, the context, the type and the subject.
- A parse that succeeds yields a fully typed concept or component. JSON that parses to a non-object,
  or to an object missing declared fields (such as `{}` itself), is not represented. Its typed reading
  is whatever the parse oracle returns.
- `localStorage` is a single slot holding the project list. Serialization is taken as lossless, and a
  failing write is not modelled.
- React hooks, context, rendering, loading flags, `alert`/`console`, clearing the prompt and form
  fields, and the navigation buttons' JSX are presentation. The navigation buttons appear only as
  `SET_VIEW` actions.
- `crypto.randomUUID` and `Date.now` are parameters. Freshness is a precondition where it matters.
  The several clock readings inside one handler are taken as a single value `now`.
- The `confirm` dialog is a boolean parameter.
- Concurrent generations racing on a stale project snapshot are not modelled; each handler runs on
  the state it is given.
- The auxiliary collections (market segments, documents, policy engines, interoperability frameworks,
  scenarios) are declared and carried through unchanged; no code acts on them.
- Timestamps and the autosave interval are unbounded integers; JavaScript floating-point numbers
  are not modelled.
