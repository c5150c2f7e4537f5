# Blooma storyboard: a Dafny model of its list state and project auto-save

Blooma is a storyboarding web application. Users create projects and fill each project with cards of
text and images. This project models the three pieces of the application that hold logic of their own:

- **The card store** (`useStoryboardStore`). It holds one ordered list of story cards. `addCard` appends a
  card with a new id, the text "Text" and no image. `removeCard(id)` filters out the cards carrying that id.
  The model is the class `StoryboardStore.Store` over a `seq<StoryCard>`. The id that `crypto.randomUUID()`
  would produce is passed in as a parameter.
- **The project list page**. This covers the case-insensitive title search (`filteredProjects`), the six
  default card rows sent for a new project, and how the local `projects` list follows the outcome of each
  backend call: load, create, delete and auto-save update. Every backend answer is a parameter
  (`Wrappers.Remote`: `Ok` with the returned record, or `Err`). That makes each handler one deterministic
  step. The model is the class `ProjectPage.ProjectList`, together with the functions `Search`,
  `WithoutProject` and `DefaultCards`.
- **The auto-save of a project card** (`ProjectCard`), with the clock removed. Editing the title or the
  description changes the draft, clears the armed timeout and arms a new one. That timeout's closure captures
  the drafts of that render. When the timeout fires it calls `onAutoSave(id, newTitle, newDesc)`, but only
  if a draft differs from the props. The pure state machine `AutoSave.CardState` has one transition function
  per event and `Run` for whole event sequences. The class `AutoSave.ProjectCard` is tied to that machine
  method by method.

Shared pieces: `Seqs.Filter` is `Array.prototype.filter` (order kept). `Text.Lower` and `Text.Contains` are
`toLowerCase` and `includes`.

Behaviour of the code that the model follows:
- A project card has one timeout, and it covers both fields. An edit of either field cancels the pending
  save of both, and a save always sends the title and the description together. (The card text auto-save
  of the project detail page, which is not modelled, keeps one timeout per card id instead:
  `src/app/storyboard/[id]/page.tsx:212-227`.)
- `addCard` builds the card itself (fresh id, "Text", no image); it is not handed one.
- Editing a draft to the value it already holds re-runs no effect, because the effect's dependencies are
  unchanged. So the armed timeout stays and is not re-armed.
- Unmounting clears the armed timeout, and an unmounted card receives no further edits or firings: every
  later event is a no-op, so nothing is ever saved after unmounting (`AutoSave.NothingAfterUnmount`).
- The mount render arms a timeout too. Its firing sends nothing, because the drafts still equal the props.
- The dirty check compares the drafts with the props, and the props do not change when a save succeeds.
  So after a title has been saved, typing the original title back sends nothing, and the backend keeps the
  edited title (`AutoSave.RevertAfterSaveNotSaved`).

## Model

| member | source | states |
|---|---|---|
| `Seqs.Filter` | src/store/storyboardStore.ts:21 | the result holds exactly the elements of the input that pass the predicate, and is no longer than the input |
| `Seqs.FilterKeepsOrder` | src/store/storyboardStore.ts:21 | two kept elements appear in the result in the same relative order as in the input |
| `Seqs.FilterConcat` | src/app/storyboard/page.tsx:88 | filtering a concatenation is the concatenation of the filtered parts |
| `Seqs.FilterCommute` | src/app/storyboard/page.tsx:13-15 | two filters give the same list in either order |
| `Text.Lower` | src/app/storyboard/page.tsx:14 | lower-casing keeps the length, maps each character by the ASCII rule and leaves no upper-case letter |
| `Text.LowerIdempotent` | src/app/storyboard/page.tsx:14 | lower-casing a lower-cased string changes nothing |
| `Text.ContainsIff` | src/app/storyboard/page.tsx:14 | `includes` holds exactly when the needle occurs at some index of the string (so the empty needle is included everywhere) |
| `StoryboardStore.Without` | src/store/storyboardStore.ts:20-22 | after `removeCard(id)` a card remains exactly when it was there and its id differs; no card with `id` remains |
| `StoryboardStore.WithoutAbsent` | src/store/storyboardStore.ts:20-22 | removing an id that no card carries leaves the list unchanged |
| `StoryboardStore.WithoutIdempotent` | src/store/storyboardStore.ts:20-22 | removing twice equals removing once |
| `StoryboardStore.WithoutKeepsOrder` | src/store/storyboardStore.ts:21 | the remaining cards keep their relative order |
| `StoryboardStore.WithoutSplit` | src/store/storyboardStore.ts:21 | removing the id of a card that no card before or after it carries leaves exactly the cards around it |
| `StoryboardStore.WithoutUnique` | src/store/storyboardStore.ts:21 | with distinct ids, removing the id of the card at index k drops exactly that index |
| `StoryboardStore.AppendFreshKeepsDistinct` | src/store/storyboardStore.ts:18 | appending a card with an unused id keeps the ids pairwise distinct |
| `StoryboardStore.WithoutKeepsDistinct` | src/store/storyboardStore.ts:21 | removal keeps the ids pairwise distinct |
| `StoryboardStore.AddThenRemove` | src/store/storyboardStore.ts:17-22 | appending a card with an unused id and then removing that id restores the original list |
| `StoryboardStore.Store.constructor` | src/store/storyboardStore.ts:15-16 | the store starts with an empty card list |
| `StoryboardStore.Store.AddCard` | src/store/storyboardStore.ts:17-19 | the new list is the old one plus one card (the given id, text "Text", no image) at the end; the old list is an unchanged prefix; distinct ids stay distinct when the id is fresh |
| `StoryboardStore.Store.RemoveCard` | src/store/storyboardStore.ts:20-22 | the new list is the old one without the cards carrying `id`; distinct ids stay distinct |
| `ProjectPage.Search` | src/app/storyboard/page.tsx:13-15 | a project is shown exactly when it is in the list and its lower-cased title includes the lower-cased query |
| `ProjectPage.SearchEmpty` | src/app/storyboard/page.tsx:13-15 | the empty query shows every project, in order |
| `ProjectPage.SearchCaseInsensitive` | src/app/storyboard/page.tsx:14 | the query and its lower-cased form show the same projects |
| `ProjectPage.SearchKeepsOrder` | src/app/storyboard/page.tsx:13 | matching projects are shown in list order |
| `ProjectPage.SearchAppend` | src/app/storyboard/page.tsx:13-15 | appending a project to the list appends it to the shown projects exactly when its title matches |
| `ProjectPage.WithoutProject` | src/app/storyboard/page.tsx:88 | a project remains exactly when it was in the list and its id differs from the deleted one |
| `ProjectPage.WithoutProjectIdempotent` | src/app/storyboard/page.tsx:88 | deleting an id twice equals deleting it once |
| `ProjectPage.WithoutProjectAbsent` | src/app/storyboard/page.tsx:88 | deleting an id that no project carries leaves the list unchanged |
| `ProjectPage.WithoutProjectKeepsOrder` | src/app/storyboard/page.tsx:88 | the remaining projects keep their relative order |
| `ProjectPage.SearchAfterDelete` | src/app/storyboard/page.tsx:13-15 | the shown projects after a delete are the previously shown ones minus the deleted id |
| `ProjectPage.DefaultCards` | src/app/storyboard/page.tsx:59-63 | exactly six rows, each with the new project's id and empty text, with sort orders within 1..6 and strictly increasing |
| `ProjectPage.ProjectList.constructor` | src/app/storyboard/page.tsx:10-11 | the page starts with no projects and an empty search |
| `ProjectPage.ProjectList.Visible` | src/app/storyboard/page.tsx:13-15 | the rendered projects are those of the list whose title matches the current search |
| `ProjectPage.ProjectList.SetSearch` | src/app/storyboard/page.tsx:129 | typing sets the search and leaves the project list alone |
| `ProjectPage.ProjectList.LoadProjects` | src/app/storyboard/page.tsx:29-36 | a successful select replaces the list; an error keeps it |
| `ProjectPage.ProjectList.CreateNewProject` | src/app/storyboard/page.tsx:39-76 | sends the "Untitled Project" row with the user's id; on an insert error the list is unchanged and no cards are sent; otherwise the six default cards of the new id are sent and the project is appended at the end, whether or not the card insert failed |
| `ProjectPage.ProjectList.DeleteProject` | src/app/storyboard/page.tsx:82-89 | on failure the list is unchanged; on success every project with the id is removed and the rest keep their order |
| `ProjectPage.ProjectList.UpdateProject` | src/app/storyboard/page.tsx:91-104 | sends one patch with the id, title and description together; it has no modifies clause, so the project list is unchanged whatever the outcome |
| `AutoSave.Mount` | src/app/components/cards/ProjectCard.tsx:22-34 | on mount the drafts equal the props and a timeout is armed; its firing calls nothing |
| `AutoSave.AfterTitleChange` | src/app/components/cards/ProjectCard.tsx:42 | on a mounted card a title edit changes only `newTitle`, keeps the one-timeout invariant, and arms a timeout when the value changed; an edit to the current value, or on an unmounted card, changes nothing (the armed timeout stays) |
| `AutoSave.AfterDescChange` | src/app/components/cards/ProjectCard.tsx:68 | the mirror case for `newDesc`: it changes only the description draft, arms a timeout when the value changed, and changes nothing for the current value or on an unmounted card |
| `AutoSave.AfterTimeout` | src/app/components/cards/ProjectCard.tsx:27-31 | firing clears the timeout of a mounted card; it calls `onAutoSave` exactly when a timeout was armed and a draft differs from the props, and then with the id and the latest title and description |
| `AutoSave.AfterUnmount` | src/app/components/cards/ProjectCard.tsx:33 | unmounting clears the armed timeout, marks the card unmounted and keeps the props and drafts |
| `AutoSave.RunConcat` | src/app/components/cards/ProjectCard.tsx:26-34 | running two event sequences one after the other equals running their concatenation, with the calls concatenated |
| `AutoSave.RunKeepsValid` | src/app/components/cards/ProjectCard.tsx:26-34 | after any sequence of events there is at most one armed timeout, it holds the latest drafts, and the props are unchanged |
| `AutoSave.RunSavesOnlyDirty` | src/app/components/cards/ProjectCard.tsx:28-29 | every `onAutoSave` call of any event sequence carries the card's id and drafts that differ from the props |
| `AutoSave.EditsOnly` | src/app/components/cards/ProjectCard.tsx:26-34 | a burst of edits calls nothing, keeps the card mounted or unmounted as it was, leaves the last typed title and description in the drafts of a mounted card, and either leaves a timeout armed or changes nothing |
| `AutoSave.EditsThenTimeout` | src/app/components/cards/ProjectCard.tsx:26-34 | after a burst of edits the timeout makes at most one call, with the last typed title and description together |
| `AutoSave.UnmountedStays` | src/app/components/cards/ProjectCard.tsx:26-34 | a (valid) unmounted card stays as it is and calls nothing, whatever events follow |
| `AutoSave.NothingAfterUnmount` | src/app/components/cards/ProjectCard.tsx:26-34 | no `onAutoSave` call ever happens after unmounting, whatever events follow |
| `AutoSave.TwoEditsOneSave` | src/app/components/cards/ProjectCard.tsx:26-34 | two quick title edits and a firing make one call, with the second title, or none if it is the original |
| `AutoSave.RevertAfterSaveNotSaved` | src/app/components/cards/ProjectCard.tsx:22-28 | a title saved once and then typed back to the original gives exactly one call, with the edited title |
| `AutoSave.ProjectCard.constructor` | src/app/components/cards/ProjectCard.tsx:22-23 | the card's state is the mount state |
| `AutoSave.ProjectCard.EditTitle` | src/app/components/cards/ProjectCard.tsx:42 | the new state is `AfterTitleChange` of the old one |
| `AutoSave.ProjectCard.EditDesc` | src/app/components/cards/ProjectCard.tsx:68 | the new state is `AfterDescChange` of the old one |
| `AutoSave.ProjectCard.Fire` | src/app/components/cards/ProjectCard.tsx:27-31 | the new state and the call made are those of `AfterTimeout`; a call carries the current drafts |
| `AutoSave.ProjectCard.Dispose` | src/app/components/cards/ProjectCard.tsx:33 | the new state is `AfterUnmount` of the old one |

## Left out

- Backend calls (`select`, `insert`, `delete`, `update`): foreign I/O. The model takes only their outcome as a parameter.
- Authentication and login (`src/app/page.tsx`, the `getUser` effect): OAuth redirect and network, with no logic of their own. The user id is a parameter of `CreateNewProject`.
- The 1000 ms delay and real timers: firing is an explicit event.
- `toLowerCase` beyond ASCII: only `A`..`Z` are mapped. JavaScript's Unicode case tables are not modelled, including mappings that change the length of a string.
- `crypto.randomUUID`: the new card id is a parameter. Freshness appears only as a hypothesis of the distinctness and round-trip properties.
- `alert`, `console.error` and `router.push` (`goToProject`): side effects with no state of the model.
- Interleaving of asynchronous handlers: each handler is one atomic step applied to the list at the time the answer arrives, which is what `setProjects(prev => ...)` does.
- Prop changes of a mounted `ProjectCard`, for example after the list is loaded again: the props are constant fields for the card's lifetime.
- The rendering components `StoryboardCard`, `StoryboardCanvas` and the JSX: they only render and forward callbacks. `tailwind.config.js` is styling configuration.
- The project detail page `src/app/storyboard/[id]/page.tsx` is not part of this model. It holds the drag reorder (`handleDragEnd` with `arrayMove`, lines 116-125), the `sort_order` of a card added there (line 137) and the per-card text auto-save (lines 212-227); none of them is modelled.
