# checkit-flow-fun in Dafny

This project models the in-memory checklist domain of the checkit-flow-fun web
application, a German-language checklist manager written in TypeScript and React.
The model covers:

- the checklist store (`useChecklists`): toggle an item, update, create, archive and
  restore, each over a sequence of checklists, with the status derived from item
  completion;
- the editor draft (`ChecklistEditor`): items, tags and links, and the payload it saves;
- the org-chart forest edits (`OrgChart`): add a child, remove a subtree, update a node;
- the image list (`ImageUpload`): append under a cap, remove, and change alt text;
- the image viewer's index (`ImageViewer`): next, previous and key dispatch;
- the dashboard's search and status filter, the "recent" selection, and the status counters.

Modules and files:

| file | module | models |
|---|---|---|
| `wrappers.dfy` | `Wrappers` | `Option` for optional fields; `Field` (`Keep` or `Set`) for one field of a `Partial<T>` spread |
| `seqs.dfy` | `Seqs` | `filter` and id-matched `map` on arrays, subsequences |
| `text.dfy` | `Text` | JavaScript `trim`, ASCII `toLowerCase`, `includes`, `startsWith` |
| `types.dfy` | `Types` | `src/types/checklist.ts` |
| `store.dfy` | `Store` | `src/hooks/useChecklists.ts` (class `ChecklistStore`) |
| `editor.dfy` | `Editor` | `src/components/ChecklistEditor.tsx` (class `ChecklistDraft`) |
| `orgchart.dfy` | `OrgChart` | `src/components/OrgChart.tsx` |
| `imageupload.dfy` | `ImageUpload` | `src/components/ImageUpload.tsx` |
| `imageviewer.dfy` | `ImageViewer` | `src/components/ImageViewer.tsx` (class `Viewer`) |
| `dashboard.dfy` | `Dashboard` | `src/pages/Dashboard.tsx` |
| `dashboardstats.dfy` | `DashboardStats` | `src/components/DashboardStats.tsx` |

Modelling conventions:

- Timestamps are integers. Each operation receives one `now` argument where the
  source calls `new Date()`, and generated ids (`Date.now()`, `Math.random()`) arrive
  as a `newId` argument.
- An optional TypeScript field (`x?: T`) is an `Option`.
- A `Partial<T>` spread (`{ ...record, ...updates }`) is a patch record with one
  `Field` per property, applied by `ApplyTo`.
- State the source replaces through a setter is a class field:
  - the store's `checklists`;
  - the editor's `items`, `tags` and `newTag`;
  - the viewer's `currentIndex`.

  Each method's `ensures` ties the new field to a specification function of the old
  one, and the lemmas prove that function's properties.

The model follows the code in these places:

- A checklist with no items derives the status `completed`. The check
  `completedItems === totalItems` has no guard for zero items.
- Toggling an item of an archived checklist re-derives its status, so archiving is
  not sticky.
- An unmatched checklist, item, link, image or node id leaves everything unchanged.
  There is no "not found" error.
- `category` is declared mandatory, but `createChecklist` never sets it, so the
  model keeps it optional.
- In `createChecklist` the caller's fields come last in the spread, so they override
  the defaults, including `id`, `status` and `version`.
- In `updateChecklist`, `version` is written after the spread and is always the old
  version plus one. A `status` among the updates is applied verbatim and not
  re-derived.

## Model

| member | source | states |
|---|---|---|
| `Types.ParseStatus` | src/types/checklist.ts:36 | a string is read as a status only if it is that status's literal |
| `Types.StatusNameRoundTrip` | src/types/checklist.ts:36 | each of the four statuses has its own literal, and reading the literal back gives the status |
| `Types.LinkTypeNameInjective` | src/types/checklist.ts:15 | `internal` and `external` are distinct literals, one per link type |
| `Types.ApplyPatchLaws` | src/types/checklist.ts:31-53 | spreading an empty `Partial<Checklist>` changes nothing, and spreading the same updates twice is the same as once |
| `Seqs.Filter` | src/components/ChecklistEditor.tsx:50 | `filter` never lengthens the list; what it keeps is stated by the lemmas below |
| `Seqs.FilterMembers` | src/components/ChecklistEditor.tsx:50 | `filter` keeps exactly the elements the predicate accepts |
| `Seqs.FilterSubsequence` | src/components/ChecklistEditor.tsx:50 | the elements `filter` keeps stay in their original relative order |
| `Seqs.FilterKeepsAll` | src/components/ChecklistEditor.tsx:50 | when the predicate accepts every element, `filter` changes nothing |
| `Seqs.FilterCount` | src/components/ChecklistEditor.tsx:50 | `filter` keeps every accepted element exactly as often as it occurs, and no rejected element |
| `Seqs.FilterConcat` | src/components/ChecklistEditor.tsx:61 | filtering a concatenation is the concatenation of the filtered parts |
| `Seqs.FilterDistinct` | src/components/ChecklistEditor.tsx:61 | filtering a duplicate-free list gives a duplicate-free list |
| `Seqs.MapWhere` | src/components/ChecklistEditor.tsx:44-46 | a map by id keeps the length, applies the change at every match and leaves every other element as it was |
| `Text.DropWhile` | src/components/ChecklistEditor.tsx:54 | the result is a suffix of the input, every removed leading character satisfies the test, and the result does not start with one that does |
| `Text.DropWhileEnd` | src/components/ChecklistEditor.tsx:54 | the result is a prefix of the input, every removed trailing character satisfies the test, and the result does not end with one that does |
| `Text.Trim` | src/components/ChecklistEditor.tsx:54 | the result is the input with whitespace-only padding removed on both sides, and neither end of the result is whitespace |
| `Text.TrimIdempotent` | src/components/ChecklistEditor.tsx:54 | trimming twice is trimming once |
| `Text.TrimEmptyIff` | src/components/ChecklistEditor.tsx:54 | a trimmed string is empty exactly when the input is all whitespace |
| `Text.StartsWith` | src/components/ImageUpload.tsx:29 | `startsWith` holds iff the prefix fits and matches the string character by character |
| `Text.Includes` | src/pages/Dashboard.tsx:18-20 | `includes` finds a prefix match, and a hit needs a needle no longer than the haystack |
| `Text.Lower` | src/pages/Dashboard.tsx:18-20 | lower-casing keeps the length and lower-cases each character |
| `Text.IncludesIff` | src/pages/Dashboard.tsx:18-20 | `includes` holds exactly when the needle occurs at some position of the haystack |
| `Text.IncludesEmpty` | src/pages/Dashboard.tsx:18-20 | every string includes the empty string |
| `Store.CountCompleted` | src/hooks/useChecklists.ts:406 | the completed count is at most the item count; it equals the item count iff every item is completed, and is zero iff none is |
| `Store.DeriveStatus` | src/hooks/useChecklists.ts:406-414 | never archived; completed iff every item is completed (so an empty list gives completed); in-progress iff some items are completed and some are not; open iff the list is non-empty and none is completed |
| `Store.EmptyChecklistDerivesCompleted` | src/hooks/useChecklists.ts:410 | a checklist without items derives `completed` |
| `Store.DeriveStatusOnlyFlags` | src/hooks/useChecklists.ts:481-489 | the derived status depends only on the items' completed flags |
| `Store.ToggleItem` | src/hooks/useChecklists.ts:393-401 | the flag flips; `completedAt`/`completedBy` are set to now and the current user when the item becomes complete and are both cleared otherwise; no other field changes |
| `Store.ToggleItemTwice` | src/hooks/useChecklists.ts:392-403 | toggling twice restores the flag, and restores the whole item when it was open without attribution |
| `Store.ToggleItems` | src/hooks/useChecklists.ts:392-403 | the list keeps its length, the items with the id are toggled, and every other item stays as it was |
| `Store.ToggleItemsTwice` | src/hooks/useChecklists.ts:392-403 | toggling the same id twice gives back every item's id and completion flag |
| `Store.ToggleInChecklist` | src/hooks/useChecklists.ts:390-423 | only the item with the id changes; status is re-derived from the new items; `updatedAt` is now; version is unchanged; checklist attribution is present iff the new status is completed; no other field changes |
| `Store.ArchiveNotSticky` | src/hooks/useChecklists.ts:388-423 | toggling any item of an archived checklist yields a non-archived status |
| `Store.ToggleTwiceRestoresFlags` | src/hooks/useChecklists.ts:388-428 | toggling the same item twice restores every item's flag, the derived status and the version |
| `Store.ToggleOneOfThree` | src/hooks/useChecklists.ts:392-403 | on a checklist of items `a`, `b`, `c`, toggling one of them flips exactly that one |
| `Store.ScenarioFirstDone` | src/hooks/useChecklists.ts:406-414 | with three open items, completing the first gives in-progress |
| `Store.ScenarioAllDone` | src/hooks/useChecklists.ts:410-422 | completing the other two then gives completed, attributed to now and the current user |
| `Store.ScenarioUndo` | src/hooks/useChecklists.ts:412-422 | un-completing one item of a completed checklist gives in-progress and clears the attribution |
| `Store.ThreeItemScenario` | src/hooks/useChecklists.ts:388-428 | the three steps above in sequence |
| `Store.UpdateRecord` | src/hooks/useChecklists.ts:434-439 | version is old plus one whatever the updates say; `updatedAt` is now; every other field (id, title, description, items, status, tags, responsible, deputy, category, subcategory, template flag, recurring pattern, `createdAt`, attribution, previous versions) is the update's when given and the old one otherwise |
| `Store.NewChecklist` | src/hooks/useChecklists.ts:446-461 | every field is the caller's value when given and the default otherwise: fresh id, `open`, version 1, empty items and tags, empty title, not a template, created and updated now, and no category, description, responsible, deputy, subcategory, recurring pattern, attribution or previous versions |
| `Store.NewChecklistDefaults` | src/hooks/useChecklists.ts:446-461 | with no fields given (or only a title) the new checklist is open, version 1, empty and not a template |
| `Store.ArchiveRecord` | src/hooks/useChecklists.ts:471 | status becomes archived whatever the items, `updatedAt` becomes now, and nothing else changes |
| `Store.RestoreRecord` | src/hooks/useChecklists.ts:480-491 | status is re-derived from the items and is never archived; `updatedAt` is now; version and attribution are untouched |
| `Store.RestoreAfterArchive` | src/hooks/useChecklists.ts:467-496 | restoring an archived checklist gives what restoring the original would, with the original version |
| `Store.UpdateWhereId` | src/hooks/useChecklists.ts:390-426 | the collection keeps its length, each checklist with the id is replaced by the operation's result, the others stay, and an unmatched id changes nothing |
| `Store.ChecklistStore.constructor` | src/hooks/useChecklists.ts:377 | the store starts empty |
| `Store.ChecklistStore.ToggleItemComplete` | src/hooks/useChecklists.ts:388-428 | the collection becomes the old one with `ToggleInChecklist` applied to the matching checklist, same length |
| `Store.ChecklistStore.UpdateChecklist` | src/hooks/useChecklists.ts:430-443 | the collection becomes the old one with `UpdateRecord` applied to the matching checklist, same length |
| `Store.ChecklistStore.CreateChecklist` | src/hooks/useChecklists.ts:445-465 | exactly one checklist, built by `NewChecklist`, is appended and returned |
| `Store.ChecklistStore.ArchiveChecklist` | src/hooks/useChecklists.ts:467-475 | the collection becomes the old one with `ArchiveRecord` applied to the matching checklist, same length |
| `Store.ChecklistStore.RestoreChecklist` | src/hooks/useChecklists.ts:477-496 | the collection becomes the old one with `RestoreRecord` applied to the matching checklist, same length |
| `Editor.AppendItem` | src/components/ChecklistEditor.tsx:31-41 | the old items stay as a prefix, and one open item is appended with the new id, an empty title and description, created now, `order` equal to the previous count, and no attribution, links, images or org chart |
| `Editor.AppendItemKeepsOrder` | src/components/ChecklistEditor.tsx:38 | if every item's `order` is its position, this still holds after appending |
| `Editor.UpdateItemIn` | src/components/ChecklistEditor.tsx:43-47 | length kept; the matching items get the updates and the others are unchanged; ids are kept unless the updates set one |
| `Editor.RemoveItemFrom` | src/components/ChecklistEditor.tsx:49-51 | every item with the id is gone, every other item stays in its relative order as often as it occurred, and an absent id changes nothing |
| `Editor.AddTag` | src/components/ChecklistEditor.tsx:53-58 | the tags change iff the trimmed input is non-empty and not yet a tag; then it is appended and the input cleared; otherwise nothing changes |
| `Editor.AddTagKeepsDistinct` | src/components/ChecklistEditor.tsx:53-58 | a duplicate-free tag list stays duplicate-free, and the only tag that may appear is the trimmed input |
| `Editor.AddBlankTagIgnored` | src/components/ChecklistEditor.tsx:54 | whitespace-only input adds no tag and keeps the input |
| `Editor.AddTagTwice` | src/components/ChecklistEditor.tsx:53-58 | adding the same text twice gives the same tags as adding it once |
| `Editor.RemoveTagFrom` | src/components/ChecklistEditor.tsx:60-62 | every occurrence of the tag is gone, every other tag stays in its relative order as often as it occurred, an absent tag changes nothing, and duplicate-free tags stay duplicate-free |
| `Editor.RemoveAfterAdd` | src/components/ChecklistEditor.tsx:53-62 | adding a fresh tag and then removing it restores the original list |
| `Editor.SavePayload` | src/components/ChecklistEditor.tsx:64-85 | the payload always carries the draft's fields and `updatedAt`; it carries id, `createdAt`, status `open` and version 1 iff the checklist is new; it never touches attribution, category, subcategory or previous versions |
| `Editor.SaveNewThenCreate` | src/components/ChecklistEditor.tsx:77-84 | hypothetically, if a new draft's payload were passed to the store's create (no call site does so), it would keep the editor's id and timestamps and be open at version 1 with the draft's content |
| `Editor.SaveEditThenUpdate` | src/components/ChecklistEditor.tsx:64-84 | an edited draft passed to the store's update keeps the checklist's id, status, `createdAt`, attribution, category, subcategory and previous versions, takes the draft's items, and bumps the version by one |
| `Editor.AddLink` | src/components/ChecklistEditor.tsx:248-258 | the old links (none if absent) stay as a prefix, and one external link "Neuer Link" to "https://" with the new id is appended |
| `Editor.UpdateLink` | src/components/ChecklistEditor.tsx:260-266 | an absent link list stays absent; otherwise the length is kept and only links with the id get the updates |
| `Editor.RemoveLink` | src/components/ChecklistEditor.tsx:268-272 | an absent link list stays absent; otherwise every link with the id is gone, the others stay in order as often as they occurred, and an absent id changes nothing |
| `Editor.AddLinkThroughEditor` | src/components/ChecklistEditor.tsx:255-257 | passing the new link list through `updateItem` changes exactly that item's links |
| `Editor.ChecklistDraft.constructor` | src/components/ChecklistEditor.tsx:20-29 | the draft starts from the edited checklist's values, with absent text fields as empty strings, or empty for a new checklist; the tag input is empty |
| `Editor.ChecklistDraft.AddItem` | src/components/ChecklistEditor.tsx:31-41 | the items become `AppendItem` of the old items |
| `Editor.ChecklistDraft.UpdateItem` | src/components/ChecklistEditor.tsx:43-47 | the items become `UpdateItemIn` of the old items |
| `Editor.ChecklistDraft.RemoveItem` | src/components/ChecklistEditor.tsx:49-51 | the items become `RemoveItemFrom` of the old items |
| `Editor.ChecklistDraft.EditNewTag` | src/components/ChecklistEditor.tsx:156 | the tag input holds the typed text |
| `Editor.ChecklistDraft.AddTagFromInput` | src/components/ChecklistEditor.tsx:53-58 | tags and input become `AddTag` of the old ones |
| `Editor.ChecklistDraft.RemoveTag` | src/components/ChecklistEditor.tsx:60-62 | the tags become `RemoveTagFrom` of the old tags |
| `Editor.ChecklistDraft.HandleSave` | src/components/ChecklistEditor.tsx:64-85 | the returned payload is `SavePayload` of the current draft |
| `OrgChart.NewNode` | src/components/OrgChart.tsx:25-30 | the new node is a single leaf carrying the new id and the placeholder name and role |
| `OrgChart.IdsConcat` | src/components/OrgChart.tsx:36 | the pre-order ids of two forests side by side are the ids of each in turn |
| `OrgChart.AddUnder` | src/components/OrgChart.tsx:35-42 | the roots keep their count, ids, names and roles; each root with the parent id gets the new node as its last child; a parent id found nowhere leaves the forest unchanged |
| `OrgChart.AddUnderAt` | src/components/OrgChart.tsx:40 | a node without the parent id keeps its labels and the add continues into its children, at every depth |
| `OrgChart.AddNode` | src/components/OrgChart.tsx:24-45 | with no parent the new node becomes the last root; with a parent it is `AddUnder` of the forest, so the roots keep their count and ids |
| `OrgChart.AddUnderIds` | src/components/OrgChart.tsx:35-43 | when the parent id occurs once, the ids after the add are the old ids plus the new node's |
| `OrgChart.AddNodeCount` | src/components/OrgChart.tsx:24-45 | an unknown parent leaves the forest unchanged; with no parent or a unique parent the node count grows by exactly one |
| `OrgChart.RemoveFrom` | src/components/OrgChart.tsx:47-54 | no node with the id remains anywhere, no other node is added, and an absent id changes nothing |
| `OrgChart.RemoveKeepsRootOrder` | src/components/OrgChart.tsx:49-51 | the surviving root ids are the old root ids filtered, in their relative order |
| `OrgChart.RemoveKeepsSurvivors` | src/components/OrgChart.tsx:47-54 | the result is exactly the roots without the id, in order, each with the id removed from its children recursively, so nothing else below the roots is dropped |
| `OrgChart.RemoveIdempotent` | src/components/OrgChart.tsx:47-54 | removing the same id twice is removing it once |
| `OrgChart.UpdateIn` | src/components/OrgChart.tsx:56-66 | length kept, every root with the id gets the updates, and an absent id changes nothing |
| `OrgChart.UpdateKeepsShape` | src/components/OrgChart.tsx:56-66 | a name/role-only update keeps the tree shape and every id |
| `OrgChart.UpdateAt` | src/components/OrgChart.tsx:62 | a non-matching node keeps its labels, and the update continues into its children |
| `OrgChart.UpdateKeepsLabels` | src/components/OrgChart.tsx:56-66 | a name/role-only update keeps the pre-order ids and changes the labels only of nodes with the id |
| `OrgChart.UpdateKeepsCount` | src/components/OrgChart.tsx:56-66 | a name/role-only update keeps the node count |
| `ImageUpload.ImageOf` | src/components/ImageUpload.tsx:32-37 | the image takes the generated id and the data URL, and the file name as both name and alt text |
| `ImageUpload.AppendUnderCap` | src/components/ImageUpload.tsx:39-41 | the image is appended iff the list is below the cap, so a list within the cap stays within it |
| `ImageUpload.AppendsStayUnderCap` | src/components/ImageUpload.tsx:39-41 | any number of capped appends to a list within the cap keeps it within the cap and keeps the original images as a prefix |
| `ImageUpload.DefaultCapIsFive` | src/components/ImageUpload.tsx:21 | with the default `maxImages` of 5, five images take no further file while four still take any image file |
| `ImageUpload.OnFileLoaded` | src/components/ImageUpload.tsx:29-41 | an update happens iff the file's type starts with `image/` and the list is below the cap, and it appends that one image |
| `ImageUpload.Payloads` | src/components/ImageUpload.tsx:28-45 | below the cap, one update per image file in selection order, each the captured list plus that file's image; a full list yields none; every update stays within the cap |
| `ImageUpload.HandleFileSelect` | src/components/ImageUpload.tsx:25-46 | a null file list yields no update; below the cap, one update per image file in selection order, each the captured list plus that file's image; a full list yields none |
| `ImageUpload.RemoveImage` | src/components/ImageUpload.tsx:64-66 | every image with the id is gone, the others stay in order as often as they occurred, and an absent id changes nothing |
| `ImageUpload.UpdateImageAlt` | src/components/ImageUpload.tsx:68-72 | the length and every id, url and name are kept; only matching images get the new alt |
| `ImageViewer.JsRem` | src/components/ImageViewer.tsx:23 | JavaScript's `%` by a positive divisor: the dividend minus the divisor times the quotient truncated toward zero, so it has the dividend's sign and lies strictly between minus the divisor and the divisor |
| `ImageViewer.NextIndex` | src/components/ImageViewer.tsx:22-24 | from any index not below -1 the next index is a valid index |
| `ImageViewer.PrevIndex` | src/components/ImageViewer.tsx:26-28 | from any index not below 1 - n the previous index is a valid index |
| `ImageViewer.StepCases` | src/components/ImageViewer.tsx:22-28 | next steps forward and wraps from the last index to 0; previous steps back and wraps from 0 to the last index |
| `ImageViewer.IndexInRange` | src/components/ImageViewer.tsx:22-28 | from a valid index, next and previous give a valid index |
| `ImageViewer.NextPrevInverse` | src/components/ImageViewer.tsx:22-28 | next and previous undo each other |
| `ImageViewer.NextTimesShift` | src/components/ImageViewer.tsx:23 | stepping forward k times (k at most n) adds k and wraps once |
| `ImageViewer.FullCycle` | src/components/ImageViewer.tsx:22-28 | n steps forward return to the start, and with one image next and previous stay put |
| `ImageViewer.KeyStep` | src/components/ImageViewer.tsx:30-34 | ArrowRight is next, ArrowLeft is previous, any other key keeps the index, and a valid index stays valid |
| `ImageViewer.Viewer.constructor` | src/components/ImageViewer.tsx:19-20 | the viewer starts at the initial index |
| `ImageViewer.Viewer.NextImage` | src/components/ImageViewer.tsx:22-24 | the index becomes the next index and stays valid |
| `ImageViewer.Viewer.PrevImage` | src/components/ImageViewer.tsx:26-28 | the index becomes the previous index and stays valid |
| `ImageViewer.Viewer.HandleKeyDown` | src/components/ImageViewer.tsx:30-34 | close is requested iff the key is Escape, and the index moves as `KeyStep` says |
| `Dashboard.MatchesSearch` | src/pages/Dashboard.tsx:18-20 | an empty search term matches every checklist |
| `Dashboard.MatchesStatus` | src/pages/Dashboard.tsx:22 | a checklist passes iff the filter is `all` or the filter is the literal of the checklist's status |
| `Dashboard.FilteredChecklists` | src/pages/Dashboard.tsx:17-25 | an order-preserving subsequence holding exactly the checklists that match both the search and the status filter, each as often as in the input |
| `Dashboard.MatchesSearchIff` | src/pages/Dashboard.tsx:18-20 | a checklist matches iff the lower-cased term occurs in its lower-cased title, description or one of its tags |
| `Dashboard.EmptySearchListsAll` | src/pages/Dashboard.tsx:18-22 | an empty term with the filter `all` lists every checklist |
| `Dashboard.StatusFilterExact` | src/pages/Dashboard.tsx:22 | under any filter other than `all` each result has exactly the chosen status, and a filter naming no status gives no result |
| `Dashboard.InsertNewestFirst` | src/pages/Dashboard.tsx:29 | inserting into a newest-first list keeps it newest first and adds exactly that checklist |
| `Dashboard.SortNewestFirst` | src/pages/Dashboard.tsx:29 | the sort is a permutation ordered by `updatedAt`, newest first |
| `Dashboard.SortKeepsMembers` | src/pages/Dashboard.tsx:29 | the sort keeps the length and exactly the same members |
| `Dashboard.Live` | src/pages/Dashboard.tsx:28 | exactly the checklists of the filtered list that are not archived |
| `Dashboard.LiveIsFilter` | src/pages/Dashboard.tsx:28 | the non-archived list is an order-preserving subsequence holding each non-archived checklist exactly as often as it occurs |
| `Dashboard.RecentChecklists` | src/pages/Dashboard.tsx:27-30 | at most six, none archived, each from the filtered list, newest first, exactly six unless fewer non-archived ones exist, and no non-archived checklist left out is newer than one listed |
| `Dashboard.RecentIsSortedPrefix` | src/pages/Dashboard.tsx:27-30 | the recent list is the front of the sorted non-archived list, so no checklist is listed more often than it occurs among them |
| `Dashboard.NewestPrefix` | src/pages/Dashboard.tsx:29-30 | a prefix of a newest-first list holds its newest members: nothing outside it is newer than anything in it |
| `DashboardStats.CountStatus` | src/components/DashboardStats.tsx:12-15 | a status count is at most the number of checklists, and zero exactly when no checklist has the status |
| `DashboardStats.CountsPartition` | src/components/DashboardStats.tsx:12-15 | the counts of the four statuses add up to the number of checklists |
| `DashboardStats.ComputeStats` | src/components/DashboardStats.tsx:11-16 | total is the number of checklists; completed, in-progress and archived are the counts of their status; the open ones make up the rest |
| `DashboardStats.StatCards` | src/components/DashboardStats.tsx:18-47 | four cards in the order Gesamt, In Bearbeitung, Abgeschlossen, Archiviert, showing total, in-progress, completed and archived |

## Left out

- The initial load: the `setTimeout` that installs the mock data and the `loading` flag are timer-driven. The mock data itself is not modelled.
- The clock and id generation (`new Date()`, `Date.now()`, `Math.random()`) are parameters. Where one operation reads the clock several times, the model uses one value for all of them. Id uniqueness is not guaranteed by the code and is not assumed, except where a lemma states it as a premise.
- `FileReader` and data-URL reading are asynchronous browser I/O. The loaded files are the input of `HandleFileSelect`, in selection order. Each file's update starts from the list captured when the files were selected, as in the code. The order in which the reads finish is not modelled.
- Progress percentages on the card and detail pages are left out: they use floating-point division.
- Locale date formatting is left out: it is a library call.
- `Text.Lower`: only ASCII letters are lower-cased. Unicode case mapping is a library call.
- Presentation-only files are not part of this model: the checklist card, the detail page, the item view, the sidebar and the app shell.
- UI-only state is not modelled: the node being edited, the advanced-options toggle and the drag-over flag.
- `ImageViewer.Viewer.constructor`: requires at least one image. With no images the code computes `NaN` as the index, and that case is not modelled.
- `Dashboard.SortNewestFirst`: the result is sorted and a permutation. That it keeps equal timestamps in their original order, as JavaScript's stable sort does, is not proved.
- `Types.ApplyPatchLaws`: a patch cannot carry `undefined` for a mandatory field. The code's types forbid it, but JavaScript would accept it at run time.
- `Editor.AddTagFromInput`: its contract states the new tags and input as `AddTag` of the old ones. That the tags stay duplicate-free is proved separately by `Editor.AddTagKeepsDistinct`.
- The `User` and `Comment` records and the recurring pattern are declared as datatypes. No operation of the core interprets the recurring pattern: the draft copies it and the save and store operations carry it through unchanged. No operation uses `User` or `Comment`.
