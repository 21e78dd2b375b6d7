# Knowledge-base data cache and creation form, in Dafny

A model of the two pieces of the knowledge-base UI that carry logic:

- **The data hook** (`hooks/use-data.tsx`). It keeps an in-memory cache of
  the user's `data` rows together with a `loading` flag and an `error`
  message. `fetchData` replaces the cache, `createData` prepends the row the
  store returned, `updateData` replaces every row with the updated id,
  `deleteData` drops every row with the deleted id, and `getDataByProject`
  answers a side query without touching the cache. Module `UseData`
  models the hook as the class `DataHook`. Module `DataCache` holds the
  three list transformations as functions, with lemmas about them. Every
  call to the hosted store is a parameter `Remote<T>`: `Ok(result)`, or
  `Err(thrown)` where `thrown` is the message of the thrown value when it is
  an `Error`. A ghost log `Sent` records each request the hook issues, with
  its filters.
- **The creation form** (`components/knowledge-base/create-data-modal.tsx`).
  It holds the form fields, the tag input and the submitting flag. Module
  `TagList` holds JavaScript's `trim`, `addTag` and `removeTag` as
  functions. It proves that, from the initial empty list, the tags never
  hold a duplicate, an empty string or a whitespace-only string. Module
  `CreateDataModal` models the form state as the class `CreateDataForm`.
  Its invariant `Valid()` is that same tag fact. Its `handleSubmit` takes
  the settled state of the parent's `onSubmit` promise as a parameter.
- Module `Schema` gives the row shape of the `data` table
  (`lib/supabase.ts:76-124`). The type is a closed four-value enumeration,
  ids and timestamps are opaque strings, and `metadata` is an opaque map.

Where the code does something other than one might expect, the model follows
the code:

- An update replaces every cached row with a matching id, and a delete
  removes every such row. The lemmas `ReplaceByIdUnique` and
  `RemoveByIdUnique` give the "exactly one row" versions when ids are unique.
- A failed fetch keeps the previous cache.
- A fetch with no signed-in user empties the cache but leaves `error` as it
  was.
- The project filter of `fetchData` is a truthiness test, so an empty
  project id applies no filter.
- `getDataByProject` filters by project only, not by owner, and returns a
  null result as null.
- `updateData` and `deleteData` do not check for a signed-in user.

## Model

| member | source | states |
|---|---|---|
| `DataCache.Prepend` | hooks/use-data.tsx:89 | the created row is at index 0 and the old cache follows it unchanged, so the length grows by exactly one |
| `DataCache.ReplaceById` | hooks/use-data.tsx:112-116 | length and order are kept; every entry with the id becomes the returned row, every other entry is unchanged |
| `DataCache.RemoveById` | hooks/use-data.tsx:137 | no entry with the id is left; an entry survives exactly when it was cached with another id; the length drops by the number of matching entries |
| `DataCache.CountId` | hooks/use-data.tsx:137 | the number of rows with an id is at most the length, and is zero exactly when no row has that id |
| `DataCache.PrependCountsCreated` | hooks/use-data.tsx:89 | after a create the returned row's id is counted once more, and the members are the created row plus the old members |
| `DataCache.PrependFreshKeepsUnique` | hooks/use-data.tsx:89-91 | with unique ids and a fresh id from the store, ids stay unique and the created row is the only row with its id |
| `DataCache.DeleteUndoesCreate` | hooks/use-data.tsx:89-137 | deleting the row just created, whose id was fresh, gives back the cache as it was before the create |
| `DataCache.ReplaceByIdAbsent` | hooks/use-data.tsx:112-116 | an update whose id is not cached leaves the cache unchanged |
| `DataCache.ReplaceByIdKeepsCounts` | hooks/use-data.tsx:112-116 | when the returned row keeps its id, each id occurs as often as before |
| `DataCache.ReplaceByIdUnique` | hooks/use-data.tsx:112-116 | with unique ids, an update replaces exactly the one entry with that id and keeps ids unique |
| `DataCache.RemoveByIdAbsent` | hooks/use-data.tsx:137 | deleting an id that is not cached leaves the cache unchanged |
| `DataCache.RemoveByIdConcat` | hooks/use-data.tsx:137 | the filter distributes over concatenation, so the surviving entries keep their relative order |
| `DataCache.RemoveByIdIdempotent` | hooks/use-data.tsx:137 | deleting the same id twice is deleting it once |
| `DataCache.RemoveByIdUnique` | hooks/use-data.tsx:137 | with unique ids, deleting a cached id drops exactly one entry and keeps ids unique |
| `DataCache.UniqueCountAtMostOne` | hooks/use-data.tsx:137 | with unique ids an id occurs at most once, and exactly once when it is cached |
| `UseData.ErrorMessage` | hooks/use-data.tsx:93 | the reported error is the thrown `Error`'s message, or the operation's fallback when the thrown value is not an `Error` |
| `UseData.ProjectFilter` | hooks/use-data.tsx:45-47 | the project filter applies exactly when a non-empty project id is given |
| `UseData.DataHook.constructor` | hooks/use-data.tsx:24-26 | the hook starts with an empty cache, loading true, no error and no request sent |
| `UseData.DataHook.FetchData` | hooks/use-data.tsx:28-67 | signed out: empty cache, loading false, error kept, no request. Signed in: one owner-scoped select; on success the cache is the result (empty for null) and the error is cleared; on failure the cache is kept and the error is the message or 'An error occurred'. Loading ends false |
| `UseData.DataHook.RefreshData` | hooks/use-data.tsx:171-173 | a refresh has exactly the effect of a fetch |
| `UseData.DataHook.CreateData` | hooks/use-data.tsx:69-96 | signed out: the reply is 'User not authenticated', nothing is sent and nothing changes. Signed in: the fields are inserted with the owner's id; on success the row is prepended and returned; on failure the cache is untouched and the reply carries the message or 'Failed to create data'. `loading` and `error` are never touched |
| `UseData.DataHook.UpdateData` | hooks/use-data.tsx:98-123 | on success the cache becomes `ReplaceById` of the old cache and the row is returned; on failure the cache is untouched and the reply carries the message or 'Failed to update data' |
| `UseData.DataHook.DeleteData` | hooks/use-data.tsx:125-144 | on success the cache becomes `RemoveById` of the old cache and the error is null; on failure the cache is untouched and the error is the message or 'Failed to delete data' |
| `UseData.DataHook.GetDataByProject` | hooks/use-data.tsx:146-169 | one select by project and optional type; the result or the message ('Failed to fetch data' as fallback) is returned; cache, loading and error are never touched |
| `UseData.CreateUpdateDelete` | hooks/use-data.tsx:69-144 | a successful create, a failed update and a successful delete of the created row leave the cache, loading and error as they were |
| `TagList.TrimStart` | components/knowledge-base/create-data-modal.tsx:66 | the result is a suffix of the input, everything dropped is whitespace, and it does not start with whitespace |
| `TagList.TrimEnd` | components/knowledge-base/create-data-modal.tsx:66 | the result is a prefix of the input, everything dropped is whitespace, and it does not end with whitespace |
| `TagList.Trim` | components/knowledge-base/create-data-modal.tsx:38 | the trimmed string is empty exactly when the input is blank; otherwise it neither starts nor ends with whitespace |
| `TagList.TrimIsInfix` | components/knowledge-base/create-data-modal.tsx:66 | the trimmed string is an infix of the input with only whitespace before and after it |
| `TagList.TrimIdempotent` | components/knowledge-base/create-data-modal.tsx:66-69 | trimming twice is trimming once |
| `TagList.AddTag` | components/knowledge-base/create-data-modal.tsx:65-73 | the tags change exactly when the input is not blank and its trimmed form is not yet a tag; then the trimmed input is appended and the input cleared, otherwise tags and input are unchanged |
| `TagList.RemoveTag` | components/knowledge-base/create-data-modal.tsx:75-80 | every occurrence of the tag is removed, every other tag keeps its multiplicity, and the length drops by the number of occurrences |
| `TagList.RemoveTagConcat` | components/knowledge-base/create-data-modal.tsx:78 | the filter distributes over concatenation, so the other tags keep their order |
| `TagList.RemoveTagAbsent` | components/knowledge-base/create-data-modal.tsx:78 | removing a tag that is not there leaves the list unchanged |
| `TagList.AddTagKeepsWellFormed` | components/knowledge-base/create-data-modal.tsx:65-73 | adding a tag keeps the list free of duplicates and of empty or untrimmed tags |
| `TagList.RemoveTagKeepsWellFormed` | components/knowledge-base/create-data-modal.tsx:75-80 | removing a tag keeps the list free of duplicates and of empty or untrimmed tags |
| `TagList.AddThenRemove` | components/knowledge-base/create-data-modal.tsx:65-80 | removing the tag just added gives the previous list back |
| `TagList.ReplayKeepsWellFormed` | components/knowledge-base/create-data-modal.tsx:65-87 | any sequence of typing, adding and removing keeps a well-formed tag list well formed |
| `TagList.ReachableTagsWellFormed` | components/knowledge-base/create-data-modal.tsx:29 | from the initial empty list, whatever the user does, the tags have no duplicate and no empty or whitespace-only tag |
| `CreateDataModal.EmptyForm` | components/knowledge-base/create-data-modal.tsx:47-54 | the blank form has empty title, description, content, tags and metadata, and the given type |
| `CreateDataModal.CreateDataForm.constructor` | components/knowledge-base/create-data-modal.tsx:24-33 | the form starts blank with the default type, an empty tag input and not submitting |
| `CreateDataModal.CreateDataForm.HandleSubmit` | components/knowledge-base/create-data-modal.tsx:35-63 | a blank title is rejected exactly, with no call to `onSubmit` and no state change; otherwise the form values go to `onSubmit`; on success the form resets to the blank form for the default type with an empty tag input; on failure the entered values are kept; `isSubmitting` ends false |
| `CreateDataModal.CreateDataForm.AddTag` | components/knowledge-base/create-data-modal.tsx:65-73 | the tags and tag input become those of `TagList.AddTag`, every other field is kept, and the tag list stays well formed |
| `CreateDataModal.CreateDataForm.RemoveTag` | components/knowledge-base/create-data-modal.tsx:75-80 | the tags become those of `TagList.RemoveTag`, every other field is kept, and the tag list stays well formed |
| `CreateDataModal.CreateDataForm.SetDefaultType` | components/knowledge-base/create-data-modal.tsx:89-92 | when the default type changes only the form's type is overwritten; every other field is kept |
| `CreateDataModal.CreateDataForm.SetTitle` | components/knowledge-base/create-data-modal.tsx:122 | only the title changes |
| `CreateDataModal.CreateDataForm.SetType` | components/knowledge-base/create-data-modal.tsx:136 | only the type changes |
| `CreateDataModal.CreateDataForm.SetDescription` | components/knowledge-base/create-data-modal.tsx:166 | only the description changes |
| `CreateDataModal.CreateDataForm.SetContent` | components/knowledge-base/create-data-modal.tsx:181 | only the content changes |
| `CreateDataModal.CreateDataForm.SetTagInput` | components/knowledge-base/create-data-modal.tsx:197 | only the tag input changes |

## Left out

- The hosted store client and query building (`hooks/use-data.tsx:39-55`, `75-82`, `100-105`, `127-130`, `148-158`). Each call is a `Remote` outcome parameter. Only the request's kind and filters are recorded in `Sent`. The `created_at` descending order is the store's job.
- The re-fetch effect on `[user, projectId, type]` (`hooks/use-data.tsx:175-177`), and interleavings of overlapping async operations. Each operation is atomic, so `loading` is never seen true while a fetch is in flight. The identity from the auth hook is a constructor argument.
- `lib/supabase.ts`: the environment check and client construction are configuration. The `profiles` and `projects` tables are not used by the core.
- `NewData`: optional-but-absent and explicit null are one `None`. The client-supplied `id`, `created_at` and `updated_at` of an insert are omitted. `file_size` is an `int`.
- `metadata` is an opaque map of serialised values.
- The list filter and sort `filterAndSortData` (`components/knowledge-base/utils`) is not part of this model; its source is not available.
- `components/knowledge-base.tsx`, `components/knowledge-base/empty-state.tsx` and `src/App.tsx` are page layout and rendering. One consequence of the page glue is left unmodelled: its `onSubmit` awaits `createData`, which never rejects, so the form reports success and resets even when the create failed.
- JSX, icons, styling and toasts. Toasts and `onClose` appear only as the `SubmitResult` of `HandleSubmit`. Whether the modal is open, and the inputs disabled while submitting, are not modelled.
- `handleKeyPress` (`create-data-modal.tsx:82-87`): Enter runs `addTag`, which is the `Add` action and `CreateDataForm.AddTag`; other keys do nothing.
