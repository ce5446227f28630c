# Arilo voice-journal client: a verified model of its state logic

Arilo is a mobile voice-journaling app. The user records a short audio note. The server transcribes and
summarises it asynchronously. The app then shows the transcript (`stt`) and the AI reply (`noteback`) as
they arrive, and it keeps lists of tasks and tags. This project models the app's client-side state in
Dafny and proves properties of that model:

- the Redux slices for notes, tasks, tags, the user and the theme. Each slice is a class with one method
  per reducer. Each method's postcondition ties the new state to the old one.
- the theme resolution of `useColorScheme`.
- the recording sheet: its one-minute counter, its `m:ss` display and the decisions of "Done".
- the collapsible preview of a memory card.
- the rotating loading message of the placeholder card.
- the permission-request hook.

Network and storage calls are not modelled. What they deliver appears as method parameters: the payload
of a fulfilled request, the message of a rejected one, a clock reading, or how an awaited step ended.

Modules, one per file: `Js` (JavaScript `undefined`/`null`/string fields, truthiness, `||`, ASCII
upper-casing), `Lists` (`findIndex`), `NoteSlice`, `TaskSlice`, `TagSlice`, `UserSlice`, `ThemeSlice`,
`ColorScheme`, `RecordScreen`, `MemoryCardView`, `SkeletonNoteCardView`, `Permission`.

## What the note store does, as written

The note reducers in `store/slices/noteSlice.ts` have no terminal-status guard, no rule that keeps a
known transcript against an explicit `null`, and no rejection of an upload response without a job id. The
model keeps exactly that behaviour:

- A poll result overwrites any status, terminal or not. See `NoteSlice.PollOverwritesFailed`,
  `NoteSlice.PollOverwritesCompleted` and `NoteSlice.LateCompletionAfterFailure`.
- An explicit `null` for `stt` or `noteback` erases a known value (`NoteSlice.NullErasesKnownText`). Only
  a field that is left out (`undefined`) keeps the old value (`NoteSlice.AbsentKeepsKnownText`).
- `markNoteAsFailed` also overwrites COMPLETED (`NoteSlice.MarkedFailedAt`).
- An upload response without a job id still inserts a note whose ids are missing
  (`NoteSlice.UploadWithoutJobId`).
- The note id is replaced only when the raw status is exactly `"COMPLETED"`. A lower-case `"completed"`
  still becomes status COMPLETED (`NoteSlice.LowercaseCompletedKeepsNoteId`).

## Model

| member | source | states |
|---|---|---|
| `Lists.FirstIndex` | store/slices/noteSlice.ts:139 | the findIndex result is absent exactly when no element has the key; otherwise it is an in-range position holding the key with no earlier match |
| `Lists.FindIndex` | store/slices/noteSlice.ts:188 | the scan returns -1 exactly when there is no match, and otherwise the first matching position |
| `Js.ToUpperIsUpper` | store/slices/noteSlice.ts:59 | upper-casing leaves no lower-case ASCII letter and is idempotent |
| `Js.UpperOpt` | store/slices/noteSlice.ts:192 | `s?.toUpperCase()` gives a string's upper-case form, which has the same length and no lower-case letter; null and undefined give undefined |
| `NoteSlice.MapItem` | store/slices/noteSlice.ts:54-62 | `note_id` is preferred over `noteId` and `job_id` over `jobId`; the note type is the first non-empty of `note_type` and `noteType`, else AUDIO, so never empty; the creation time is the first non-empty of `created_at` and `createdAt`, else the clock reading; the status is the upper-cased raw status, or PROCESSING when that is missing or empty, so it is always non-empty upper-case; `stt` and `noteback` are copied |
| `NoteSlice.MapItems` | store/slices/noteSlice.ts:54-62 | the mapped list has the fetched list's length, each element is the mapping of the item at the same position, and every status is upper-case |
| `NoteSlice.MergePoll` | store/slices/noteSlice.ts:192-200 | job id, type and creation time are kept; `stt` and `noteback` take the response value whenever it is not undefined, null included; the status is the upper-cased response status, or the old one when the response has none; the note id changes only on raw status exactly `COMPLETED` with a truthy response note id |
| `NoteSlice.ApplyPollFrame` | store/slices/noteSlice.ts:186-202 | a poll keeps the list length and every note's job id, type and creation time; it touches no note other than the first with the job id; with no such note the list is unchanged |
| `NoteSlice.ApplyPollAt` | store/slices/noteSlice.ts:188-200 | at the first note with the job id, the list holds that note merged with the response |
| `NoteSlice.NullErasesKnownText` | store/slices/noteSlice.ts:197-198 | an explicit null in the response erases a known transcript and summary |
| `NoteSlice.AbsentKeepsKnownText` | store/slices/noteSlice.ts:197-198 | a response without `stt` keeps the note's transcript while taking the new summary |
| `NoteSlice.PollOverwritesFailed` | store/slices/noteSlice.ts:192 | a FAILED note polled as PROCESSING becomes PROCESSING: no terminal guard |
| `NoteSlice.PollOverwritesCompleted` | store/slices/noteSlice.ts:192 | a COMPLETED note polled as FAILED becomes FAILED |
| `NoteSlice.LowercaseCompletedKeepsNoteId` | store/slices/noteSlice.ts:192-199 | raw status `completed` sets status COMPLETED but leaves the note id |
| `NoteSlice.CompletedTakesServerNoteId` | store/slices/noteSlice.ts:199 | raw status `COMPLETED` with a non-empty note id replaces the note id |
| `NoteSlice.MarkedFailedAt` | store/slices/noteSlice.ts:138-143 | the first note with the job id becomes FAILED whatever its status, and every other note is unchanged |
| `NoteSlice.MarkedFailedAbsent` | store/slices/noteSlice.ts:139-140 | with no note for the job id nothing changes |
| `NoteSlice.MarkedFailedIdempotent` | store/slices/noteSlice.ts:138-143 | marking the same job failed twice equals marking it once |
| `NoteSlice.OptimisticNoteShape` | store/slices/noteSlice.ts:165-179 | the inserted note has `noteId == jobId == job_id \|\| jobId`, type AUDIO, status PROCESSING, null texts and the given time |
| `NoteSlice.NoteStore.constructor` | store/slices/noteSlice.ts:25-29 | the store starts with no notes, not loading, no error |
| `NoteSlice.NoteStore.ClearError` | store/slices/noteSlice.ts:132-134 | only the error is cleared |
| `NoteSlice.NoteStore.ClearNotes` | store/slices/noteSlice.ts:135-137 | only the list is emptied |
| `NoteSlice.NoteStore.MarkNoteAsFailed` | store/slices/noteSlice.ts:138-143 | the list becomes `MarkedFailed` of the old list; loading and error are kept |
| `NoteSlice.NoteStore.FetchPending` | store/slices/noteSlice.ts:147-150 | loading is set and the error cleared |
| `NoteSlice.NoteStore.FetchFulfilled` | store/slices/noteSlice.ts:151-154 | the list is replaced wholesale and loading cleared |
| `NoteSlice.NoteStore.FetchRejected` | store/slices/noteSlice.ts:155-158 | loading is cleared and the error is the message or `Failed to fetch notes` |
| `NoteSlice.NoteStore.UploadPending` | store/slices/noteSlice.ts:159-162 | loading is set and the error cleared |
| `NoteSlice.NoteStore.UploadFulfilled` | store/slices/noteSlice.ts:163-181 | exactly one optimistic note is put in front of the unchanged old list, and loading is cleared |
| `NoteSlice.NoteStore.UploadRejected` | store/slices/noteSlice.ts:182-185 | loading is cleared and the error is the message or `Failed to upload audio note` |
| `NoteSlice.NoteStore.PollFulfilled` | store/slices/noteSlice.ts:186-202 | the list becomes `ApplyPoll` of the old list; loading and error are kept |
| `NoteSlice.UploadThenPollTwice` | store/slices/noteSlice.ts:163-202 | upload, then a poll with the transcript, then a poll with status and summary only, gives a COMPLETED note that keeps the transcript and takes the server's note id |
| `NoteSlice.LateCompletionAfterFailure` | store/slices/noteSlice.ts:138-202 | a note marked failed and then polled as COMPLETED ends COMPLETED |
| `NoteSlice.UploadWithoutJobId` | store/slices/noteSlice.ts:163-181 | an upload response with no job id still inserts one note, whose job id is missing |
| `TaskSlice.StatusNameRoundTrip` | store/slices/taskSlice.ts:4 | each task status reads back from its wire name, and no name is empty |
| `TaskSlice.FetchUrlQuery` | store/slices/taskSlice.ts:34-35 | the URL starts with the task endpoint, is longer than it exactly when a filter is given, and then carries `?filter=` followed by the name the filter reads back from |
| `TaskSlice.ReplacedFirstOnly` | store/slices/taskSlice.ts:128-133 | an update keeps the length, replaces only the first task with the payload's id, and changes nothing when the id is absent |
| `TaskSlice.WithoutIdMembers` | store/slices/taskSlice.ts:138-140 | after a delete a task is in the list exactly when it was there and has another id |
| `TaskSlice.WithoutIdLength` | store/slices/taskSlice.ts:138-140 | a delete shortens the list by the number of tasks with the id |
| `TaskSlice.WithoutIdAppend` | store/slices/taskSlice.ts:139 | the delete filter distributes over concatenation, so kept tasks keep their relative order |
| `TaskSlice.WithoutIdIdempotent` | store/slices/taskSlice.ts:139 | deleting the same id twice equals deleting it once |
| `TaskSlice.WithoutAbsentId` | store/slices/taskSlice.ts:139 | deleting an id no task has leaves the list unchanged |
| `TaskSlice.TaskStore.constructor` | store/slices/taskSlice.ts:22-28 | empty tasks, not loading, no error, filter `ALL`, empty query |
| `TaskSlice.TaskStore.SetFilter` | store/slices/taskSlice.ts:102-104 | only the filter changes |
| `TaskSlice.TaskStore.SetSearchQuery` | store/slices/taskSlice.ts:105-107 | only the query changes |
| `TaskSlice.TaskStore.ClearError` | store/slices/taskSlice.ts:108-110 | only the error is cleared |
| `TaskSlice.TaskStore.FetchPending` | store/slices/taskSlice.ts:115-118 | loading is set and the error cleared |
| `TaskSlice.TaskStore.FetchFulfilled` | store/slices/taskSlice.ts:119-122 | the tasks are replaced and loading cleared |
| `TaskSlice.TaskStore.FetchRejected` | store/slices/taskSlice.ts:123-126 | loading is cleared and the error is the message or `Failed to fetch tasks` |
| `TaskSlice.TaskStore.UpdateFulfilled` | store/slices/taskSlice.ts:128-133 | the tasks become `Replaced` of the old list; the other fields are kept |
| `TaskSlice.TaskStore.UpdateRejected` | store/slices/taskSlice.ts:134-136 | only the error is set; tasks and loading are kept |
| `TaskSlice.TaskStore.DeleteFulfilled` | store/slices/taskSlice.ts:138-140 | the tasks become `WithoutId` of the old list; the other fields are kept |
| `TaskSlice.TaskStore.DeleteRejected` | store/slices/taskSlice.ts:141-143 | only the error is set; tasks and loading are kept |
| `TagSlice.TagStore.constructor` | store/slices/tagSlice.ts:28-35 | no tags, no notes, no selection, both flags false, no error |
| `TagSlice.TagStore.ClearError` | store/slices/tagSlice.ts:112-114 | only the error is cleared |
| `TagSlice.TagStore.SetSelectedTag` | store/slices/tagSlice.ts:115-117 | only the selected tag changes |
| `TagSlice.TagStore.ClearNotes` | store/slices/tagSlice.ts:118-120 | only the notes are emptied |
| `TagSlice.TagStore.FetchTagsPending` | store/slices/tagSlice.ts:125-128 | `loading` is set and the error cleared; `notesLoading` is kept |
| `TagSlice.TagStore.FetchTagsFulfilled` | store/slices/tagSlice.ts:129-132 | the tags are replaced and `loading` cleared; `notesLoading` is kept |
| `TagSlice.TagStore.FetchTagsRejected` | store/slices/tagSlice.ts:133-136 | `loading` is cleared and the error is the message or `Failed to fetch tags` |
| `TagSlice.TagStore.FetchNotesByTagPending` | store/slices/tagSlice.ts:138-141 | `notesLoading` is set and the error cleared; `loading` is kept |
| `TagSlice.TagStore.FetchNotesByTagFulfilled` | store/slices/tagSlice.ts:142-145 | the notes are replaced and `notesLoading` cleared; `loading` is kept |
| `TagSlice.TagStore.FetchNotesByTagRejected` | store/slices/tagSlice.ts:146-149 | `notesLoading` is cleared and the error is the message or `Failed to fetch notes` |
| `TagSlice.TagStore.CreateTagPending` | store/slices/tagSlice.ts:151-154 | `loading` is set and the error cleared |
| `TagSlice.TagStore.CreateTagFulfilled` | store/slices/tagSlice.ts:155-158 | the new tag is appended after the unchanged old tags and `loading` cleared |
| `TagSlice.TagStore.CreateTagRejected` | store/slices/tagSlice.ts:159-162 | `loading` is cleared and the error is the message or `Failed to create tag` |
| `TagSlice.CreateWhileNotesLoad` | store/slices/tagSlice.ts:138-158 | a tag created while notes load is last, earlier tags keep their places, and `notesLoading` stays set |
| `UserSlice.UserInfoOfKeeps` | store/slices/userSlice.ts:80-90 | two sign-in responses give the same profile exactly when they agree on id, email, name, picture and plan; token and token type are dropped |
| `UserSlice.UserInfoOfFields` | store/slices/userSlice.ts:80-90 | the profile's `id` is `userId`, `photo` is `profilePictureUrl`, and the plan fields are copied |
| `UserSlice.UserStore.constructor` | store/slices/userSlice.ts:33-37 | no profile, not loading, no error |
| `UserSlice.UserStore.SetUserInfo` | store/slices/userSlice.ts:64-66 | only the profile changes |
| `UserSlice.UserStore.ClearUserInfo` | store/slices/userSlice.ts:67-70 | the profile and the error are cleared; loading is kept |
| `UserSlice.UserStore.LoginPending` | store/slices/userSlice.ts:74-77 | loading is set and the error cleared |
| `UserSlice.UserStore.LoginFulfilled` | store/slices/userSlice.ts:78-91 | the profile is built from the response and loading cleared |
| `UserSlice.UserStore.LoginRejected` | store/slices/userSlice.ts:92-95 | loading is cleared and the error is the message or `Login failed` |
| `ThemeSlice.ThemeStore.constructor` | store/slices/themeSlice.ts:9-11 | the mode starts as `system` |
| `ThemeSlice.ThemeStore.SetThemeMode` | store/slices/themeSlice.ts:17-19 | the mode becomes the chosen one |
| `ThemeSlice.LastChoiceWins` | store/slices/themeSlice.ts:17-19 | of consecutive choices, the last one is the mode |
| `ThemeSlice.SameChoiceTwice` | store/slices/themeSlice.ts:17-19 | choosing a mode twice leaves the same mode as choosing it once |
| `ColorScheme.ExplicitModeWins` | hooks/use-color-scheme.ts:21-23 | a light or dark mode is the result, whatever the system scheme |
| `ColorScheme.SystemChangeIgnored` | hooks/use-color-scheme.ts:21-23 | with an explicit mode, changing the system scheme does not change the result |
| `ColorScheme.SystemModeFollowsSystem` | hooks/use-color-scheme.ts:26 | in system mode the result is dark exactly when the system is dark; no system scheme gives light |
| `ColorScheme.SystemAppearance.constructor` | hooks/use-color-scheme.ts:7-9 | the held system scheme starts as the one read at mount |
| `ColorScheme.SystemAppearance.OnChange` | hooks/use-color-scheme.ts:13-15 | the listener stores the new system scheme |
| `ColorScheme.SystemTurnsDark` | hooks/use-color-scheme.ts:13-26 | after the system turns dark, a light choice stays light and system or dark mode gives dark |
| `RecordScreen.Decimal` | app/record.tsx:160 | a count prints as one or more decimal digits with no leading zero; one digit exactly below 10, two from 10 to 99 |
| `RecordScreen.DecimalRoundTrip` | app/record.tsx:160 | the printed decimal digits of a count read back as the count |
| `RecordScreen.FormatTimeReadsBack` | app/record.tsx:157-161 | the display is the minutes printed in decimal without leading zeros, a colon, and exactly two digits; the text before the colon reads back as the minutes, the two digits as the seconds, and together they denote the input |
| `RecordScreen.FormatTimeExamples` | app/record.tsx:157-161 | 5 shows as `0:05` and 60 as `1:00` |
| `RecordScreen.NextTimeCapped` | app/record.tsx:127-134 | a tick never exceeds 60, calls `handleDone` exactly when the new count reaches 60, and otherwise adds one |
| `RecordScreen.TimeAfterTicks` | app/record.tsx:126-135 | from a count within the cap, n ticks add n seconds but stop at 60 |
| `RecordScreen.Recorder.constructor` | app/record.tsx:110-111 | count zero, not uploading |
| `RecordScreen.Recorder.StartRecording` | app/record.tsx:163-166 | starting to record resets the count to zero |
| `RecordScreen.Recorder.Tick` | app/record.tsx:126-135 | the count and the submit signal follow one tick, and the count stays within 60 |
| `RecordScreen.Recorder.HandleDone` | app/record.tsx:192-210 | an upload is dispatched exactly when the recorder stopped and produced a uri; the sheet closes exactly when nothing threw; otherwise an alert shows the error message or the default and `uploading` is reset to false |
| `RecordScreen.RecordPastTheCap` | app/record.tsx:126-135 | recording past a minute leaves the count at 60 and the last tick submits |
| `MemoryCardView.CollapsedPreview` | components/ui/memory-card.tsx:28 | a text of at most 60 characters is shown whole; a longer one as its first 60 characters and `...`; the preview is never over 63 characters |
| `MemoryCardView.MemoryCard.constructor` | components/ui/memory-card.tsx:14 | the card starts collapsed |
| `MemoryCardView.MemoryCard.Press` | components/ui/memory-card.tsx:22 | pressing the header flips `isCollapsed` |
| `MemoryCardView.MemoryCard.HeaderText` | components/ui/memory-card.tsx:28 | expanded, the header is the whole text; collapsed, it is the preview (the first 60 characters and `...` when longer), at most 63 characters |
| `MemoryCardView.MemoryCard.Body` | components/ui/memory-card.tsx:47-53 | the body holds the whole text exactly when the card is expanded |
| `MemoryCardView.PressTwice` | components/ui/memory-card.tsx:14-28 | two presses return the card to its collapsed preview with no body |
| `SkeletonNoteCardView.NextMessageIndex` | components/SkeletonNoteCard.tsx:25 | a tick's index is always a valid message index |
| `SkeletonNoteCardView.IndexAfterTicks` | components/SkeletonNoteCard.tsx:21-27 | from a valid index, k ticks advance it by k modulo three |
| `SkeletonNoteCardView.ThreeTicksReturn` | components/SkeletonNoteCard.tsx:25 | three ticks return the index to its start |
| `SkeletonNoteCardView.LoadingCard.constructor` | components/SkeletonNoteCard.tsx:21 | the index starts at 0 |
| `SkeletonNoteCardView.LoadingCard.Tick` | components/SkeletonNoteCard.tsx:24-26 | the index advances by one modulo three and stays below three |
| `SkeletonNoteCardView.TranscriptAreaOf` | components/SkeletonNoteCard.tsx:51-61 | the transcript is shown exactly when `stt` is truthy, the skeleton otherwise |
| `SkeletonNoteCardView.AssistantAreaOf` | components/SkeletonNoteCard.tsx:64-83 | the summary is shown exactly when `noteback` is truthy, otherwise the loading message at the current index |
| `SkeletonNoteCardView.CycleOnce` | components/SkeletonNoteCard.tsx:7-27 | without a summary the card shows the three messages in turn and then the first again |
| `Permission.DeniedAlert` | hooks/use-permission.ts:53-54 | the alert's title and message are the options' texts, or the defaults when those are missing or empty |
| `Permission.PermissionState.constructor` | hooks/use-permission.ts:37-38 | status `undetermined`, not loading |
| `Permission.PermissionState.BeginRequest` | hooks/use-permission.ts:41 | loading during the request, status untouched |
| `Permission.PermissionState.FinishRequest` | hooks/use-permission.ts:43-71 | the result is true and the status `granted` exactly on a granted answer; a refusal or a thrown requester gives `denied` and false; only a refusal shows the alert; loading ends on every path |
| `Permission.DenyFirstRequest` | hooks/use-permission.ts:37-71 | a refused first request is loading while it waits, then denied with the default alert and no longer loading |

## Left out

- The bodies of the request thunks (`fetchNotes`, `uploadAudioNote`, `pollNoteStatus`, `fetchTasks`, `updateTask`, `deleteTask`, `fetchTags`, `fetchNotesByTag`, `createTag`, `loginWithGoogle`) are network and storage I/O. Their results enter the model as reducer parameters. The item mapping inside `fetchNotes` is modelled as `NoteSlice.MapItems`.
- The code that dispatches `pollNoteStatus` and `markNoteAsFailed` (its schedule, any timeout, deduplication or refresh after completion) is outside the modelled files and is not modelled; the reducers themselves carry none of these rules.
- Clock readings (`new Date().toISOString()`) are parameters. `NoteSlice.MapItems` uses one reading for the whole list, whereas the source reads the clock once per item that lacks a date.
- `toUpperCase` is modelled for ASCII letters only. String lengths and `slice(0, 60)` count characters, not UTF-16 code units.
- JSON properties are modelled as missing, `null` or a string. Numbers or objects where the code expects a string are not modelled, and neither is the `TypeError` that `toUpperCase` would throw on them.
- `RecordScreen.FormatTime` takes a natural number. The counter never holds a negative or fractional value, so JavaScript's behaviour on such inputs is not modelled. `RecordScreen.Decimal` prints every natural number in plain digits, whereas JavaScript switches to exponent form from 10^21 on; the counter stays at 60 or below, so this never arises.
- The recording sheet's side effects are not modelled: haptics, the recorder's prepare/record/stop calls, the permission check on mount with its navigation (app/record.tsx:144-155), `handleDiscard`, `stopRecordingAndCleanup`, the progress percentage and the random wave animation. `handleDone`'s navigation and alert are returned as an outcome value, not performed.
- `handleDone` is called from inside the counter's state updater. The model returns that call as the `submit` flag of `Recorder.Tick` and leaves it to the caller.
- React's batching and scheduling of state updates, `setInterval` timing, and the Redux/Immer machinery are left out. Each slice is a class whose methods are its reducers.
- The permission hook's `Linking.openSettings` button is left out, and so is all `console.error` logging: in the permission hook, for an upload response without a job id (store/slices/noteSlice.ts:168), and on the recording sheet (app/record.tsx:170 and 206). `requestPermission` is split at its `await` into `BeginRequest` and `FinishRequest`.
- `RecordScreen.RecordPastTheCap`: it states only the last tick's submit signal. That every tick from the 60th on submits is stated per tick by `RecordScreen.NextTimeCapped`.
