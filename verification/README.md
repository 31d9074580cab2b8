# Cloud-drive transfer extension: stores, dispatcher and message bridge in Dafny

This project models the working core of a browser extension that is meant to copy shares from
one cloud drive (Quark) into another (Baidu). The transfer pipeline itself is not written yet in
the code: `handleTransfer` answers a fixed "under development" failure. What exists, and what is
modelled and proved here, is:

- **the task store** (`tasks.dfy`, module `Tasks`): an ordered list of task records, newest
  first, plus a current-task pointer. It supports add, merge-update, remove, clearing of finished
  tasks, cancellation, load and save, and the derived views by status. The class `TaskStore`
  holds the list and the pointer. Its methods are proved against pure list functions
  (`Updated`, `Removed`, `Select`, ...), and the lemmas state what those functions promise.
- **the configuration store** (`config.dfy`, module `Config`): two drive cookies, two default
  folders, the banned-keyword list and the automatic-cookie switch. It has setters, a load that
  merges only truthy stored values, and the cookie refresh. The class `ConfigStore` holds the six
  fields. Its methods are tied to the pure functions `Merged`, `AfterRefresh` and `AfterLoad`.
- **the cookie string** (`cookies.dfy`, module `Cookies`): `name=value` pairs joined by `"; "`,
  the cookie-header syntax of section 4.2.1 of RFC 6265. A reader `Parse` serves as its inverse.
  It is proved to give back the cookie list when names hold no `=` or `;` and values hold no `;`.
- **the background dispatcher** (`background.dfy`, module `Background`): a switch from message
  type to exactly one response record.
- **the message bridge** (`messaging.dfy`, module `Messaging`): the outgoing envelope, the
  three-way settling of a reply, the listener that ignores messages from tabs, and the broadcast
  loop over tabs.
- **the constant tables** (`constants.dfy`, module `Constants`): status names, error codes and
  their messages, and the default settings.

`common.dfy` holds `Option`, `Result` (a value or a thrown error's message), `Settled` (how a
promise settles) and JavaScript truthiness of strings.

Conventions of the model:
- Clock readings and generated ids are parameters (`now`, `id`).
- What the browser returns is a parameter: cookie lists, tab lists and reply outcomes, each read
  being a `Result` when it can throw.
- Persistent storage is the field `stored` of each store class. It holds what the store last
  wrote under its keys. A load reads that field, and a failed read is a `readError` parameter.
- A task's `status` is a string, since an update may write any value into it. The five status
  names come from the constant tables.

Behaviour of the code that the model keeps:
- An unknown message type is answered `{success: false, message: '未知的消息类型'}`.
- An empty cookie list is not an error. The background answers `""` and the configuration store
  keeps its old cookie.
- Neither `updateTask` nor `cancelTask` checks a status transition.
- There is no queue, no retry and no single-running-task rule.

## Model

| member | source | states |
|---|---|---|
| Constants.ParseStatus | src/utils/constants.js:23-29 | a status string parses to a state only if it is that state's string |
| Constants.StatusValueRoundTrip | src/utils/constants.js:23-29 | the five status strings are pairwise distinct and each parses back to its state |
| Constants.CodeOf | src/utils/constants.js:32-55 | a number reads back to an error code only if that code has this value |
| Constants.CodeInjective | src/utils/constants.js:32-55 | error-code values are pairwise distinct, so the value identifies the code |
| Constants.CodeRanges | src/utils/constants.js:32-55 | general codes are -1..0, cookie 1001-1002, network 2001-2002, business 3001-3005, API 4001-4002, each iff its category |
| Constants.MessageFor | src/utils/constants.js:58-72 | the message lookup of a number is present exactly when the number is an error code, and is never empty |
| Constants.ErrorMessageTotal | src/utils/constants.js:58-72 | every error code has a message entry and the table has no other keys |
| Constants.RetryDefaultsAgree | src/utils/constants.js:75-91 | HTTP and general defaults both retry 3 times with a 2000 ms delay; the HTTP timeout is 30000 ms |
| Cookies.Pair | src/popup/store/config.js:85 | a pair is the whole name, then `=`, then the whole value, with nothing else in between |
| Cookies.Serialize | src/background/index.js:70 | the joined string is empty exactly when the cookie list is empty |
| Cookies.SerializeAppend | src/popup/store/config.js:85 | the string of a concatenation is the two strings joined by `"; "`, so cookie order is kept |
| Cookies.ParseSerialize | src/popup/store/config.js:92 | reading back the string of well-formed cookies gives the same cookies in the same order |
| Tasks.StatusTablesAgree | src/popup/store/task.js:6-12 | the store's status table equals the shared one entry by entry |
| Tasks.NewTask | src/popup/store/task.js:70-81 | a new task carries the given id and url and is pending, progress 0, message `等待中...`, no result, `createdAt` and `updatedAt` are the first and the second clock reading; code defaults to `''` and title to `未知资源` when missing or empty |
| Tasks.MergeFields | src/popup/store/task.js:91-95 | present update fields win and absent ones keep the task's value; updatedAt is now even if the update gives one; merging the same update twice equals merging once |
| Tasks.FindIndex | src/popup/store/task.js:89 | the result is the first position holding the id, and is absent iff no task has it |
| Tasks.UpdatedOnlyFirstMatch | src/popup/store/task.js:88-98 | an update keeps the length and changes only the first task with the id; an unknown id leaves the list unchanged |
| Tasks.CancelOverridesAnyStatus | src/popup/store/task.js:129-134 | cancelling sets status `cancelled` and message `已取消` whatever the prior status, and keeps every other field except updatedAt |
| Tasks.RemovedShifts | src/popup/store/task.js:107-116 | removal deletes exactly the first task with the id and keeps the others in order; an unknown id leaves the list unchanged |
| Tasks.ClearedPointer | src/popup/store/task.js:111-113 | after a removal the pointer is cleared iff it named the removed id, and is otherwise unchanged |
| Tasks.Select | src/popup/store/task.js:24-38 | a filtered view holds exactly the tasks of the list that pass the test, and is no longer than the list |
| Tasks.SelectAppend | src/popup/store/task.js:24-38 | filtering distributes over concatenation, so every view keeps list order |
| Tasks.ViewsPartition | src/popup/store/task.js:24-38 | when every status is one of the five, the pending, running and completed views together are a permutation of the list |
| Tasks.Find | src/popup/store/task.js:20-22 | the current task is present iff the pointer is set and some task has that id, and it is the first such task |
| Tasks.SelectIdempotent | src/popup/store/task.js:119-124 | filtering twice by the same test equals filtering once |
| Tasks.ClearKeepsActiveViews | src/popup/store/task.js:119-124 | after clearing, no completed task is left, the pending and running views are unchanged, and clearing again changes nothing |
| Tasks.AddedTaskLeadsPending | src/popup/store/task.js:82 | a pending task added at the front heads the pending view and leaves the other views unchanged |
| Tasks.OperationsKeepIdsUnique | src/popup/store/task.js:69-124 | with a fresh id, add, update (without an id override), remove and clear keep ids unique; after a removal the id is gone from the list |
| Tasks.TaskStore.constructor | src/popup/store/task.js:16-17 | a new store has an empty list and no pointer |
| Tasks.TaskStore.SaveTasks | src/popup/store/task.js:57-66 | storage then holds the list and the pointer |
| Tasks.TaskStore.LoadTasks | src/popup/store/task.js:46-54 | a stored list replaces the list and a truthy stored id replaces the pointer; a failed read changes nothing |
| Tasks.TaskStore.AddTask | src/popup/store/task.js:69-85 | the new task is at index 0, followed by the old list unchanged; the pointer is kept, the state is saved, and the new id is returned |
| Tasks.TaskStore.UpdateTask | src/popup/store/task.js:88-98 | the list becomes the merged list and the pointer is kept; the state is saved only when the id was found |
| Tasks.TaskStore.SetCurrentTask | src/popup/store/task.js:101-104 | the pointer becomes the argument, the list is unchanged, and the state is saved |
| Tasks.TaskStore.RemoveTask | src/popup/store/task.js:107-116 | the first match is removed, the pointer is cleared iff it named the id, and the state is saved; an unknown id changes nothing, not even storage |
| Tasks.TaskStore.ClearCompletedTasks | src/popup/store/task.js:119-126 | only the non-success/failed/cancelled tasks are kept, in order; the pointer is untouched and the state is saved |
| Tasks.TaskStore.CancelTask | src/popup/store/task.js:129-134 | the list becomes the result of the cancelling update and the pointer is kept; the state is saved only when the id was found |
| Tasks.ReloadRestores | src/popup/store/task.js:46-66 | a store reopened over saved state loads the same list, and the same pointer when it was a non-empty id (none otherwise) |
| Config.LoadAfterSave | src/popup/store/config.js:34-39 | loading saved values restores each string field whose saved value was non-empty, and always the keyword list and switch; an empty saved string keeps the loader's value |
| Config.MergedIdempotent | src/popup/store/config.js:34-39 | loading the same stored values twice equals loading once, and loading a store's own snapshot changes nothing |
| Config.Refreshed | src/popup/store/config.js:84-87 | an empty cookie list keeps the old cookie, and a non-empty one gives its non-empty joined string |
| Config.RefreshEffects | src/popup/store/config.js:80-101 | refresh touches only the two cookies; a failed first read changes nothing; a failed second read keeps the new first cookie unsaved; two good reads save all six fields |
| Config.RefreshIdempotent | src/popup/store/config.js:80-101 | with unchanged browser cookies a second refresh changes neither state nor storage |
| Config.InitialMatchesDefaults | src/popup/store/config.js:9-12 | the store's initial folders and switch equal the shared defaults; its keyword list is a strict prefix of the shared default list |
| Config.ConfigStore.constructor | src/popup/store/config.js:7-12 | a new store holds the initial values |
| Config.ConfigStore.HasQuarkCookie | src/popup/store/config.js:19 | true iff the Quark cookie is non-empty |
| Config.ConfigStore.HasBaiduCookie | src/popup/store/config.js:20 | true iff the Baidu cookie is non-empty |
| Config.ConfigStore.HasCookies | src/popup/store/config.js:15-17 | true iff both cookies are non-empty |
| Config.ConfigStore.SaveConfig | src/popup/store/config.js:51-65 | storage then holds all six fields |
| Config.ConfigStore.SetQuarkCookie | src/popup/store/config.js:68-71 | only the Quark cookie changes, then all six fields are saved |
| Config.ConfigStore.SetBaiduCookie | src/popup/store/config.js:74-77 | only the Baidu cookie changes, then all six fields are saved |
| Config.ConfigStore.SetBannedKeywords | src/popup/store/config.js:104-107 | only the keyword list changes, then all six fields are saved |
| Config.ConfigStore.SetDefaultFolders | src/popup/store/config.js:110-114 | an absent argument leaves its folder unchanged, no other field changes, and all six are saved |
| Config.ConfigStore.RefreshCookies | src/popup/store/config.js:80-101 | state and storage become those of the refresh function for the two reads |
| Config.ConfigStore.ApplyStored | src/popup/store/config.js:34-39 | the state becomes the merge of the stored values, and storage is untouched |
| Config.ConfigStore.LoadConfig | src/popup/store/config.js:23-48 | state and storage become those of a merge followed, when the switch is then on, by a refresh; a failed read changes nothing |
| Config.ReloadRestores | src/popup/store/config.js:51-65 | a store reopened over what a setter saved, with the switch off, restores the cookies, keywords and switch, and every non-empty folder |
| Messaging.MakeEnvelope | src/utils/message.js:32-36 | the envelope carries the type, the clock reading, and the data or `{}` when none is given |
| Messaging.Settle | src/utils/message.js:38-48 | a throw or a runtime error rejects whatever the reply; otherwise a reply with a non-empty `error` rejects with it; else it resolves with the reply unchanged, an absent reply included |
| Messaging.SendToTabMatchesSendMessage | src/utils/message.js:83-103 | sending to a tab builds the same envelope and settles exactly as sending to the runtime |
| Messaging.Listen | src/utils/message.js:59-70 | messages from a tab are ignored; for any other, a plain result is sent back unchanged, a fulfilled promise's value is sent back unchanged with the channel kept open, a rejected promise is answered `{error: message}` with the channel kept open, and a callback that throws makes the listener throw without answering |
| Messaging.TabMessagesNeverReachCallback | src/utils/message.js:61 | for a tab sender the outcome is the same whatever the callback, so the callback plays no part |
| Messaging.RejectionReachesSender | src/utils/message.js:64 | for any sender without a tab, a rejected callback is answered `{error: message}`; the sender rejects with that message, except that an empty or absent message is resolved as an answer |
| Messaging.Targets | src/utils/message.js:113-114 | the broadcast targets are non-zero ids of listed tabs, and include every tab with a present non-zero id |
| Messaging.TargetsAppend | src/utils/message.js:113-114 | the targets of two tab lists in a row are the first list's targets followed by the second's, so the broadcast keeps the browser's tab order |
| Messaging.Broadcast | src/utils/message.js:110-122 | every target is sent to, in order, each send settling by its own outcome; a failed send does not stop the rest |
| Background.HandleTransfer | src/background/index.js:45-61 | the transfer answer is always a failure with the fixed under-development message and no data |
| Background.HandleGetCookies | src/background/index.js:66-90 | success iff both cookie reads succeed, with both joined strings; otherwise a failure carrying the first thrown message |
| Background.Reply | src/background/index.js:19-21 | a rejected handler becomes `{success: false, message}` and a resolved one is sent as is |
| Background.Dispatch | src/background/index.js:11-39 | any type other than the three handled ones gets the fixed unknown-type failure; `transfer` always fails |
| Background.DeclaredButUnhandled | src/background/index.js:17-38 | of the declared types only the three handled ones escape the unknown-type answer; `get_tasks` and `cancel_task` do not |
| Background.RefreshAnswersAsGet | src/background/index.js:95-97 | a refresh request is answered exactly as a get request |
| Background.GetCookiesAnswer | src/background/index.js:66-90 | a cookie answer succeeds iff both reads do; its strings read back to the cookies returned, and an empty list gives `""`; errors pass their message |
| Background.EmptyCookieListDiffers | src/background/index.js:70 | the background answers an empty cookie list with `""`, where the configuration store's refresh keeps its old cookie |

## Left out

- The transfer pipeline is not modelled, because it does not exist in the code: `handleTransfer` is a placeholder (src/background/index.js:45-61). That rules out stages, retries, banned-keyword filtering, FIFO scheduling, a single running task and restart recovery.
- Storage write failures are not modelled. `saveTasks` logs and swallows them, and `saveConfig` rethrows them to the setters and to `refreshCookies`. The model assumes every write succeeds.
- `generateId`, `Date.now()` and `Math.random()` are parameters. Id freshness is a premise of `Tasks.OperationsKeepIdsUnique`, not a property of the store.
- Chrome plumbing is left out: `chrome.cookies.getAll`, `chrome.tabs.query`, `chrome.runtime.sendMessage`, listener registration and removal (the function `onMessage` returns), the keep-alive alarm and the install logging. Their results are inputs to the model.
- Vue/Pinia reactivity is left out. Computed values are functions of the fields.
- Async interleavings are left out. Each handler and store operation is one sequential step, so two overlapping `updateTask` calls are not modelled.
- Messaging.Settle: a reply is an object whose fields are strings. A truthy `error` that is not a string (such as `{error: true}`) and a reply that is not an object are not modelled.
- Messaging.Listen: when the callback throws, the model records that the listener throws and sends no reply. What the browser then reports to the sender is not modelled.
- Messaging.Broadcast: a failure of `chrome.tabs.query` (which would reject the broadcast) is not modelled. The envelope of each send is not recorded either; `Messaging.MakeEnvelope` states it.
- Tasks.MergeFields: an update field that is present but `undefined` is not modelled. In JavaScript it overwrites the field with `undefined`; here a field is either absent or carries a value. Extra fields an update may add are not modelled either.
- Tasks.Task: the `result` payload is an opaque optional string, not an arbitrary JavaScript value.
- Config.ConfigStore.LoadConfig: stored values of the wrong JavaScript type (a stored `null` switch, a non-array keyword list) are not modelled. Each key holds a value of its field's type, or nothing.
- The `url` defaulting of `addTask` is not modelled. A missing url is `undefined` in the source; the model requires a url string.
- The drive API base URLs in src/utils/constants.js:4-20 are not modelled, because no modelled code uses them.
- src/utils/storage.js is not part of this model beyond the `stored` fields. scripts/generate-icons.js and vite.config.js are not part of it either.
