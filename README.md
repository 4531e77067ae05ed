# cobrowser core, modelled in Dafny

This project models the two pieces of decision logic in the cobrowser
service and proves what they promise.

**`InstagramManager`** (`instagram.dfy`, module `InstagramTasks`) is the
Instagram shim. It has three parts:

- **A per-user client cache.** `_instances` is a class attribute mapping
  each unique id to a client handle, so every manager of the process sees
  the same dictionary. The model is a `ClientCache` object holding a
  `map<string, Client?>`, which every `InstagramManager` holds as a
  constant. A `null` entry is the `None` the cache keeps after a login that
  returned falsy.
- **The session-file fallback** that `_authenticate` runs on a cache miss:
  1. reuse a stored session and probe it;
  2. if the session is stale, keep only its device ids (`uuids`) and log in
     again;
  3. after a successful fresh login, write the client's settings to
     `sessions/<id>_session.json`;
  4. turn every exception into a 401 "Login failed: ...".
- **The three operations:**
  - `upload_photo` and `upload_story` each manage a temporary file and
    remove it on every path;
  - `get_direct_threads` flattens the returned threads into plain records;
  - each operation turns every failure, the 401 included, into a 400 with
    its own prefix.

The instagrapi client and `base64.b64decode` are not modelled; a
`Platform` value fixes their answers. Each call returns, raises
`LoginRequired`, or raises another exception with a message. The file
system is a `FileSystem` object. It holds the session files by path and the
live temporary files by name, with their bytes. Each session file is a
`SessionBlob`: the settings mapping `json.load` gives for it, or the text
of the error that opening or loading it raises.

The model has two layers:

- **Pure functions** describe each step: `Authentication`, `FreshLogin`,
  `PhotoUpload`, `StoryUpload` and `DirectThreads`, each from the client
  that `get_client` produced.
- **Class methods** (`InstagramManager.Authenticate`, `GetClient`,
  `UploadPhoto`, `UploadStory`, `GetDirectThreads`) change the cache, the
  clients and the files step by step, in the order the source does. Each
  method is proved to produce exactly what the matching function
  prescribes.

A consequence of the code as written: after a falsy login, `get_client`
caches `None`, so every later operation for that id fails and no new login
is attempted. The model fails with the same text the source raises:
`'NoneType' object has no attribute 'photo_upload'` (or
`photo_upload_to_story`, `direct_threads`), behind the operation's 400
prefix.

**`TaskExecutor`** (`executor.dfy`, module `TaskExecutor`) is the task
executor: validate the task, dispatch on its `type`, then validate the
result. It holds no mutable state, so it is written as functions over an
`Outcome` (a returned value or a raised exception):

- a failed `validate_task` escapes as a bare `ValueError`;
- everything raised inside the `try` becomes
  `RuntimeError("Task execution failed: " + msg)`;
- a result is returned only when the validator accepts it.

The two handlers are a parameter, because a subclass may override them.
With the handlers as shipped, which raise `NotImplementedError()`, `execute`
never returns normally (`ShippedExecuteAlwaysRaises`).

Three facts of the code that the model keeps:

- The 400 detail of an operation is its prefix followed by `str(e)`. For
  the 401 from `get_client` that is `"401: Login failed: ..."`
  (cobrowser/tasks/instagram_tasks.py:64-66 and 109-113).
- A falsy fresh login still stores `None` in `_instances`
  (cobrowser/tasks/instagram_tasks.py:22-24 and 54-62).
- A result rejected by the validator is rewrapped into `RuntimeError` like
  any other exception raised in the `try` (src/executor.py:22-28).

## Model

| member | source | states |
|---|---|---|
| `InstagramTasks.SessionFile` | cobrowser/tasks/instagram_tasks.py:68-71 | the session path is the fixed prefix "sessions/", then the identifier, then the fixed suffix "_session.json" |
| `InstagramTasks.SessionOwnerOfSessionFile` | cobrowser/tasks/instagram_tasks.py:69-71 | reading the identifier back out of a session path gives the identifier it was built from |
| `InstagramTasks.SessionFileOfSessionOwner` | cobrowser/tasks/instagram_tasks.py:69-71 | every path recognised as a session path is the session path of its owner |
| `InstagramTasks.SessionFileInjective` | cobrowser/tasks/instagram_tasks.py:69-71 | distinct identifiers give distinct session paths |
| `InstagramTasks.LoginFailed` | cobrowser/tasks/instagram_tasks.py:64-66 | the error built from an exception's text has status 401 and a detail that is "Login failed: " followed by exactly that text |
| `InstagramTasks.FreshLogin` | cobrowser/tasks/instagram_tasks.py:53-66 | the username/password login succeeds exactly when `login` returns. On a truthy reply the identifier's session file is overwritten wholesale with the client's post-login settings, and that client is returned. On a falsy reply nothing is written and None is returned. An exception becomes 401 "Login failed: " + its message, with nothing written |
| `InstagramTasks.Authentication` | cobrowser/tasks/instagram_tasks.py:27-66 | at most one file changes, the identifier's own session file, and only with the settings of the client handed back. Every failure is a 401 "Login failed: ..." that writes nothing. A None result writes nothing |
| `InstagramTasks.NoSessionFileLogsIn` | cobrowser/tasks/instagram_tasks.py:30-62 | without a session file, the client starts from a new client's settings and goes straight to the username/password login |
| `InstagramTasks.ValidSessionIsReused` | cobrowser/tasks/instagram_tasks.py:34-46 | a stored session that survives the `get_timeline_feed` probe is applied and logged into, whatever that login returned. The client comes back with those settings and no session file is written |
| `InstagramTasks.StaleSessionKeepsUuids` | cobrowser/tasks/instagram_tasks.py:41-54 | when the probe raises LoginRequired, the settings become `{}` plus only the old `uuids`, and a second login starts from exactly that |
| `InstagramTasks.ProbeErrorIsUnauthorized` | cobrowser/tasks/instagram_tasks.py:41-66 | any other exception raised by the probe is a 401 carrying its message. No second login happens and nothing is written |
| `InstagramTasks.UnreadableSessionIsUnauthorized` | cobrowser/tasks/instagram_tasks.py:34-66 | a session file that cannot be opened or loaded gives the 401 "Login failed: " + the error's text. No login happens and nothing is written |
| `InstagramTasks.FirstLoginErrorIsUnauthorized` | cobrowser/tasks/instagram_tasks.py:38-66 | when the login on the stored session raises, LoginRequired included, the result is the 401 "Login failed: " + its message. The probe is never reached and nothing is written |
| `InstagramTasks.MissingUuidsIsUnauthorized` | cobrowser/tasks/instagram_tasks.py:47-66 | a stale session whose settings have no "uuids" key fails on the lookup with the 401 "Login failed: 'uuids'". No second login happens and nothing is written |
| `InstagramTasks.Rewrapped` | cobrowser/tasks/instagram_tasks.py:109-113 | an operation returns normally exactly when its body did. Any exception becomes status 400 with the operation's prefix before its text, with no partial result |
| `InstagramTasks.PhotoRecord` | cobrowser/tasks/instagram_tasks.py:95-100 | the photo success record carries status "success", the media id and code, and the url "https://www.instagram.com/p/" + code + "/" |
| `InstagramTasks.StoryRecord` | cobrowser/tasks/instagram_tasks.py:150-155 | the story success record carries status "success", the story id and code, and the url "https://www.instagram.com/stories/" + poster's username + "/" + id + "/" |
| `InstagramTasks.PhotoUpload` | cobrowser/tasks/instagram_tasks.py:73-113 | success needs a client, a decodable image and an upload that returned, and the record is built from that upload's media. Every other outcome is a 400 whose detail is "Failed to upload photo: " followed by the str() of the exception: of the 401 for a failed `get_client`, of the decoding error, the `'NoneType' object has no attribute 'photo_upload'` AttributeError for a cached None, or of the upload's exception |
| `InstagramTasks.StoryUpload` | cobrowser/tasks/instagram_tasks.py:115-168 | as for the photo: the client receives the annotation lists with None replaced by `[]`. Every failure is a 400 whose detail is "Failed to upload story: " followed by the str() of the exception: of the 401, of the decoding error, the AttributeError on `photo_upload_to_story` for a cached None, or of the story upload's exception |
| `InstagramTasks.OmittedListsAreEmpty` | cobrowser/tasks/instagram_tasks.py:143-147 | omitting all annotation lists gives the same result as passing five empty lists |
| `InstagramTasks.DirectThreads` | cobrowser/tasks/instagram_tasks.py:170-217 | success needs a client and a `direct_threads` call that returned. The result then holds status "success" and exactly one entry per returned thread, in order. Every failure is a 400 whose detail is "Failed to get direct threads: " followed by the str() of the exception: of the 401, the AttributeError on `direct_threads` for a cached None, or of the call's exception |
| `InstagramTasks.UnauthorizedBecomesBadRequest` | cobrowser/tasks/instagram_tasks.py:64-113 | in all three operations, a 401 from a failed login reaches the caller as a 400 whose detail is the prefix, then "401: ", then the login-failure text |
| `InstagramTasks.EntryOf` | cobrowser/tasks/instagram_tasks.py:191-205 | a thread becomes its id and pk, one user summary per thread user in order (with the profile picture URL stringified), and a last activity that is None exactly when the thread has no timestamp, otherwise its ISO text |
| `InstagramTasks.Flattened` | cobrowser/tasks/instagram_tasks.py:189-205 | the thread list has one entry per thread, in the same order |
| `InstagramTasks.SerializeThreads` | cobrowser/tasks/instagram_tasks.py:189-205 | the nested `for`/`append` loops build exactly one entry per thread, in order, each with one summary per user in order |
| `InstagramTasks.FileSystem.CreateTemp` | cobrowser/tasks/instagram_tasks.py:85 | creating the temporary file adds one new, empty file under a name not in use, and changes no other temporary file |
| `InstagramTasks.FileSystem.WriteTemp` | cobrowser/tasks/instagram_tasks.py:89 | writing the decoded image replaces that file's bytes with exactly the data, and changes no other temporary file |
| `InstagramTasks.FileSystem.Unlink` | cobrowser/tasks/instagram_tasks.py:102-107 | unlinking removes exactly the named temporary file, unless the file system refuses. A refusal leaves the files as they were and is only reported back |
| `InstagramTasks.ClientCache.constructor` | cobrowser/tasks/instagram_tasks.py:17 | the class-level cache starts as an empty map |
| `InstagramTasks.InstagramManager.Authenticate` | cobrowser/tasks/instagram_tasks.py:27-66 | the step-by-step authentication on a new client returns a handle realising `Authentication` and leaves the session store `Authentication` prescribes. A returned client is newly allocated |
| `InstagramTasks.InstagramManager.GetClient` | cobrowser/tasks/instagram_tasks.py:19-25 | on a hit, the stored handle (None included) is returned and neither the cache nor the files change. On a miss, the authentication's outcome is returned, and the cache gains exactly that key, bound to the returned handle, unless authentication raised, in which case the cache is unchanged |
| `InstagramTasks.InstagramManager.GetClientTwice` | cobrowser/tasks/instagram_tasks.py:20-25 | once a call has produced a handle, a second call for the same identifier, through this manager or any other manager sharing the class-level cache, returns the same handle and writes nothing |
| `InstagramTasks.InstagramManager.UploadPhoto` | cobrowser/tasks/instagram_tasks.py:73-113 | the result is `PhotoUpload` of what `get_client` gave, and the cache and session files change as `get_client` prescribes: when a client was obtained, `uid` is bound to that handle, and a miss adds only that key. The temporary file is created only after a client was obtained, is removed on every path when unlinking succeeds, and no other temporary file changes |
| `InstagramTasks.InstagramManager.UploadStory` | cobrowser/tasks/instagram_tasks.py:115-168 | the result is `StoryUpload` of what `get_client` gave, with the same cache (`uid` bound to the obtained handle), session-file and temporary-file guarantees as the photo upload |
| `InstagramTasks.InstagramManager.GetDirectThreads` | cobrowser/tasks/instagram_tasks.py:170-217 | the result is `DirectThreads` of what `get_client` gave, and the cache and session files change as `get_client` prescribes: when a client was obtained, `uid` is bound to that handle, and a miss adds only that key |
| `TaskExecutor.ValidateTask` | src/executor.py:30-38 | validation passes exactly when the task is truthy and its payload is non-empty |
| `TaskExecutor.TaskType` | src/executor.py:44 | the task type is the payload's "type" value, or None when the key is missing |
| `TaskExecutor.HandleBrowserTask` | src/executor.py:53-58 | the browser handler always raises NotImplementedError, whose text is empty |
| `TaskExecutor.HandleApiTask` | src/executor.py:60-65 | the api handler always raises NotImplementedError, whose text is empty |
| `TaskExecutor.ProcessTask` | src/executor.py:40-51 | "browser" goes to the browser handler and "api" to the api handler. Any other value, a missing type included, raises ValueError("Unsupported task type: " + str(value)) |
| `TaskExecutor.TryBody` | src/executor.py:17-25 | the `try` body returns normally exactly when dispatch returned and the validator accepted its result, and then it returns that result |
| `TaskExecutor.Execute` | src/executor.py:10-28 | a failed validation raises the bare ValueError("Task validation failed"). Any exception inside the `try` surfaces as RuntimeError("Task execution failed: " + its text). A result comes back only if dispatch produced it and the validator accepted it |
| `TaskExecutor.ValidationPrecedesDispatch` | src/executor.py:14-15 | for a task that fails validation, the outcome does not depend on the handlers or the validator: neither is consulted |
| `TaskExecutor.UnsupportedTypeIsWrapped` | src/executor.py:17-51 | a valid task of unknown type ends in RuntimeError("Task execution failed: Unsupported task type: ...") |
| `TaskExecutor.HandlerFailureIsWrapped` | src/executor.py:17-28 | a handler's exception is rewrapped with its own message, and the validator is never consulted |
| `TaskExecutor.RejectedResultIsWrapped` | src/executor.py:22-28 | a result the validator rejects becomes RuntimeError("Task execution failed: Result validation failed") |
| `TaskExecutor.ShippedExecuteAlwaysRaises` | src/executor.py:10-65 | with the shipped handlers, `execute` never returns normally. The lemma gives the exact error for each case: invalid task, "browser"/"api" (an empty wrapped message), and any other type |

## Left out

- HTTP layer: cobrowser/api/routes.py and cobrowser/api/main.py (FastAPI routing, the uvicorn entry point, the empty `/instagram/post` stub) are not part of this model. `HTTPException` is only a status and a detail string.
- Settings: cobrowser/config/settings.py is a pydantic declaration with no logic and is not part of this model.
- The instagrapi client's behaviour (login, probe, uploads, thread listing) and `base64.b64decode` are oracle fields of `Platform`, not implementations. The upload calls receive the bytes read from the temporary file where the source passes the file's path.
- str() of `HTTPException` is taken to be Starlette's rendering "<status>: <detail>". That rendering belongs to the web framework, not to this repository.
- Client state changes beyond `get_settings`/`set_settings`/`set_uuids`/`login` are not modelled. After authentication, a client's settings are treated as fixed; whatever the probe, the uploads or the thread listing change inside the library is not tracked.
- File-system failures other than reading a session file are not modelled: `os.makedirs`, `open(..., "w")` and `json.dump` of the session file always succeed, and so do temporary-file creation and writing. Reading an existing session file may fail (unreadable, not JSON) and then gives its error text.
- Session files are keyed by their path string. Two different strings that name one file through the operating system (a `..` component, a symbolic link, a case-insensitive file system) are not modelled, so `SessionFileInjective` is about paths, not files.
- Directories and the closing of the temporary file at the end of the `with` block are not modelled.
- The `Client()` constructor is taken never to raise.
- InstagramTasks.InstagramManager.GetDirectThreads: its contract does not restate that temporary files are untouched; its `modifies` clause already excludes them.
- Logging is not modelled. A failed unlink is only reported back by `FileSystem.Unlink`, and the operations ignore that report, as the source only logs it.
- Async and concurrency: the `async` keywords and the unsynchronised races on `_instances` and on session files are not modelled. The model is sequential.
- src/interfaces.py and src/validator.py are not part of this model. A falsy task (None or an object whose truth value is false) is `None`. `get_payload()` is a plain value read anew at each call with the same answer. `validate_result` is a parameter that may return a truth value or raise.
- Exceptions outside `Exception` (such as `KeyboardInterrupt`), which the `except Exception` clauses would not catch, are not modelled.
- `str(user.profile_pic_url)` is the URL text (pydantic's rendering is not modelled), or "None" when the URL is absent. `isoformat()` of a timestamp is its stored ISO text.
