/** The Instagram shim of cobrowser/tasks/instagram_tasks.py: a per-user
    client cache, the session-file fallback used on a cache miss, and the
    three operations (photo upload, story upload, direct-thread listing)
    that acquire a client and delegate to it.

    The instagrapi client, the base64 decoder and the JSON reader are not
    modelled; what they answer is fixed by a `Platform` value. The file
    system is a `FileSystem` object holding the session files (by path) and
    the live temporary files (by name). */
module InstagramTasks {

  newtype byte = x: int | 0 <= x < 256

  datatype Option<T> = None | Some(value: T)

  datatype Result<T, E> = Ok(value: T) | Err(error: E)

  /** The client's settings mapping (`get_settings()`/`set_settings()`),
      each key bound to the JSON text of its value. */
  type Settings = map<string, string>

  /** What a call into a library does: return a value, raise
      `LoginRequired`, or raise any other exception; `message` is the
      exception's str(). */
  datatype Outcome<T> = Returned(value: T) | LoginRequired(message: string) | Raised(message: string)

  /** What `login` returns (its truth value) and the settings it leaves. */
  datatype LoginReply = LoginReply(truthy: bool, settings: Settings)

  datatype Media = Media(id: string, code: string)

  datatype UserShort = UserShort(pk: string, username: string, fullName: string, profilePicUrl: Option<string>)

  datatype Story = Story(id: string, code: string, user: UserShort)

  /** A datetime, seen only through its `isoformat()`; a datetime is always truthy. */
  datatype Timestamp = Timestamp(iso: string)

  datatype DirectThread = DirectThread(id: string, pk: string, users: seq<UserShort>, lastActivityAt: Option<Timestamp>)

  /** The annotation lists passed to `photo_upload_to_story`. */
  datatype StoryExtras = StoryExtras(
    mentions: seq<string>, locations: seq<string>, links: seq<string>,
    hashtags: seq<string>, stickers: seq<string>)

  /** The optional annotation arguments of `upload_story`: None when omitted. */
  datatype StoryOptions = StoryOptions(
    mentions: Option<seq<string>>, locations: Option<seq<string>>, links: Option<seq<string>>,
    hashtags: Option<seq<string>>, stickers: Option<seq<string>>)

  /** The answers of the external code, for a client in a given settings state:
      the settings of a new `Client()` (random device ids), `login`,
      `get_timeline_feed`, `photo_upload` and `photo_upload_to_story` (the two
      uploads receive the bytes of the temporary file where the source passes
      its path), `direct_threads`, and `base64.b64decode`. */
  datatype Platform = Platform(
    freshSettings: Settings,
    login: (Settings, string, string) -> Outcome<LoginReply>,
    timelineFeed: Settings -> Outcome<()>,
    photoUpload: (Settings, seq<byte>, Option<string>) -> Outcome<Media>,
    storyUpload: (Settings, seq<byte>, Option<string>, StoryExtras) -> Outcome<Story>,
    directThreads: (Settings, int, string, Option<int>) -> Outcome<seq<DirectThread>>,
    b64decode: string -> Outcome<seq<byte>>)

  /** FastAPI's `HTTPException(status_code, detail)`. */
  datatype HttpError = HttpError(status: nat, detail: string)

  function Digit(d: nat): char
    requires d < 10
  {
    "0123456789"[d]
  }

  /** Decimal rendering of a natural number, as Python's str(int). */
  function DecimalText(n: nat): (s: string)
    ensures |s| > 0
  {
    if n < 10 then [Digit(n)] else DecimalText(n / 10) + [Digit(n % 10)]
  }

  /** str() of an HTTPException: "<status>: <detail>". */
  function HttpErrorText(e: HttpError): string
  {
    DecimalText(e.status) + ": " + e.detail
  }

  /** The text of the KeyError raised by `d[key]` on a missing key. */
  function MissingKey(key: string): string
  {
    "'" + key + "'"
  }

  /** The text of the AttributeError raised by `None.attr`. */
  function NoAttribute(attr: string): string
  {
    "'NoneType' object has no attribute '" + attr + "'"
  }

  // ---------------------------------------------------------------------
  // Session files
  // ---------------------------------------------------------------------

  const SessionDir := "sessions/"
  const SessionSuffix := "_session.json"

  /** `_get_session_file`: the identifier between a fixed directory prefix
      and a fixed suffix. */
  function SessionFile(uid: string): (path: string)
    ensures |path| == |SessionDir| + |uid| + |SessionSuffix|
    ensures path[..|SessionDir|] == SessionDir
    ensures path[|SessionDir|..|SessionDir| + |uid|] == uid
    ensures path[|SessionDir| + |uid|..] == SessionSuffix
  {
    SessionDir + uid + SessionSuffix
  }

  /** The identifier a session path belongs to, if it is a session path. */
  function SessionOwner(path: string): (owner: Option<string>)
    ensures owner.Some? ==> |path| >= |SessionDir| + |SessionSuffix|
  {
    if |path| >= |SessionDir| + |SessionSuffix|
       && path[..|SessionDir|] == SessionDir
       && path[|path| - |SessionSuffix|..] == SessionSuffix
    then Some(path[|SessionDir|..|path| - |SessionSuffix|])
    else None
  }

  /** Every identifier's session path leads back to that identifier. */
  lemma SessionOwnerOfSessionFile(uid: string)
    ensures SessionOwner(SessionFile(uid)) == Some(uid)
  {
  }

  /** Every session path is the path of its owner. */
  lemma SessionFileOfSessionOwner(path: string)
    requires SessionOwner(path).Some?
    ensures SessionFile(SessionOwner(path).value) == path
  {
  }

  /** Distinct identifiers give distinct session paths (as strings; two
      paths naming one file through the operating system are not modelled). */
  lemma SessionFileInjective(u1: string, u2: string)
    requires SessionFile(u1) == SessionFile(u2)
    ensures u1 == u2
  {
  }

  /** What opening and `json.load`-ing an existing session file gives: a
      settings mapping, or the text of the exception raised. */
  datatype SessionBlob = Json(settings: Settings) | Unreadable(error: string)

  // ---------------------------------------------------------------------
  // Authentication (`_authenticate`) as a function of the session store
  // ---------------------------------------------------------------------

  /** The outcome of one authentication: the client's final settings (None
      for the implicit `return None`) or the 401 raised, and the session store
      afterwards. */
  datatype AuthRun = AuthRun(result: Result<Option<Settings>, HttpError>, files: map<string, SessionBlob>)

  /** The 401 every exception inside `_authenticate` is turned into: a login
      failure whose detail carries the exception's text after the prefix. */
  function LoginFailed(message: string): (e: HttpError)
    ensures IsLoginFailure(e)
    ensures e.detail[|"Login failed: "|..] == message
  {
    HttpError(401, "Login failed: " + message)
  }

  /** The predicate every 401 of `_authenticate` satisfies. */
  predicate IsLoginFailure(e: HttpError)
  {
    e.status == 401 && "Login failed: " <= e.detail
  }

  /** The username/password login at the end of `_authenticate`, starting
      from the client settings `start`: on a truthy reply the session file is
      overwritten wholesale with the settings login left and the client is
      returned; on a falsy reply nothing is written and None comes back; an
      exception becomes a 401. */
  function FreshLogin(p: Platform, files: map<string, SessionBlob>, uid: string, start: Settings,
                      username: string, password: string): (a: AuthRun)
    ensures p.login(start, username, password).Returned? <==> a.result.Ok?
    ensures a.result.Err? ==>
              a.result.error == LoginFailed(p.login(start, username, password).message) && a.files == files
    ensures a.result.Ok? ==>
              var reply := p.login(start, username, password).value;
              if reply.truthy then
                a.result.value == Some(reply.settings) && a.files == files[SessionFile(uid) := Json(reply.settings)]
              else
                a.result.value == None && a.files == files
  {
    match p.login(start, username, password)
    case Returned(reply) =>
      if reply.truthy then AuthRun(Ok(Some(reply.settings)), files[SessionFile(uid) := Json(reply.settings)])
      else AuthRun(Ok(None), files)
    case LoginRequired(msg) => AuthRun(Err(LoginFailed(msg)), files)
    case Raised(msg) => AuthRun(Err(LoginFailed(msg)), files)
  }

  /** `_authenticate` on the session store `files`. At most one file is
      written, the identifier's own session file, and only with the settings
      of the client handed back; every failure is a 401 "Login failed: ...". */
  function Authentication(p: Platform, files: map<string, SessionBlob>, uid: string,
                          username: string, password: string): (a: AuthRun)
    ensures a.files == files
            || (a.result.Ok? && a.result.value.Some?
                && a.files == files[SessionFile(uid) := Json(a.result.value.value)])
    ensures a.result.Err? ==> IsLoginFailure(a.result.error) && a.files == files
    ensures a.result == Ok(None) ==> a.files == files
  {
    var path := SessionFile(uid);
    if path !in files then
      FreshLogin(p, files, uid, p.freshSettings, username, password)
    else
      match files[path]
      case Unreadable(msg) => AuthRun(Err(LoginFailed(msg)), files)
      case Json(session) =>
        match p.login(session, username, password)
        case LoginRequired(msg) => AuthRun(Err(LoginFailed(msg)), files)
        case Raised(msg) => AuthRun(Err(LoginFailed(msg)), files)
        case Returned(first) =>
          match p.timelineFeed(first.settings)
          case Returned(_) => AuthRun(Ok(Some(first.settings)), files)
          case Raised(msg) => AuthRun(Err(LoginFailed(msg)), files)
          case LoginRequired(_) =>
            if "uuids" !in first.settings then AuthRun(Err(LoginFailed(MissingKey("uuids"))), files)
            else FreshLogin(p, files, uid, map["uuids" := first.settings["uuids"]], username, password)
  }

  /** Without a session file the client starts from fresh settings and goes
      straight to the username/password login. */
  lemma NoSessionFileLogsIn(p: Platform, files: map<string, SessionBlob>, uid: string, username: string, password: string)
    requires SessionFile(uid) !in files
    ensures Authentication(p, files, uid, username, password)
            == FreshLogin(p, files, uid, p.freshSettings, username, password)
  {
  }

  /** A stored session that survives the probe is used as it is: the
      client comes back with the settings the login left, whatever that
      login returned, and nothing is written. */
  lemma ValidSessionIsReused(p: Platform, files: map<string, SessionBlob>, uid: string, username: string, password: string)
    requires SessionFile(uid) in files && files[SessionFile(uid)].Json?
    requires p.login(files[SessionFile(uid)].settings, username, password).Returned?
    requires p.timelineFeed(p.login(files[SessionFile(uid)].settings, username, password).value.settings).Returned?
    ensures Authentication(p, files, uid, username, password)
            == AuthRun(Ok(Some(p.login(files[SessionFile(uid)].settings, username, password).value.settings)), files)
  {
  }

  /** A stale session (the probe raises LoginRequired) is discarded except
      for its device ids, and a second login starts from exactly that. */
  lemma StaleSessionKeepsUuids(p: Platform, files: map<string, SessionBlob>, uid: string, username: string, password: string)
    requires SessionFile(uid) in files && files[SessionFile(uid)].Json?
    requires p.login(files[SessionFile(uid)].settings, username, password).Returned?
    requires var s := p.login(files[SessionFile(uid)].settings, username, password).value.settings;
             p.timelineFeed(s).LoginRequired? && "uuids" in s
    ensures var s := p.login(files[SessionFile(uid)].settings, username, password).value.settings;
            Authentication(p, files, uid, username, password)
            == FreshLogin(p, files, uid, map["uuids" := s["uuids"]], username, password)
  {
  }

  /** Any other exception of the probe is a 401 with its message; no second
      login happens. */
  lemma ProbeErrorIsUnauthorized(p: Platform, files: map<string, SessionBlob>, uid: string, username: string, password: string)
    requires SessionFile(uid) in files && files[SessionFile(uid)].Json?
    requires p.login(files[SessionFile(uid)].settings, username, password).Returned?
    requires p.timelineFeed(p.login(files[SessionFile(uid)].settings, username, password).value.settings).Raised?
    ensures Authentication(p, files, uid, username, password)
            == AuthRun(Err(LoginFailed(p.timelineFeed(p.login(files[SessionFile(uid)].settings, username, password).value.settings).message)), files)
  {
  }

  /** A session file whose `open`/`json.load` raises gives a 401 with that
      exception's text; no login is attempted. */
  lemma UnreadableSessionIsUnauthorized(p: Platform, files: map<string, SessionBlob>, uid: string, username: string, password: string)
    requires SessionFile(uid) in files && files[SessionFile(uid)].Unreadable?
    ensures Authentication(p, files, uid, username, password)
            == AuthRun(Err(LoginFailed(files[SessionFile(uid)].error)), files)
  {
  }

  /** When the login on the stored session raises (LoginRequired or any
      other exception), the result is a 401 with its message; the probe and
      the second login are never reached. */
  lemma FirstLoginErrorIsUnauthorized(p: Platform, files: map<string, SessionBlob>, uid: string, username: string, password: string)
    requires SessionFile(uid) in files && files[SessionFile(uid)].Json?
    requires !p.login(files[SessionFile(uid)].settings, username, password).Returned?
    ensures Authentication(p, files, uid, username, password)
            == AuthRun(Err(LoginFailed(p.login(files[SessionFile(uid)].settings, username, password).message)), files)
  {
  }

  /** A stale session whose settings have no "uuids" entry fails on the
      lookup: a 401 carrying the KeyError's text, and no second login. */
  lemma MissingUuidsIsUnauthorized(p: Platform, files: map<string, SessionBlob>, uid: string, username: string, password: string)
    requires SessionFile(uid) in files && files[SessionFile(uid)].Json?
    requires p.login(files[SessionFile(uid)].settings, username, password).Returned?
    requires var s := p.login(files[SessionFile(uid)].settings, username, password).value.settings;
             p.timelineFeed(s).LoginRequired? && "uuids" !in s
    ensures Authentication(p, files, uid, username, password)
            == AuthRun(Err(LoginFailed(MissingKey("uuids"))), files)
  {
  }

  // ---------------------------------------------------------------------
  // Result records of the three operations
  // ---------------------------------------------------------------------

  /** The success record of both uploads: status, media_id, code, url. */
  datatype PostResult = PostResult(status: string, mediaId: string, code: string, url: string)

  datatype UserSummary = UserSummary(pk: string, username: string, fullName: string, profilePicUrl: string)

  datatype ThreadEntry = ThreadEntry(threadId: string, threadPk: string, users: seq<UserSummary>, lastActivity: Option<string>)

  datatype ThreadsResult = ThreadsResult(status: string, threads: seq<ThreadEntry>)

  const PhotoFailure := "Failed to upload photo: "
  const StoryFailure := "Failed to upload story: "
  const ThreadsFailure := "Failed to get direct threads: "

  /** The 400 an operation turns any exception into, its str() behind the
      operation's own prefix; no partial result survives. */
  function Rewrapped<T>(prefix: string, attempt: Result<T, string>): (r: Result<T, HttpError>)
    ensures r.Ok? <==> attempt.Ok?
    ensures r.Ok? ==> r.value == attempt.value
    ensures r.Err? ==> r.error == HttpError(400, prefix + attempt.error)
  {
    match attempt
    case Ok(v) => Ok(v)
    case Err(msg) => Err(HttpError(400, prefix + msg))
  }

  /** The exception text of an outcome that did not return. */
  function Failure<T, U>(o: Outcome<T>): Result<U, string>
    requires !o.Returned?
  {
    Err(o.message)
  }

  function PhotoRecord(m: Media): (r: PostResult)
    ensures r.status == "success" && r.mediaId == m.id && r.code == m.code
    ensures r.url == "https://www.instagram.com/p/" + r.code + "/"
  {
    PostResult("success", m.id, m.code, "https://www.instagram.com/p/" + m.code + "/")
  }

  function StoryRecord(s: Story): (r: PostResult)
    ensures r.status == "success" && r.mediaId == s.id && r.code == s.code
    ensures r.url == "https://www.instagram.com/stories/" + s.user.username + "/" + r.mediaId + "/"
  {
    PostResult("success", s.id, s.code, "https://www.instagram.com/stories/" + s.user.username + "/" + s.id + "/")
  }

  /** Python's `x or []` on an optional list. */
  function OrEmpty(x: Option<seq<string>>): (r: seq<string>)
    ensures x.None? ==> r == []
    ensures x.Some? ==> r == x.value
  {
    if x.Some? then x.value else []
  }

  /** The annotation lists actually passed to the client. */
  function Defaulted(o: StoryOptions): StoryExtras
  {
    StoryExtras(OrEmpty(o.mentions), OrEmpty(o.locations), OrEmpty(o.links), OrEmpty(o.hashtags), OrEmpty(o.stickers))
  }

  /** `str(user.profile_pic_url)`: the URL text, or "None" when absent. */
  function UrlText(u: Option<string>): string
  {
    if u.Some? then u.value else "None"
  }

  function SummaryOf(u: UserShort): UserSummary
  {
    UserSummary(u.pk, u.username, u.fullName, UrlText(u.profilePicUrl))
  }

  /** The plain record one thread becomes: one user summary per thread user,
      in order, and a last activity exactly when the thread has a timestamp. */
  function EntryOf(t: DirectThread): (e: ThreadEntry)
    ensures e.threadId == t.id && e.threadPk == t.pk
    ensures |e.users| == |t.users|
    ensures forall j :: 0 <= j < |t.users| ==> e.users[j] == SummaryOf(t.users[j])
    ensures e.lastActivity.None? <==> t.lastActivityAt.None?
    ensures t.lastActivityAt.Some? ==> e.lastActivity == Some(t.lastActivityAt.value.iso)
  {
    ThreadEntry(t.id, t.pk,
                seq(|t.users|, j requires 0 <= j < |t.users| => SummaryOf(t.users[j])),
                if t.lastActivityAt.Some? then Some(t.lastActivityAt.value.iso) else None)
  }

  /** The thread list: one entry per thread, in the same order. */
  function Flattened(ts: seq<DirectThread>): (r: seq<ThreadEntry>)
    ensures |r| == |ts|
    ensures forall i :: 0 <= i < |ts| ==> r[i] == EntryOf(ts[i])
  {
    if ts == [] then [] else [EntryOf(ts[0])] + Flattened(ts[1..])
  }

  /** The nested loops of `get_direct_threads` that build `thread_list`. */
  method SerializeThreads(threads: seq<DirectThread>) returns (threadList: seq<ThreadEntry>)
    ensures |threadList| == |threads|
    ensures forall i :: 0 <= i < |threads| ==> threadList[i] == EntryOf(threads[i])
    ensures threadList == Flattened(threads)
  {
    threadList := [];
    var i := 0;
    while i < |threads|
      invariant 0 <= i <= |threads|
      invariant |threadList| == i
      invariant forall k :: 0 <= k < i ==> threadList[k] == EntryOf(threads[k])
    {
      var thread := threads[i];
      var users: seq<UserSummary> := [];
      var j := 0;
      while j < |thread.users|
        invariant 0 <= j <= |thread.users|
        invariant |users| == j
        invariant forall k :: 0 <= k < j ==> users[k] == SummaryOf(thread.users[k])
      {
        var user := thread.users[j];
        users := users + [UserSummary(user.pk, user.username, user.fullName, UrlText(user.profilePicUrl))];
        j := j + 1;
      }
      var lastActivity := if thread.lastActivityAt.Some? then Some(thread.lastActivityAt.value.iso) else None;
      assert users == EntryOf(thread).users;
      threadList := threadList + [ThreadEntry(thread.id, thread.pk, users, lastActivity)];
      i := i + 1;
    }
  }

  // ---------------------------------------------------------------------
  // The three operations as functions of the acquired client
  // ---------------------------------------------------------------------

  /** The inner `try` of `upload_photo`: decode, then upload. */
  function PhotoAttempt(p: Platform, client: Option<Settings>, image: string, caption: Option<string>): Result<PostResult, string>
  {
    var data := p.b64decode(image);
    if !data.Returned? then Failure(data)
    else if client.None? then Err(NoAttribute("photo_upload"))
    else
      var media := p.photoUpload(client.value, data.value, caption);
      if media.Returned? then Ok(PhotoRecord(media.value)) else Failure(media)
  }

  /** `upload_photo` given what `get_client` gave: success needs a client, a
      decodable image and an upload that returned, and then the record is
      built from the uploaded media; every other path is a 400 "Failed to
      upload photo: ...", the 401 of a failed login included. */
  function PhotoUpload(p: Platform, acquired: Result<Option<Settings>, HttpError>, image: string,
                       caption: Option<string>): (r: Result<PostResult, HttpError>)
    ensures r.Err? ==> r.error.status == 400 && PhotoFailure <= r.error.detail
    ensures acquired.Err? ==> r == Err(HttpError(400, PhotoFailure + HttpErrorText(acquired.error)))
    ensures r.Ok? <==> acquired.Ok? && acquired.value.Some? && p.b64decode(image).Returned?
                       && p.photoUpload(acquired.value.value, p.b64decode(image).value, caption).Returned?
    ensures r.Ok? ==>
              r.value == PhotoRecord(p.photoUpload(acquired.value.value, p.b64decode(image).value, caption).value)
    ensures acquired.Ok? && !p.b64decode(image).Returned? ==>
              r == Err(HttpError(400, PhotoFailure + p.b64decode(image).message))
    ensures acquired == Ok(None) && p.b64decode(image).Returned? ==>
              r == Err(HttpError(400, PhotoFailure + NoAttribute("photo_upload")))
    ensures acquired.Ok? && acquired.value.Some? && p.b64decode(image).Returned?
            && !p.photoUpload(acquired.value.value, p.b64decode(image).value, caption).Returned? ==>
              r == Err(HttpError(400, PhotoFailure
                                      + p.photoUpload(acquired.value.value, p.b64decode(image).value, caption).message))
  {
    match acquired
    case Err(e) => Err(HttpError(400, PhotoFailure + HttpErrorText(e)))
    case Ok(client) => Rewrapped(PhotoFailure, PhotoAttempt(p, client, image, caption))
  }

  /** The inner `try` of `upload_story`: decode, then upload with the
      annotation lists defaulted. */
  function StoryAttempt(p: Platform, client: Option<Settings>, image: string, caption: Option<string>,
                        options: StoryOptions): Result<PostResult, string>
  {
    var data := p.b64decode(image);
    if !data.Returned? then Failure(data)
    else if client.None? then Err(NoAttribute("photo_upload_to_story"))
    else
      var story := p.storyUpload(client.value, data.value, caption, Defaulted(options));
      if story.Returned? then Ok(StoryRecord(story.value)) else Failure(story)
  }

  /** `upload_story` given what `get_client` gave. */
  function StoryUpload(p: Platform, acquired: Result<Option<Settings>, HttpError>, image: string,
                       caption: Option<string>, options: StoryOptions): (r: Result<PostResult, HttpError>)
    ensures r.Err? ==> r.error.status == 400 && StoryFailure <= r.error.detail
    ensures acquired.Err? ==> r == Err(HttpError(400, StoryFailure + HttpErrorText(acquired.error)))
    ensures r.Ok? <==> acquired.Ok? && acquired.value.Some? && p.b64decode(image).Returned?
                       && p.storyUpload(acquired.value.value, p.b64decode(image).value, caption, Defaulted(options)).Returned?
    ensures r.Ok? ==>
              r.value == StoryRecord(p.storyUpload(acquired.value.value, p.b64decode(image).value, caption, Defaulted(options)).value)
    ensures acquired.Ok? && !p.b64decode(image).Returned? ==>
              r == Err(HttpError(400, StoryFailure + p.b64decode(image).message))
    ensures acquired == Ok(None) && p.b64decode(image).Returned? ==>
              r == Err(HttpError(400, StoryFailure + NoAttribute("photo_upload_to_story")))
    ensures acquired.Ok? && acquired.value.Some? && p.b64decode(image).Returned?
            && !p.storyUpload(acquired.value.value, p.b64decode(image).value, caption, Defaulted(options)).Returned? ==>
              r == Err(HttpError(400, StoryFailure
                                      + p.storyUpload(acquired.value.value, p.b64decode(image).value, caption, Defaulted(options)).message))
  {
    match acquired
    case Err(e) => Err(HttpError(400, StoryFailure + HttpErrorText(e)))
    case Ok(client) => Rewrapped(StoryFailure, StoryAttempt(p, client, image, caption, options))
  }

  /** Omitted annotation lists behave exactly as explicitly empty ones. */
  lemma OmittedListsAreEmpty(p: Platform, acquired: Result<Option<Settings>, HttpError>, image: string, caption: Option<string>)
    ensures StoryUpload(p, acquired, image, caption, StoryOptions(None, None, None, None, None))
            == StoryUpload(p, acquired, image, caption, StoryOptions(Some([]), Some([]), Some([]), Some([]), Some([])))
  {
  }

  /** `get_direct_threads` given what `get_client` gave: on success one entry
      per returned thread, in order. */
  function DirectThreads(p: Platform, acquired: Result<Option<Settings>, HttpError>, amount: int,
                         selectedFilter: string, messageLimit: Option<int>): (r: Result<ThreadsResult, HttpError>)
    ensures r.Err? ==> r.error.status == 400 && ThreadsFailure <= r.error.detail
    ensures acquired.Err? ==> r == Err(HttpError(400, ThreadsFailure + HttpErrorText(acquired.error)))
    ensures r.Ok? <==> acquired.Ok? && acquired.value.Some?
                       && p.directThreads(acquired.value.value, amount, selectedFilter, messageLimit).Returned?
    ensures r.Ok? ==>
              var threads := p.directThreads(acquired.value.value, amount, selectedFilter, messageLimit).value;
              r.value.status == "success" && |r.value.threads| == |threads|
              && forall i :: 0 <= i < |threads| ==> r.value.threads[i] == EntryOf(threads[i])
    ensures acquired == Ok(None) ==> r == Err(HttpError(400, ThreadsFailure + NoAttribute("direct_threads")))
    ensures acquired.Ok? && acquired.value.Some?
            && !p.directThreads(acquired.value.value, amount, selectedFilter, messageLimit).Returned? ==>
              r == Err(HttpError(400, ThreadsFailure
                                      + p.directThreads(acquired.value.value, amount, selectedFilter, messageLimit).message))
  {
    match acquired
    case Err(e) => Err(HttpError(400, ThreadsFailure + HttpErrorText(e)))
    case Ok(None) => Err(HttpError(400, ThreadsFailure + NoAttribute("direct_threads")))
    case Ok(Some(client)) =>
      var threads := p.directThreads(client, amount, selectedFilter, messageLimit);
      if threads.Returned? then Ok(ThreadsResult("success", Flattened(threads.value)))
      else Err(HttpError(400, ThreadsFailure + threads.message))
  }

  /** A failed login reaches the caller of an operation as a 400 whose detail
      embeds the 401 rendered by str(): "<prefix>401: Login failed: ...". */
  lemma {:induction false} UnauthorizedBecomesBadRequest(p: Platform, detail: string, image: string, caption: Option<string>,
                                                        options: StoryOptions, amount: int, selectedFilter: string,
                                                        messageLimit: Option<int>)
    ensures PhotoUpload(p, Err(HttpError(401, detail)), image, caption)
            == Err(HttpError(400, PhotoFailure + "401: " + detail))
    ensures StoryUpload(p, Err(HttpError(401, detail)), image, caption, options)
            == Err(HttpError(400, StoryFailure + "401: " + detail))
    ensures DirectThreads(p, Err(HttpError(401, detail)), amount, selectedFilter, messageLimit)
            == Err(HttpError(400, ThreadsFailure + "401: " + detail))
  {
    assert DecimalText(4) == [Digit(4)] == "4";
    assert DecimalText(40) == DecimalText(4) + [Digit(0)] == "40";
    assert DecimalText(401) == DecimalText(40) + [Digit(1)] == "401";
    var text := HttpErrorText(HttpError(401, detail));
    assert text == "401" + ": " + detail == "401: " + detail;
    assert PhotoFailure + text == PhotoFailure + "401: " + detail;
    assert StoryFailure + text == StoryFailure + "401: " + detail;
    assert ThreadsFailure + text == ThreadsFailure + "401: " + detail;
  }

  // ---------------------------------------------------------------------
  // State: clients, the file system, the manager
  // ---------------------------------------------------------------------

  /** An instagrapi client; all that the shim sees of it is its settings. */
  class Client {
    var settings: Settings

    constructor (initial: Settings)
      ensures settings == initial
    {
      settings := initial;
    }
  }

  /** The client's view as a value: None for a cached Python None. */
  function HandleView(c: Client?): Option<Settings>
    reads c
  {
    if c == null then None else Some(c.settings)
  }

  /** A handle returned against the value the specification prescribes. */
  predicate Realizes(r: Result<Client?, HttpError>, spec: Result<Option<Settings>, HttpError>)
    reads if r.Ok? && r.value != null then {r.value} else {}
  {
    match spec
    case Err(e) => r == Err(e)
    case Ok(view) => r.Ok? && HandleView(r.value) == view
  }

  /** The files the shim touches: session files by path, live temporary
      files by name. `refusesUnlink` says whether `os.unlink` raises. */
  class FileSystem {
    var sessions: map<string, SessionBlob>
    var temps: map<nat, seq<byte>>
    var nextTemp: nat
    const refusesUnlink: bool

    /** Temporary names below `nextTemp` are used, the others free. */
    ghost predicate Valid()
      reads this
    {
      forall name :: name in temps ==> name < nextTemp
    }

    constructor (sessions: map<string, SessionBlob>, refusesUnlink: bool)
      ensures Valid()
      ensures this.sessions == sessions && temps == map[] && this.refusesUnlink == refusesUnlink
    {
      this.sessions := sessions;
      temps := map[];
      nextTemp := 0;
      this.refusesUnlink := refusesUnlink;
    }

    /** `tempfile.NamedTemporaryFile(delete=False)`: a new empty file. */
    method CreateTemp() returns (name: nat)
      requires Valid()
      modifies this`temps, this`nextTemp
      ensures Valid()
      ensures name == old(nextTemp) && name !in old(temps)
      ensures temps == old(temps)[name := []]
    {
      name := nextTemp;
      temps := temps[name := []];
      nextTemp := nextTemp + 1;
    }

    /** `temp_file.write(data)` on a file just created. */
    method WriteTemp(name: nat, data: seq<byte>)
      requires name in temps
      modifies this`temps
      ensures temps == old(temps)[name := data]
    {
      temps := temps[name := data];
    }

    /** `os.unlink(name)`; whether it raised is returned, and the caller only
        logs that. */
    method Unlink(name: nat) returns (removed: bool)
      modifies this`temps
      ensures removed <==> !refusesUnlink && name in old(temps)
      ensures temps == if removed then old(temps) - {name} else old(temps)
    {
      removed := !refusesUnlink && name in temps;
      if removed {
        temps := temps - {name};
      }
    }
  }

  /** How the cache changes on a call that acquires a client for `uid`:
      nothing on a hit or a failure, one new key on a successful miss. */
  predicate CacheExtended(before: map<string, Client?>, after: map<string, Client?>, uid: string, acquired: bool)
  {
    if uid in before || !acquired then after == before
    else after.Keys == before.Keys + {uid} && forall u :: u in before ==> after[u] == before[u]
  }

  /** How the temporary files change on an upload: none but possibly the one
      it created, `created`, survives, and that one only when unlinking fails. */
  predicate TempsCleaned(before: map<nat, seq<byte>>, after: map<nat, seq<byte>>, created: nat, unlinked: bool)
  {
    && (forall n :: n in before ==> n in after && after[n] == before[n])
    && after.Keys <= before.Keys + {created}
    && (unlinked ==> after == before)
  }

  /** The class attribute `InstagramManager._instances`: one dictionary per
      process, shared by every manager and by the classmethod `get_client`. */
  class ClientCache {
    var instances: map<string, Client?>

    constructor ()
      ensures instances == map[]
    {
      instances := map[];
    }
  }

  /** An `InstagramManager`: the class-level cache it shares with every other
      manager of the process, the file system it writes to and the platform it
      talks to. */
  class InstagramManager {
    const cache: ClientCache
    const fs: FileSystem
    const platform: Platform

    constructor (cache: ClientCache, fs: FileSystem, platform: Platform)
      ensures this.cache == cache && this.fs == fs && this.platform == platform
    {
      this.cache := cache;
      this.fs := fs;
      this.platform := platform;
    }

    /** The clients the cache holds. */
    function CachedClients(): set<Client>
      reads cache
    {
      set c: Client | c in cache.instances.Values
    }

    /** What `get_client(uid, ...)` yields from the current state, as a
        value: the cached handle on a hit, the authentication otherwise. */
    function Acquisition(uid: string, username: string, password: string): AuthRun
      reads cache, fs, CachedClients()
    {
      if uid in cache.instances then
        assert cache.instances[uid] in cache.instances.Values;
        AuthRun(Ok(HandleView(cache.instances[uid])), fs.sessions)
      else Authentication(platform, fs.sessions, uid, username, password)
    }

    /** `_authenticate`: builds a new client step by step and writes the
        session file after a successful fresh login. */
    method Authenticate(uid: string, username: string, password: string) returns (r: Result<Client?, HttpError>)
      modifies fs`sessions
      ensures Realizes(r, Authentication(platform, old(fs.sessions), uid, username, password).result)
      ensures fs.sessions == Authentication(platform, old(fs.sessions), uid, username, password).files
      ensures r.Ok? && r.value != null ==> fresh(r.value)
    {
      var cl := new Client(platform.freshSettings);
      var sessionFile := SessionFile(uid);
      if sessionFile in fs.sessions {
        var blob := fs.sessions[sessionFile];
        if blob.Unreadable? {
          return Err(LoginFailed(blob.error));
        }
        cl.settings := blob.settings;
        var first := platform.login(cl.settings, username, password);
        if !first.Returned? {
          return Err(LoginFailed(first.message));
        }
        cl.settings := first.value.settings;
        var probe := platform.timelineFeed(cl.settings);
        if probe.Returned? {
          return Ok(cl);
        } else if probe.Raised? {
          return Err(LoginFailed(probe.message));
        }
        var oldSession := cl.settings;
        cl.settings := map[];
        if "uuids" !in oldSession {
          return Err(LoginFailed(MissingKey("uuids")));
        }
        cl.settings := cl.settings["uuids" := oldSession["uuids"]];
      }
      var second := platform.login(cl.settings, username, password);
      if !second.Returned? {
        return Err(LoginFailed(second.message));
      }
      cl.settings := second.value.settings;
      if second.value.truthy {
        fs.sessions := fs.sessions[sessionFile := Json(cl.settings)];
        return Ok(cl);
      }
      return Ok(null);
    }

    /** `get_client`: a hit returns the stored handle (None included) and
        touches nothing; a miss authenticates and stores whatever
        `_authenticate` returned, unless it raised. */
    method GetClient(uid: string, username: string, password: string) returns (r: Result<Client?, HttpError>)
      modifies cache`instances, fs`sessions
      ensures Realizes(r, old(Acquisition(uid, username, password)).result)
      ensures fs.sessions == old(Acquisition(uid, username, password)).files
      ensures uid in old(cache.instances) ==> r == Ok(old(cache.instances)[uid])
      ensures r.Ok? ==> uid in cache.instances && cache.instances[uid] == r.value
      ensures CacheExtended(old(cache.instances), cache.instances, uid, r.Ok?)
      ensures r.Ok? && uid !in old(cache.instances) && r.value != null ==> fresh(r.value)
    {
      if uid !in cache.instances {
        var client := Authenticate(uid, username, password);
        if client.Err? {
          return client;
        }
        cache.instances := cache.instances[uid := client.value];
      }
      return Ok(cache.instances[uid]);
    }

    /** Two calls in a row for one identifier, the second through `other`,
        which is this manager or any other built over the same class-level
        cache: once the first has produced a handle, the second returns that
        same handle and writes nothing. */
    method GetClientTwice(other: InstagramManager, uid: string, username: string, password: string)
      returns (first: Result<Client?, HttpError>, second: Result<Client?, HttpError>)
      requires other.cache == cache && other.fs == fs
      modifies cache`instances, fs`sessions
      ensures first.Ok? ==> second == first
      ensures first.Ok? ==> fs.sessions == old(Acquisition(uid, username, password)).files
    {
      first := GetClient(uid, username, password);
      second := other.GetClient(uid, username, password);
    }

    /** `upload_photo`. */
    method UploadPhoto(uid: string, username: string, password: string, image: string, caption: Option<string>)
      returns (r: Result<PostResult, HttpError>)
      requires fs.Valid()
      modifies cache, fs
      ensures fs.Valid()
      ensures r == PhotoUpload(platform, old(Acquisition(uid, username, password)).result, image, caption)
      ensures fs.sessions == old(Acquisition(uid, username, password)).files
      ensures CacheExtended(old(cache.instances), cache.instances, uid, old(Acquisition(uid, username, password)).result.Ok?)
      ensures old(Acquisition(uid, username, password)).result.Ok? ==>
                uid in cache.instances && HandleView(cache.instances[uid]) == old(Acquisition(uid, username, password)).result.value
      ensures TempsCleaned(old(fs.temps), fs.temps, old(fs.nextTemp), !fs.refusesUnlink)
      ensures old(Acquisition(uid, username, password)).result.Err? ==> fs.temps == old(fs.temps)
    {
      var got := GetClient(uid, username, password);
      if got.Err? {
        return Err(HttpError(400, PhotoFailure + HttpErrorText(got.error)));
      }
      var client := got.value;
      var tempFile := fs.CreateTemp();
      var attempt: Result<PostResult, string>;
      var data := platform.b64decode(image);
      if !data.Returned? {
        attempt := Err(data.message);
      } else {
        fs.WriteTemp(tempFile, data.value);
        if client == null {
          attempt := Err(NoAttribute("photo_upload"));
        } else {
          var media := platform.photoUpload(client.settings, fs.temps[tempFile], caption);
          attempt := if media.Returned? then Ok(PhotoRecord(media.value)) else Err(media.message);
        }
      }
      var _ := fs.Unlink(tempFile);
      r := Rewrapped(PhotoFailure, attempt);
    }

    /** `upload_story`. */
    method UploadStory(uid: string, username: string, password: string, image: string, caption: Option<string>,
                       options: StoryOptions)
      returns (r: Result<PostResult, HttpError>)
      requires fs.Valid()
      modifies cache, fs
      ensures fs.Valid()
      ensures r == StoryUpload(platform, old(Acquisition(uid, username, password)).result, image, caption, options)
      ensures fs.sessions == old(Acquisition(uid, username, password)).files
      ensures CacheExtended(old(cache.instances), cache.instances, uid, old(Acquisition(uid, username, password)).result.Ok?)
      ensures old(Acquisition(uid, username, password)).result.Ok? ==>
                uid in cache.instances && HandleView(cache.instances[uid]) == old(Acquisition(uid, username, password)).result.value
      ensures TempsCleaned(old(fs.temps), fs.temps, old(fs.nextTemp), !fs.refusesUnlink)
      ensures old(Acquisition(uid, username, password)).result.Err? ==> fs.temps == old(fs.temps)
    {
      var got := GetClient(uid, username, password);
      if got.Err? {
        return Err(HttpError(400, StoryFailure + HttpErrorText(got.error)));
      }
      var client := got.value;
      var tempFile := fs.CreateTemp();
      var attempt: Result<PostResult, string>;
      var data := platform.b64decode(image);
      if !data.Returned? {
        attempt := Err(data.message);
      } else {
        fs.WriteTemp(tempFile, data.value);
        if client == null {
          attempt := Err(NoAttribute("photo_upload_to_story"));
        } else {
          var story := platform.storyUpload(client.settings, fs.temps[tempFile], caption, Defaulted(options));
          attempt := if story.Returned? then Ok(StoryRecord(story.value)) else Err(story.message);
        }
      }
      var _ := fs.Unlink(tempFile);
      r := Rewrapped(StoryFailure, attempt);
    }

    /** `get_direct_threads`. */
    method GetDirectThreads(uid: string, username: string, password: string, amount: int,
                            selectedFilter: string, messageLimit: Option<int>)
      returns (r: Result<ThreadsResult, HttpError>)
      modifies cache`instances, fs`sessions
      ensures r == DirectThreads(platform, old(Acquisition(uid, username, password)).result, amount, selectedFilter, messageLimit)
      ensures fs.sessions == old(Acquisition(uid, username, password)).files
      ensures CacheExtended(old(cache.instances), cache.instances, uid, old(Acquisition(uid, username, password)).result.Ok?)
      ensures old(Acquisition(uid, username, password)).result.Ok? ==>
                uid in cache.instances && HandleView(cache.instances[uid]) == old(Acquisition(uid, username, password)).result.value
    {
      var got := GetClient(uid, username, password);
      if got.Err? {
        return Err(HttpError(400, ThreadsFailure + HttpErrorText(got.error)));
      }
      var client := got.value;
      if client == null {
        return Err(HttpError(400, ThreadsFailure + NoAttribute("direct_threads")));
      }
      var threads := platform.directThreads(client.settings, amount, selectedFilter, messageLimit);
      if !threads.Returned? {
        return Err(HttpError(400, ThreadsFailure + threads.message));
      }
      var threadList := SerializeThreads(threads.value);
      r := Ok(ThreadsResult("success", threadList));
    }
  }
}
