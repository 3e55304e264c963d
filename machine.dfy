/**
 * The listener's state machine on values: its state as a record and one transition
 * per callback, handler message and background write. The imperative listener in
 * module Service is proved to follow these transitions; the lemmas here state what
 * they promise: the invariant every reachable state keeps, the dedupe and generation
 * rules, the retry bound, the gates on stale work, and the reset rules.
 */
module Machine {
  import opened Wrappers
  import opened Media
  import opened Sizes
  import opened MessageQueue
  import opened Artwork

  /** Handler tokens of the two debounced re-evaluations. */
  const AttachToken: string := "attach"
  const NotifyToken: string := "notify"
  /** Delays in milliseconds. */
  const AttachDelay: int := 300
  const NotifyDelay: int := 500
  const SettleDelay: int := 600
  const RetryDelay: int := 500
  /** A fetch attempt with a smaller attempt number may post a retry; attempt 0 is the first. */
  const MaxRetries: nat := 5
  /** Fetch attempts that pass the generation check, per generation. */
  const MaxAttempts: nat := MaxRetries + 1

  /** What a handler message does when it runs. */
  datatype Action =
    | AttachAction(controllers: Option<seq<Controller>>)  // the debounced sessions-changed event, with its list
    | NotifyAction                                         // the debounced notification-posted event
    | SettleAction(generation: int)                        // processMetadata's 600 ms settle task
    | FetchAction(generation: int, attempt: nat)           // a rescheduled fetchArtAndSetWallpaper

  type Msg = Message<Action>

  /**
   * What the platform answers when asked: the active sessions (null when there is no
   * session manager), what each controller reports now, the posted notifications, and
   * whether a reset's write to the wallpaper manager throws.
   */
  datatype World = World(
    sessions: Option<seq<Controller>>,
    live: map<nat, Live>,
    notifications: Option<seq<StatusBarNotification>>,
    resetThrows: bool)

  /** A started write thread: the art it composes and the generation it captured. */
  datatype WriteJob = WriteJob(art: Bitmap, generation: int)

  datatype Image = Composed(image: ComposedImage) | Original(bitmap: Bitmap)

  /** A call that reached the lock screen through the wallpaper manager. */
  datatype SinkCall = SetLock(image: Image) | ClearLock

  /** How `setBitmap` ended for a write thread. */
  datatype WriteOutcome = Returned(result: int) | Threw

  /** A media callback object registered on a controller. */
  datatype Registration = Registration(controller: Controller, callback: nat)

  /**
   * The listener's fields, the handler's queue, the running write threads, the calls
   * made to the lock screen, and the fetch attempts made in the current generation.
   * Callback objects are numbered; `nextCallback` is the number the next one gets.
   */
  datatype State = State(
    lastSong: Option<string>,
    generation: int,
    activeController: Option<Controller>,
    mediaCallback: Option<nat>,
    registrations: set<Registration>,
    nextCallback: nat,
    originalWallpaper: Option<Bitmap>,
    wallpaperChanged: bool,
    pending: seq<Msg>,
    jobs: seq<WriteJob>,
    sinkLog: seq<SinkCall>,
    attempts: nat)

  /** The field initialisers of the service. */
  function Initial(): State
  {
    State(None, 0, None, None, {}, 0, None, false, [], [], [], 0)
  }

  /** The one call a reset makes: restore the saved original, or clear the lock screen. */
  function RestoreCall(original: Option<Bitmap>): SinkCall
  {
    if original.Some? then SetLock(Original(original.value)) else ClearLock
  }

  // ---------------------------------------------------------------- transitions

  /** `resetWallpaper`; when the wallpaper manager throws, nothing changes. */
  function Reset(s: State, throws: bool): State
  {
    if throws then s
    else s.(sinkLog := s.sinkLog + [RestoreCall(s.originalWallpaper)], wallpaperChanged := false, lastSong := None)
  }

  /** `processMetadata`: a new key bumps the generation, empties the handler and posts the settle task. */
  function Process(s: State, md: Metadata, now: int): State
  {
    var key := TrackKey(md);
    if s.lastSong == Some(key) then s
    else
      var g := s.generation + 1;
      s.(lastSong := Some(key), generation := g, attempts := 0,
         pending := Enqueue(Remove(s.pending, None), Message(None, now + SettleDelay, SettleAction(g))))
  }

  /** The start of `attachToSpotifyController`: unregister the callback, forget the controller. */
  function Detach(s: State): State
  {
    var regs := if s.activeController.Some? && s.mediaCallback.Some?
      then s.registrations - {Registration(s.activeController.value, s.mediaCallback.value)}
      else s.registrations;
    s.(registrations := regs, activeController := None)
  }

  /** `attachToSpotifyController(controllers)`. */
  function Attach(s: State, controllers: Option<seq<Controller>>, w: World, now: int): State
  {
    var d := Detach(s);
    var spotify := FindSpotify(controllers);
    if spotify.None? then (if d.wallpaperChanged then Reset(d, w.resetThrows) else d)
    else
      var live := LiveOf(w.live, spotify.value);
      if live.state != Some(Playing) then d
      else
        var cb := d.nextCallback;
        var a := d.(activeController := spotify, mediaCallback := Some(cb), nextCallback := cb + 1,
                    registrations := d.registrations + {Registration(spotify.value, cb)});
        if live.metadata.Some? then Process(a, live.metadata.value, now) else a
  }

  /** The sessions-changed listener: replace any pending attach with one due in 300 ms. */
  function SessionsChanged(s: State, controllers: Option<seq<Controller>>, now: int): State
  {
    s.(pending := Debounce(s.pending, AttachToken, now + AttachDelay, AttachAction(controllers)))
  }

  /** `onMetadataChanged`. */
  function MetadataChanged(s: State, md: Option<Metadata>, now: int): State
  {
    if md.Some? then Process(s, md.value, now) else s
  }

  /** `onPlaybackStateChanged`. */
  function PlaybackStateChanged(s: State, state: Option<PlaybackState>, w: World, now: int): State
  {
    match state
    case None => s
    case Some(Playing) =>
      var md := LiveMetadata(w.live, s.activeController);
      if md.Some? then Process(s, md.value, now) else s
    case Some(Stopped) => (if s.wallpaperChanged then Reset(s, w.resetThrows) else s).(lastSong := None)
    case Some(NoState) => (if s.wallpaperChanged then Reset(s, w.resetThrows) else s).(lastSong := None)
    case Some(_) => s
  }

  /** `onSessionDestroyed`. */
  function SessionDestroyed(s: State, throws: bool): State
  {
    (if s.wallpaperChanged then Reset(s, throws) else s).(activeController := None, lastSong := None)
  }

  /** `onNotificationRemoved`: no look at the remaining sessions. */
  function NotificationRemoved(s: State, packageName: string, throws: bool): State
  {
    if packageName != SpotifyPackage then s
    else if s.wallpaperChanged then Reset(s, throws).(lastSong := None)
    else s
  }

  /** `onNotificationPosted`: replace any pending re-attach check with one due in 500 ms. */
  function NotificationPosted(s: State, packageName: string, now: int): State
  {
    if packageName != SpotifyPackage then s
    else s.(pending := Debounce(s.pending, NotifyToken, now + NotifyDelay, NotifyAction))
  }

  /** `onListenerConnected`: keep the captured original (if one was found), then attach. */
  function Connected(s: State, saved: Option<Bitmap>, w: World, now: int): State
  {
    var withOriginal := s.(originalWallpaper := if saved.Some? then saved else s.originalWallpaper);
    Attach(withOriginal, w.sessions, w, now)
  }

  /** `onListenerDisconnected`: drop every message and unregister the callback. */
  function Disconnected(s: State): State
  {
    var regs := if s.activeController.Some? && s.mediaCallback.Some?
      then s.registrations - {Registration(s.activeController.value, s.mediaCallback.value)}
      else s.registrations;
    s.(pending := [], registrations := regs)
  }

  /** `setLockWallpaper`: start a write thread that captured `g`. */
  function SetLockWallpaper(s: State, art: Bitmap, g: int): State
  {
    s.(jobs := s.jobs + [WriteJob(art, g)])
  }

  /** `fetchArtAndSetWallpaper(g, attempt)`. */
  function Fetch(s: State, g: int, attempt: nat, w: World, now: int): State
  {
    if s.generation != g then s
    else
      var s1 := s.(attempts := s.attempts + 1);
      var metadata := LiveMetadata(w.live, s.activeController);
      if metadata.None? then s1
      else
        var high := HighResArt(w.notifications);
        if high.Some? then SetLockWallpaper(s1, high.value, g)
        else
          var art := MetadataArt(metadata.value);
          if art.Some? then SetLockWallpaper(s1, art.value, g)
          else if attempt < MaxRetries then
            s1.(pending := Enqueue(s1.pending, Message(None, now + RetryDelay, FetchAction(g, attempt + 1))))
          else s1
  }

  /** The settle task posted by `processMetadata`. */
  function Settle(s: State, g: int, w: World, now: int): State
  {
    if s.generation != g then s else Fetch(s, g, 0, w, now)
  }

  function RunAction(s: State, action: Action, w: World, now: int): State
  {
    match action
    case AttachAction(controllers) => Attach(s, controllers, w, now)
    case NotifyAction => if s.activeController.None? then Attach(s, w.sessions, w, now) else s
    case SettleAction(g) => Settle(s, g, w, now)
    case FetchAction(g, attempt) => Fetch(s, g, attempt, w, now)
  }

  /** The looper runs the head message once it is due. */
  function Step(s: State, now: int, w: World): State
  {
    if s.pending == [] || s.pending[0].due > now then s
    else RunAction(s.(pending := s.pending[1..]), s.pending[0].action, w, now)
  }

  /** The end of write thread `i`: compose, check the generation, write. */
  function WriteJobDone(s: State, i: nat, screenWidth: nat, screenHeight: nat, outcome: WriteOutcome): State
    requires i < |s.jobs|
  {
    var job := s.jobs[i];
    var rest := s.jobs[..i] + s.jobs[i + 1..];
    var image := Compose(job.art, screenWidth, screenHeight);
    if image.None? || s.generation != job.generation || outcome.Threw? then s.(jobs := rest)
    else
      s.(jobs := rest, sinkLog := s.sinkLog + [SetLock(Composed(image.value))],
         wallpaperChanged := if outcome.result > 0 then true else s.wallpaperChanged)
  }

  // ---------------------------------------------------------------- traces

  /** Everything that can happen to the listener. A media callback fires only through a registration it holds. */
  datatype Event =
    | ConnectedEvent(saved: Option<Bitmap>, world: World, now: int)
    | DisconnectedEvent
    | SessionsChangedEvent(controllers: Option<seq<Controller>>, now: int)
    | MetadataChangedEvent(via: Registration, metadata: Option<Metadata>, now: int)
    | PlaybackStateChangedEvent(via: Registration, state: Option<PlaybackState>, world: World, now: int)
    | SessionDestroyedEvent(via: Registration, resetThrows: bool)
    | NotificationPostedEvent(packageName: string, now: int)
    | NotificationRemovedEvent(packageName: string, resetThrows: bool)
    | HandlerStep(now: int, world: World)
    | WriteDone(job: nat, screenWidth: nat, screenHeight: nat, outcome: WriteOutcome)

  function Apply(s: State, e: Event): State
  {
    match e
    case ConnectedEvent(saved, w, now) => Connected(s, saved, w, now)
    case DisconnectedEvent => Disconnected(s)
    case SessionsChangedEvent(cs, now) => SessionsChanged(s, cs, now)
    case MetadataChangedEvent(via, md, now) => if via in s.registrations then MetadataChanged(s, md, now) else s
    case PlaybackStateChangedEvent(via, st, w, now) =>
      if via in s.registrations then PlaybackStateChanged(s, st, w, now) else s
    case SessionDestroyedEvent(via, throws) => if via in s.registrations then SessionDestroyed(s, throws) else s
    case NotificationPostedEvent(pkg, now) => NotificationPosted(s, pkg, now)
    case NotificationRemovedEvent(pkg, throws) => NotificationRemoved(s, pkg, throws)
    case HandlerStep(now, w) => Step(s, now, w)
    case WriteDone(i, sw, sh, outcome) => if i < |s.jobs| then WriteJobDone(s, i, sw, sh, outcome) else s
  }

  function Run(s: State, es: seq<Event>): State
    decreases |es|
  {
    if es == [] then s else Run(Apply(s, es[0]), es[1..])
  }
}
