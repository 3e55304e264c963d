# Dynamic lock screen: the Spotify notification listener

This project models the core of the DynamicLock Android application: the
`SpotifyNotificationListener` service. The service follows the media session of
`com.spotify.music` and puts a composed image of the current track's album art on the
lock screen. When the music goes away it restores the saved original wallpaper, or
clears the lock screen if no original was saved.

The model has three layers.

- **Values** (`Machine`). One `State` record holds the listener's fields:
  - `lastSong`, `wallpaperGeneration`, `activeController`, `mediaCallback`,
    `originalWallpaper` and `wallpaperChanged`;
  - the main-looper `Handler` queue, as a sequence of delayed messages with tokens;
  - the started write threads, the lock-screen calls made so far, and a count of the
    fetch attempts in the current generation.

  Each callback, handler message and end of a write thread is one transition function.
  `Apply` and `Run` interpret event traces.
- **Invariant and properties.** `Invariants` defines the invariant that every reachable
  state keeps and proves that every event preserves it. `Properties` states, as lemmas,
  what the listener promises:
  - track dedupe and the generation bump;
  - the gates that stop stale work;
  - the attach rules;
  - the playback, destroy and notification rules;
  - the wallpaper flag and the reset;
  - the debounce of bursts;
  - the retry bound;
  - end-to-end runs.
- **Object** (`Service`). `SpotifyNotificationListener` is a class whose methods update
  its fields in place, one method per callback and per state-changing private function of
  the source. `saveOriginalWallpaper` is an input of the connected event and
  `setupMediaSessionListener` is part of `OnListenerConnected`; `getHighResAlbumArt` is
  a method of `Artwork`, and `blurBitmap` and `composeWallpaper` are pure functions of
  `Sizes`.
  Each method is proved to move the object exactly as the matching transition moves a
  `State`, and each callback method keeps the invariant.

Three smaller modules hold the rest:

- `MessageQueue`: the handler queue. Messages are kept in due order.
  `removeCallbacksAndMessages(token)` drops the messages with that token, and a null
  token drops every message.
- `Artwork`: the artwork source order, including the `getHighResAlbumArt` loop as a
  method.
- `Sizes`: the integer sizes of the blur and the composition.

The platform is a parameter, not a dependency. A `World` value gives what the platform
answers when it is asked:

- the active sessions;
- each controller's playback state and metadata;
- the posted notifications;
- whether a reset's write throws.

Clock times are passed in as `now`. The display size and the outcome of `setBitmap`
are passed in when a write thread ends.

Behaviours of the code worth noting:

- `composeWallpaper` does not clamp the canvas to at least 1. A 1-pixel screen side
  gives a 0 side, `createScaledBitmap` throws, and the write thread catches the
  exception and writes nothing (`Sizes.DegenerateDisplay`).
- Pausing does not clear `lastSong`. So Playing again with the same track is taken for
  a repeat and suppressed (`Properties.ScenarioPauseThenPlaySameTrack`).
- A removed Spotify notification resets without checking whether a Spotify session is
  still active.
- `STOPPED`/`NONE` do not detach: `activeController` is kept.
- A Spotify controller that is found but not playing leaves the listener detached, and
  no callback is registered.
- A reset does not advance the generation. A write thread of the current track that
  ends after `STOPPED`/`NONE`, a destroyed session or a removed notification still puts
  the composed art back and, on a positive result, sets `wallpaperChanged` again
  (`Properties.ResetLeavesCurrentWriteLive`).

## Model

All source paths are under `app/src/main/java/com/example/dynamiclock/service/`; the
table writes them in full.

| member | source | states |
|---|---|---|
| Invariants.InitialInv | app/src/main/java/com/example/dynamiclock/service/SpotifyNotificationListener.kt:27-35 | the initial fields satisfy the invariant: an empty queue, no callback, no attempt |
| Invariants.ApplyKeepsInv | app/src/main/java/com/example/dynamiclock/service/SpotifyNotificationListener.kt:63-276 | every event keeps the invariant: a sorted queue; at most one attach, one notify and one settle-or-retry message; every settle or retry is of the current generation; attempts never exceed 6 |
| Invariants.RunKeepsInv | app/src/main/java/com/example/dynamiclock/service/SpotifyNotificationListener.kt:63-276 | every state reachable by a trace of events satisfies the invariant |
| Invariants.ProcessKeepsInv | app/src/main/java/com/example/dynamiclock/service/SpotifyNotificationListener.kt:182-206 | processing metadata keeps the invariant |
| Invariants.AttachKeepsInv | app/src/main/java/com/example/dynamiclock/service/SpotifyNotificationListener.kt:80-108 | attaching keeps the invariant, including the freshness of the new callback number |
| Invariants.FetchKeepsInv | app/src/main/java/com/example/dynamiclock/service/SpotifyNotificationListener.kt:208-241 | a fetch that runs with no other chain message pending keeps the invariant, and so does its retry |
| Invariants.StepKeepsInv | app/src/main/java/com/example/dynamiclock/service/SpotifyNotificationListener.kt:71-73 | running the due head message keeps the invariant |
| Invariants.WriteJobDoneKeepsInv | app/src/main/java/com/example/dynamiclock/service/SpotifyNotificationListener.kt:360-400 | the end of a write thread keeps the invariant |
| Invariants.ConnectedKeepsInv | app/src/main/java/com/example/dynamiclock/service/SpotifyNotificationListener.kt:37-43 | connecting keeps the invariant |
| Invariants.DisconnectedKeepsInv | app/src/main/java/com/example/dynamiclock/service/SpotifyNotificationListener.kt:268-276 | disconnecting keeps the invariant |
| Invariants.SessionsChangedKeepsInv | app/src/main/java/com/example/dynamiclock/service/SpotifyNotificationListener.kt:67-74 | the debounced attach post keeps the invariant |
| Invariants.NotificationPostedKeepsInv | app/src/main/java/com/example/dynamiclock/service/SpotifyNotificationListener.kt:253-266 | the debounced notify post keeps the invariant |
| Invariants.NotificationRemovedKeepsInv | app/src/main/java/com/example/dynamiclock/service/SpotifyNotificationListener.kt:243-251 | a removed notification keeps the invariant |
| Invariants.SessionDestroyedKeepsInv | app/src/main/java/com/example/dynamiclock/service/SpotifyNotificationListener.kt:137-143 | a destroyed session keeps the invariant |
| Invariants.PlaybackKeepsInv | app/src/main/java/com/example/dynamiclock/service/SpotifyNotificationListener.kt:115-135 | a playback-state change keeps the invariant |
| Invariants.MetadataChangedKeepsInv | app/src/main/java/com/example/dynamiclock/service/SpotifyNotificationListener.kt:111-113 | a metadata change keeps the invariant |
| Properties.ProcessDedupe | app/src/main/java/com/example/dynamiclock/service/SpotifyNotificationListener.kt:183-187 | metadata processing changes nothing exactly when the `"title-artist"` key equals `lastSong` (both directions) |
| Properties.NewTrackCancelsPending | app/src/main/java/com/example/dynamiclock/service/SpotifyNotificationListener.kt:188-205 | a new key becomes `lastSong` and bumps the generation by exactly 1. Every pending message, attach and notify included, is removed. Only the 600 ms settle task of the new generation remains, and no other field changes |
| Properties.RepeatedTrackIsIdempotent | app/src/main/java/com/example/dynamiclock/service/SpotifyNotificationListener.kt:186-187 | processing the same metadata twice is the same as processing it once |
| Properties.StaleSettleDoesNothing | app/src/main/java/com/example/dynamiclock/service/SpotifyNotificationListener.kt:199-205 | a settle task of an older generation leaves the state unchanged |
| Properties.StaleFetchDoesNothing | app/src/main/java/com/example/dynamiclock/service/SpotifyNotificationListener.kt:209 | a fetch attempt of an older generation leaves the state unchanged: no fetch, no retry, no write |
| Properties.StaleJobDiscarded | app/src/main/java/com/example/dynamiclock/service/SpotifyNotificationListener.kt:377-380 | a write thread of an older generation ends with no lock-screen call and no flag change; only the thread itself goes |
| Properties.PendingChainIsCurrent | app/src/main/java/com/example/dynamiclock/service/SpotifyNotificationListener.kt:193-205 | in a reachable state, every pending settle or retry message carries the current generation |
| Properties.ApplyGenerationMonotone | app/src/main/java/com/example/dynamiclock/service/SpotifyNotificationListener.kt:189 | no event lowers the generation, and none raises it by more than 1 |
| Properties.OnceStaleAlwaysStale | app/src/main/java/com/example/dynamiclock/service/SpotifyNotificationListener.kt:189 | a generation that is out of date stays out of date after any trace |
| Properties.ComposedWriteIsCurrent | app/src/main/java/com/example/dynamiclock/service/SpotifyNotificationListener.kt:370-387 | the only event that puts a composed image on the lock screen is the end of a write thread of the current generation, and it writes that thread's composed image. All other events append only restore or clear calls. This holds for the model's one-step write thread; see "## Left out" on the check-then-write race |
| Properties.AttachRestoresOnly | app/src/main/java/com/example/dynamiclock/service/SpotifyNotificationListener.kt:93-99 | attaching never writes a composed image |
| Properties.AttachNeverRaisesFlag | app/src/main/java/com/example/dynamiclock/service/SpotifyNotificationListener.kt:80-108 | attaching never sets `wallpaperChanged` |
| Properties.FlagRisesOnlyOnPositiveWrite | app/src/main/java/com/example/dynamiclock/service/SpotifyNotificationListener.kt:389-394 | `wallpaperChanged` goes from false to true only when a write thread of the current generation composes an image and `setBitmap` returns more than 0 |
| Properties.WriteResultDecidesFlag | app/src/main/java/com/example/dynamiclock/service/SpotifyNotificationListener.kt:382-394 | a current write makes one call. The flag afterwards is `result > 0` or its old value: a failed write leaves it unchanged |
| Properties.ResetLeavesCurrentWriteLive | app/src/main/java/com/example/dynamiclock/service/SpotifyNotificationListener.kt:377-391 | a reset does not advance the generation, so a current write thread that ends after `STOPPED` or a destroyed session still writes its composed image and, on a positive result, sets the flag again |
| Properties.ResetRule | app/src/main/java/com/example/dynamiclock/service/SpotifyNotificationListener.kt:402-425 | a reset writes the saved original, or clears the lock screen when there is none, then clears the flag and `lastSong`. When the write throws, nothing changes |
| Properties.AttachUnregistersPrevious | app/src/main/java/com/example/dynamiclock/service/SpotifyNotificationListener.kt:81-84 | after an attach, the previous controller's callback is no longer registered |
| Properties.AttachWithoutSpotify | app/src/main/java/com/example/dynamiclock/service/SpotifyNotificationListener.kt:86-98 | with no Spotify controller, the listener ends detached and resets only when `wallpaperChanged`: a reset that does not throw writes the original, clears the flag and `lastSong`, and one that throws leaves both. Generation and queue are unchanged |
| Properties.AttachNotPlaying | app/src/main/java/com/example/dynamiclock/service/SpotifyNotificationListener.kt:100-105 | a Spotify controller that is not playing leaves the listener detached with no new callback: the state is exactly the unregistering step's |
| Properties.AttachPlaying | app/src/main/java/com/example/dynamiclock/service/SpotifyNotificationListener.kt:107-147 | a playing Spotify controller becomes the active one and gets a new registered callback, and its metadata is processed: without metadata the generation and queue are kept; a new track becomes `lastSong`, bumps the generation and leaves only its settle message 600 ms later; a repeated track keeps `lastSong`, the generation and the queue |
| Properties.NotifyOnlyWhenDetached | app/src/main/java/com/example/dynamiclock/service/SpotifyNotificationListener.kt:261-264 | the notify check does nothing while a controller is active, and attaches to the current sessions when none is |
| Properties.PauseChangesNothing | app/src/main/java/com/example/dynamiclock/service/SpotifyNotificationListener.kt:117-133 | a null state, `PAUSED` and every unnamed state change nothing |
| Properties.StopRule | app/src/main/java/com/example/dynamiclock/service/SpotifyNotificationListener.kt:125-129 | `STOPPED`/`NONE` reset only a changed wallpaper, make at most one call, always clear `lastSong`, and keep the controller, its registrations and the next callback number |
| Properties.PlayingReprocesses | app/src/main/java/com/example/dynamiclock/service/SpotifyNotificationListener.kt:121-124 | `PLAYING` processes the active controller's live metadata, and registers nothing |
| Properties.DestroyRule | app/src/main/java/com/example/dynamiclock/service/SpotifyNotificationListener.kt:137-143 | a destroyed session resets if changed, then clears the controller and `lastSong`; the flag stays set only when the reset threw. The queue, the generation, the registrations and the next callback number are unchanged |
| Properties.RemovalRule | app/src/main/java/com/example/dynamiclock/service/SpotifyNotificationListener.kt:243-251 | a removed Spotify notification resets, and clears `lastSong`, only when `wallpaperChanged`; the flag stays set only when the reset threw, and the controller, queue, generation and registrations are kept. Any other case changes nothing |
| Properties.SessionsBurstIsBurst | app/src/main/java/com/example/dynamiclock/service/SpotifyNotificationListener.kt:67-74 | the queue after a burst of session-list events is the queue's debounce of their attach posts |
| Properties.NotificationPostedDebounces | app/src/main/java/com/example/dynamiclock/service/SpotifyNotificationListener.kt:253-265 | a Spotify notification leaves exactly one notify message, due 500 ms later, and keeps every other message and field; another package's notification changes nothing |
| Properties.SessionsBurstAttachesOnce | app/src/main/java/com/example/dynamiclock/service/SpotifyNotificationListener.kt:67-74 | after any burst, exactly one attach message is pending: the last event's, due 300 ms after it |
| MessageQueue.DebounceLeavesOne | app/src/main/java/com/example/dynamiclock/service/SpotifyNotificationListener.kt:255-265 | after a debounce, exactly one message has the token, and it is the new one. Every other token's messages are kept |
| MessageQueue.BurstKeepsLast | app/src/main/java/com/example/dynamiclock/service/SpotifyNotificationListener.kt:255-265 | however many debounced posts come in a burst, the only surviving message with the token is the last post's |
| MessageQueue.EnqueueFacts | app/src/main/java/com/example/dynamiclock/service/SpotifyNotificationListener.kt:71-73 | posting adds exactly the one message (as a multiset), and a due-ordered queue stays due-ordered |
| MessageQueue.WithoutFacts | app/src/main/java/com/example/dynamiclock/service/SpotifyNotificationListener.kt:70 | removing a token keeps exactly the messages with other tokens: each as often as it was queued (multiset counts), in their order (a subsequence), and sorted when the queue was |
| MessageQueue.CountTokenEnqueue | app/src/main/java/com/example/dynamiclock/service/SpotifyNotificationListener.kt:71-73 | posting raises the post's token count by one and no other count |
| MessageQueue.CountTokenWithout | app/src/main/java/com/example/dynamiclock/service/SpotifyNotificationListener.kt:70 | removing a token leaves none of it and keeps every other count |
| Properties.RetriesRunOut | app/src/main/java/com/example/dynamiclock/service/SpotifyNotificationListener.kt:230-240 | with art that never appears, each handler step of a lone settle-or-retry chain is one attempt. After 6 attempts in all, nothing is pending and no other field has changed: no write thread, no call |
| Properties.RetriesRunOutWhenReachable | app/src/main/java/com/example/dynamiclock/service/SpotifyNotificationListener.kt:230-240 | in a reachable state, a lone message without a token is such a chain: each handler `Step` of its due head is one attempt, and after the remaining attempts nothing is pending and nothing else has changed |
| Properties.FetchUsesFirstSource | app/src/main/java/com/example/dynamiclock/service/SpotifyNotificationListener.kt:218-240 | a current attempt with live metadata queues one write of the first available source (notification art before `ALBUM_ART` before `ART`) and nothing else; with no source it posts a retry 500 ms later only while the attempt number is below 5, and otherwise only counts itself |
| Properties.NoMetadataStops | app/src/main/java/com/example/dynamiclock/service/SpotifyNotificationListener.kt:211-216 | a current attempt with no live metadata writes nothing and posts no retry |
| Properties.ReachableAttemptsBounded | app/src/main/java/com/example/dynamiclock/service/SpotifyNotificationListener.kt:208-240 | in every reachable state the current generation has made at most six attempts (the first plus five retries) |
| Properties.NewTrackRetryTimes | app/src/main/java/com/example/dynamiclock/service/SpotifyNotificationListener.kt:196-236 | for a new track without art, the handler's k-th attempt is due 600 ms plus k times 500 ms after the track arrived |
| Properties.NewTrackWithoutArt | app/src/main/java/com/example/dynamiclock/service/SpotifyNotificationListener.kt:182-240 | a new track whose art never appears gets exactly 6 fetch attempts: each a handler step of the settle task or one of its 5 retries. No write thread is started |
| Properties.ChainStepWithoutArt | app/src/main/java/com/example/dynamiclock/service/SpotifyNotificationListener.kt:212-240 | one attempt without art counts itself, and posts a retry with `attempt + 1` only while `attempt < 5` |
| Properties.ScenarioFirstAttemptWrites | app/src/main/java/com/example/dynamiclock/service/SpotifyNotificationListener.kt:182-241 | a new song with album art starts one write thread on the first attempt. Its positive write puts the composed image on the lock screen and sets the flag |
| Properties.ScenarioSupersededBeforeSettle | app/src/main/java/com/example/dynamiclock/service/SpotifyNotificationListener.kt:188-205 | song B arriving before song A's settle delay ends leaves only B's settle task, and A starts no write |
| Properties.ScenarioPauseThenPlaySameTrack | app/src/main/java/com/example/dynamiclock/service/SpotifyNotificationListener.kt:121-132 | pause, then play with the same track: nothing changes, because a pause keeps `lastSong` |
| Properties.ScenarioDestroyedRestoresOriginal | app/src/main/java/com/example/dynamiclock/service/SpotifyNotificationListener.kt:137-143 | a destroyed session with a changed wallpaper and a saved original makes one write, of the original, and clears the flag |
| Media.SongKeyInjective | app/src/main/java/com/example/dynamiclock/service/SpotifyNotificationListener.kt:183-185 | for titles without a dash, equal keys mean equal title and artist (both directions) |
| Media.SongKeyCollision | app/src/main/java/com/example/dynamiclock/service/SpotifyNotificationListener.kt:183-185 | a dash in a title lets two different tracks share one key |
| Media.MissingTitleIsNullText | app/src/main/java/com/example/dynamiclock/service/SpotifyNotificationListener.kt:185 | a missing title gives the same key as the title "null" |
| Media.FindSpotifyIsFirst | app/src/main/java/com/example/dynamiclock/service/SpotifyNotificationListener.kt:86-88 | the search yields the first controller of package `com.spotify.music`; it yields none only when there is no list or no such controller |
| Artwork.FirstNotificationArtIsFirst | app/src/main/java/com/example/dynamiclock/service/SpotifyNotificationListener.kt:152-174 | the scan yields the art of the first notification that offers any, and nothing exactly when none does |
| Artwork.GetHighResAlbumArt | app/src/main/java/com/example/dynamiclock/service/SpotifyNotificationListener.kt:150-179 | the loop with its `continue`s and early returns computes the first notification's art, or null without a notification list |
| Artwork.ResolveArtIsFirstCandidate | app/src/main/java/com/example/dynamiclock/service/SpotifyNotificationListener.kt:150-228 | one attempt uses the first available source in a fixed order: each Spotify notification's icon (at least 300 wide), then its picture, then `ALBUM_ART`, then `ART` |
| Artwork.NarrowIconPassedOver | app/src/main/java/com/example/dynamiclock/service/SpotifyNotificationListener.kt:162-171 | an icon narrower than 300 pixels gives way to the same notification's picture |
| Artwork.NoExtrasNoArt | app/src/main/java/com/example/dynamiclock/service/SpotifyNotificationListener.kt:155-156 | a notification without extras offers nothing, however wide its icon |
| Sizes.BlurSide | app/src/main/java/com/example/dynamiclock/service/SpotifyNotificationListener.kt:281-282 | a blur side is at least 1, and it is the side divided by 8 (truncated) whenever the side is at least 8 |
| Sizes.BlurSideNotLarger | app/src/main/java/com/example/dynamiclock/service/SpotifyNotificationListener.kt:281-282 | a non-empty side never grows when scaled for the blur |
| Sizes.ClampRadius | app/src/main/java/com/example/dynamiclock/service/SpotifyNotificationListener.kt:292 | the radius lies in [1, 25], and a radius already inside stays unchanged |
| Sizes.CanvasSide | app/src/main/java/com/example/dynamiclock/service/SpotifyNotificationListener.kt:310-311 | a canvas side is half the screen side, truncated, with no lower bound of 1 |
| Sizes.ComposeFacts | app/src/main/java/com/example/dynamiclock/service/SpotifyNotificationListener.kt:308-323 | an image is composed exactly when both screen sides are at least 2. It carries the art and half the screen size, blurred at radius 25 |
| Sizes.ComposeSizeIndependentOfArt | app/src/main/java/com/example/dynamiclock/service/SpotifyNotificationListener.kt:310-311 | the canvas size depends only on the screen, never on the art |
| Sizes.DegenerateDisplay | app/src/main/java/com/example/dynamiclock/service/SpotifyNotificationListener.kt:310-320 | a 1×1 display gives a 0×0 canvas and no image |
| Service.SpotifyNotificationListener.constructor | app/src/main/java/com/example/dynamiclock/service/SpotifyNotificationListener.kt:27-35 | the fields start as `Machine.Initial`, which satisfies the invariant |
| Service.SpotifyNotificationListener.ResetWallpaper | app/src/main/java/com/example/dynamiclock/service/SpotifyNotificationListener.kt:402-425 | the object moves as `Machine.Reset` |
| Service.SpotifyNotificationListener.ProcessMetadata | app/src/main/java/com/example/dynamiclock/service/SpotifyNotificationListener.kt:182-206 | the object moves as `Machine.Process` |
| Service.SpotifyNotificationListener.Detach | app/src/main/java/com/example/dynamiclock/service/SpotifyNotificationListener.kt:81-84 | the object moves as `Machine.Detach` |
| Service.SpotifyNotificationListener.AttachToSpotifyController | app/src/main/java/com/example/dynamiclock/service/SpotifyNotificationListener.kt:80-108 | the object moves as `Machine.Attach` |
| Service.SpotifyNotificationListener.OnListenerConnected | app/src/main/java/com/example/dynamiclock/service/SpotifyNotificationListener.kt:37-78 | the object moves as the connected event, and the invariant is kept |
| Service.SpotifyNotificationListener.OnActiveSessionsChanged | app/src/main/java/com/example/dynamiclock/service/SpotifyNotificationListener.kt:67-74 | the object moves as the sessions-changed event, and the invariant is kept |
| Service.SpotifyNotificationListener.OnMetadataChanged | app/src/main/java/com/example/dynamiclock/service/SpotifyNotificationListener.kt:111-113 | the object moves as the metadata event of a registered callback, and the invariant is kept |
| Service.SpotifyNotificationListener.OnPlaybackStateChanged | app/src/main/java/com/example/dynamiclock/service/SpotifyNotificationListener.kt:115-135 | the object moves as the playback event of a registered callback, and the invariant is kept |
| Service.SpotifyNotificationListener.OnSessionDestroyed | app/src/main/java/com/example/dynamiclock/service/SpotifyNotificationListener.kt:137-143 | the object moves as the destroy event of a registered callback, and the invariant is kept |
| Service.SpotifyNotificationListener.SetLockWallpaper | app/src/main/java/com/example/dynamiclock/service/SpotifyNotificationListener.kt:360-362 | the object moves as `Machine.SetLockWallpaper`: one write thread that captured the generation |
| Service.SpotifyNotificationListener.FetchArtAndSetWallpaper | app/src/main/java/com/example/dynamiclock/service/SpotifyNotificationListener.kt:208-241 | the object moves as `Machine.Fetch` |
| Service.SpotifyNotificationListener.SettleTask | app/src/main/java/com/example/dynamiclock/service/SpotifyNotificationListener.kt:199-205 | the object moves as `Machine.Settle` |
| Service.SpotifyNotificationListener.OnNotificationRemoved | app/src/main/java/com/example/dynamiclock/service/SpotifyNotificationListener.kt:243-251 | the object moves as the notification-removed event, and the invariant is kept |
| Service.SpotifyNotificationListener.OnNotificationPosted | app/src/main/java/com/example/dynamiclock/service/SpotifyNotificationListener.kt:253-266 | the object moves as the notification-posted event, and the invariant is kept |
| Service.SpotifyNotificationListener.OnListenerDisconnected | app/src/main/java/com/example/dynamiclock/service/SpotifyNotificationListener.kt:268-276 | the object moves as the disconnected event, and the invariant is kept |
| Service.SpotifyNotificationListener.Step | app/src/main/java/com/example/dynamiclock/service/SpotifyNotificationListener.kt:71-73 | the object moves as one handler step, and the invariant is kept |
| Service.SpotifyNotificationListener.RunWriteJob | app/src/main/java/com/example/dynamiclock/service/SpotifyNotificationListener.kt:363-398 | the object moves as the end of the write thread, and the invariant is kept |

## Left out

- `MainActivity.kt` is not part of this model. It is user interface only.
- Pixels are not modelled: the RenderScript blur, `Canvas`/`Paint` drawing, the overlay, the shadow and the rounded rects. A bitmap is an identity with a size, and a composed image records the art and the integer sizes used.
- The float geometry of `composeWallpaper` is not modelled: the 80 % art square, its `/2f` offsets and the shadow parameters. The float blur radius is modelled on integers.
- Threads are not modelled as threads. A started write thread is a pending job that can end at any later point, in any order, while the generation is read when it ends.
- `Machine.WriteJobDone` runs a write thread's generation check (SpotifyNotificationListener.kt:377), its `setBitmap` (:382) and its flag update (:389-390) as one atomic step. In the source these are separate steps, and the main thread can bump `wallpaperGeneration` between the check and the write; a thread that already passed the check then still writes, and can overwrite a newer track's image. The model does not capture that check-then-write race, so `Properties.ComposedWriteIsCurrent` holds only for the atomic step. The `@Volatile` reads, thread priority and the unsynchronised write of `wallpaperChanged` from the write thread are left out.
- `saveOriginalWallpaper`'s probing of the wallpaper drawable is an input: the bitmap it found, if any.
- `getActiveSessions`, `getSystemService` and `activeNotifications` are inputs in `World`. An exception inside `getHighResAlbumArt` is left out: the caught exception would make it return null, and the model has no input for it.
- A write thread's `setBitmap` that throws is modelled like a call that never reached the lock screen: it is not recorded as a call.
- Logging and `RenderScript.create`/`destroy` are left out.
- Each connect registers the sessions listener again; the model keeps no record of sessions-listener registrations, so duplicate registrations after a reconnect, and the duplicate callbacks they would cause, are not counted. Every connected event does attach to the current sessions.
- `Machine.Process`: the generation is an unbounded integer. Kotlin's `Int` would wrap after 2^31 songs; the model does not capture that wrap-around.
- Clock values come from parameters; the model does not check that they increase.
