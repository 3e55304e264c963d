/**
 * The listener service as an object whose callbacks update its fields in place.
 * Each method is proved to move the object's state exactly as the matching
 * transition of module Machine moves a State value, and every callback keeps the
 * invariant of module Invariants. The handler queue, the started write threads and
 * the calls made to the lock screen are fields as well; the fetch attempts of the
 * current generation are counted in a ghost field.
 */
module Service {
  import opened Wrappers
  import opened Media
  import opened Sizes
  import opened MessageQueue
  import opened Artwork
  import opened Machine
  import opened Invariants

  class SpotifyNotificationListener {
    var lastSong: Option<string>
    var wallpaperGeneration: int
    var activeController: Option<Controller>
    var mediaCallback: Option<nat>
    var registrations: set<Registration>
    var nextCallback: nat
    var originalWallpaper: Option<Bitmap>
    var wallpaperChanged: bool
    var handler: seq<Msg>
    var jobs: seq<WriteJob>
    var sinkLog: seq<SinkCall>
    ghost var attempts: nat

    /** The object's fields as a Machine state. */
    ghost function Snapshot(): State
      reads this
    {
      State(lastSong, wallpaperGeneration, activeController, mediaCallback, registrations, nextCallback,
            originalWallpaper, wallpaperChanged, handler, jobs, sinkLog, attempts)
    }

    ghost predicate Valid()
      reads this
    {
      Inv(Snapshot())
    }

    constructor()
      ensures Snapshot() == Initial()
      ensures Valid()
    {
      lastSong := None;
      wallpaperGeneration := 0;
      activeController := None;
      mediaCallback := None;
      registrations := {};
      nextCallback := 0;
      originalWallpaper := None;
      wallpaperChanged := false;
      handler := [];
      jobs := [];
      sinkLog := [];
      attempts := 0;
      InitialInv();
    }

    /** `resetWallpaper`: restore the original or clear the lock screen; a throwing write changes nothing. */
    method ResetWallpaper(throws: bool)
      modifies this
      ensures Snapshot() == Reset(old(Snapshot()), throws)
    {
      if throws {
        return;
      }
      if originalWallpaper.Some? {
        sinkLog := sinkLog + [SetLock(Original(originalWallpaper.value))];
      } else {
        sinkLog := sinkLog + [ClearLock];
      }
      wallpaperChanged := false;
      lastSong := None;
    }

    /** `processMetadata`. */
    method ProcessMetadata(md: Metadata, now: int)
      modifies this
      ensures Snapshot() == Process(old(Snapshot()), md, now)
    {
      var currentSong := SongKey(md.title, md.artist);
      if lastSong == Some(currentSong) {
        return;
      }
      lastSong := Some(currentSong);
      wallpaperGeneration := wallpaperGeneration + 1;
      var myGeneration := wallpaperGeneration;
      handler := Remove(handler, None);
      handler := Enqueue(handler, Message(None, now + SettleDelay, SettleAction(myGeneration)));
      attempts := 0;
    }

    /** The unregistering start of `attachToSpotifyController`. */
    method Detach()
      modifies this
      ensures Snapshot() == Machine.Detach(old(Snapshot()))
    {
      if activeController.Some? && mediaCallback.Some? {
        registrations := registrations - {Registration(activeController.value, mediaCallback.value)};
      }
      activeController := None;
    }

    /** `attachToSpotifyController(controllers)`, with the platform's answers in `w`. */
    method AttachToSpotifyController(controllers: Option<seq<Controller>>, w: World, now: int)
      modifies this
      ensures Snapshot() == Attach(old(Snapshot()), controllers, w, now)
    {
      Detach();
      var spotifyController := FindSpotify(controllers);
      if spotifyController.None? {
        if wallpaperChanged {
          ResetWallpaper(w.resetThrows);
        }
        return;
      }
      var live := LiveOf(w.live, spotifyController.value);
      if live.state != Some(Playing) {
        return;
      }
      activeController := spotifyController;
      var cb := nextCallback;
      nextCallback := nextCallback + 1;
      mediaCallback := Some(cb);
      registrations := registrations + {Registration(spotifyController.value, cb)};
      if live.metadata.Some? {
        ProcessMetadata(live.metadata.value, now);
      }
    }

    /** `onListenerConnected`: keep the original the probe found, then attach to the current sessions. */
    method OnListenerConnected(saved: Option<Bitmap>, w: World, now: int)
      requires Valid()
      modifies this
      ensures Snapshot() == Apply(old(Snapshot()), ConnectedEvent(saved, w, now))
      ensures Valid()
    {
      ghost var s0 := Snapshot();
      ConnectedKeepsInv(s0, saved, w, now);
      if saved.Some? {
        originalWallpaper := saved;
      }
      AttachToSpotifyController(w.sessions, w, now);
    }

    /** The active-sessions listener: the debounced attach check. */
    method OnActiveSessionsChanged(controllers: Option<seq<Controller>>, now: int)
      requires Valid()
      modifies this
      ensures Snapshot() == Apply(old(Snapshot()), SessionsChangedEvent(controllers, now))
      ensures Valid()
    {
      ghost var s0 := Snapshot();
      SessionsChangedKeepsInv(s0, controllers, now);
      handler := Without(handler, AttachToken);
      handler := Enqueue(handler, Message(Some(AttachToken), now + AttachDelay, AttachAction(controllers)));
    }

    /** `onMetadataChanged` of the callback object `via`. */
    method OnMetadataChanged(via: Registration, md: Option<Metadata>, now: int)
      requires Valid()
      modifies this
      ensures Snapshot() == Apply(old(Snapshot()), MetadataChangedEvent(via, md, now))
      ensures Valid()
    {
      ghost var s0 := Snapshot();
      MetadataChangedKeepsInv(s0, md, now);
      if via !in registrations {
        return;
      }
      if md.Some? {
        ProcessMetadata(md.value, now);
      }
    }

    /** `onPlaybackStateChanged` of the callback object `via`. */
    method OnPlaybackStateChanged(via: Registration, state: Option<PlaybackState>, w: World, now: int)
      requires Valid()
      modifies this
      ensures Snapshot() == Apply(old(Snapshot()), PlaybackStateChangedEvent(via, state, w, now))
      ensures Valid()
    {
      ghost var s0 := Snapshot();
      PlaybackKeepsInv(s0, state, w, now);
      if via !in registrations || state.None? {
        return;
      }
      match state.value
      case Playing =>
        var md := LiveMetadata(w.live, activeController);
        if md.Some? {
          ProcessMetadata(md.value, now);
        }
      case Stopped =>
        if wallpaperChanged {
          ResetWallpaper(w.resetThrows);
        }
        lastSong := None;
      case NoState =>
        if wallpaperChanged {
          ResetWallpaper(w.resetThrows);
        }
        lastSong := None;
      case Paused =>
      case OtherState(_) =>
    }

    /** `onSessionDestroyed` of the callback object `via`. */
    method OnSessionDestroyed(via: Registration, throws: bool)
      requires Valid()
      modifies this
      ensures Snapshot() == Apply(old(Snapshot()), SessionDestroyedEvent(via, throws))
      ensures Valid()
    {
      ghost var s0 := Snapshot();
      SessionDestroyedKeepsInv(s0, throws);
      if via !in registrations {
        return;
      }
      if wallpaperChanged {
        ResetWallpaper(throws);
      }
      activeController := None;
      lastSong := None;
    }

    /** `setLockWallpaper`: start a write thread that captured `generation`. */
    method SetLockWallpaper(bitmap: Bitmap, generation: int)
      modifies this
      ensures Snapshot() == Machine.SetLockWallpaper(old(Snapshot()), bitmap, generation)
    {
      jobs := jobs + [WriteJob(bitmap, generation)];
    }

    /** `fetchArtAndSetWallpaper(generation, attempt)`. */
    method FetchArtAndSetWallpaper(generation: int, attempt: nat, w: World, now: int)
      modifies this
      ensures Snapshot() == Fetch(old(Snapshot()), generation, attempt, w, now)
    {
      if wallpaperGeneration != generation {
        return;
      }
      attempts := attempts + 1;
      var freshMetadata := LiveMetadata(w.live, activeController);
      if freshMetadata.None? {
        return;
      }
      var highResBitmap := GetHighResAlbumArt(w.notifications);
      if highResBitmap.Some? {
        SetLockWallpaper(highResBitmap.value, generation);
        return;
      }
      var bitmap := MetadataArt(freshMetadata.value);
      if bitmap.Some? {
        SetLockWallpaper(bitmap.value, generation);
      } else if attempt < MaxRetries {
        handler := Enqueue(handler, Message(None, now + RetryDelay, FetchAction(generation, attempt + 1)));
      }
    }

    /** The settle task `processMetadata` posts: skip when a newer song arrived, else fetch (attempt 0). */
    method SettleTask(myGeneration: int, w: World, now: int)
      modifies this
      ensures Snapshot() == Settle(old(Snapshot()), myGeneration, w, now)
    {
      if wallpaperGeneration != myGeneration {
        return;
      }
      FetchArtAndSetWallpaper(myGeneration, 0, w, now);
    }

    /** `onNotificationRemoved`. */
    method OnNotificationRemoved(packageName: string, throws: bool)
      requires Valid()
      modifies this
      ensures Snapshot() == Apply(old(Snapshot()), NotificationRemovedEvent(packageName, throws))
      ensures Valid()
    {
      ghost var s0 := Snapshot();
      NotificationRemovedKeepsInv(s0, packageName, throws);
      if packageName != SpotifyPackage {
        return;
      }
      if wallpaperChanged {
        ResetWallpaper(throws);
        lastSong := None;
      }
    }

    /** `onNotificationPosted`: the debounced re-attach check. */
    method OnNotificationPosted(packageName: string, now: int)
      requires Valid()
      modifies this
      ensures Snapshot() == Apply(old(Snapshot()), NotificationPostedEvent(packageName, now))
      ensures Valid()
    {
      ghost var s0 := Snapshot();
      NotificationPostedKeepsInv(s0, packageName, now);
      if packageName != SpotifyPackage {
        return;
      }
      handler := Without(handler, NotifyToken);
      handler := Enqueue(handler, Message(Some(NotifyToken), now + NotifyDelay, NotifyAction));
    }

    /** `onListenerDisconnected`: drop every message and unregister the callback. */
    method OnListenerDisconnected()
      requires Valid()
      modifies this
      ensures Snapshot() == Apply(old(Snapshot()), DisconnectedEvent)
      ensures Valid()
    {
      ghost var s0 := Snapshot();
      DisconnectedKeepsInv(s0);
      handler := Remove(handler, None);
      if activeController.Some? && mediaCallback.Some? {
        registrations := registrations - {Registration(activeController.value, mediaCallback.value)};
      }
    }

    /** The looper: run the head message of the queue once it is due. */
    method Step(now: int, w: World)
      requires Valid()
      modifies this
      ensures Snapshot() == Apply(old(Snapshot()), HandlerStep(now, w))
      ensures Valid()
    {
      ghost var s0 := Snapshot();
      StepKeepsInv(s0, now, w);
      if handler == [] || handler[0].due > now {
        return;
      }
      var m := handler[0];
      handler := handler[1..];
      match m.action
      case AttachAction(controllers) =>
        AttachToSpotifyController(controllers, w, now);
      case NotifyAction =>
        if activeController.None? {
          AttachToSpotifyController(w.sessions, w, now);
        }
      case SettleAction(g) =>
        SettleTask(g, w, now);
      case FetchAction(g, attempt) =>
        FetchArtAndSetWallpaper(g, attempt, w, now);
    }

    /**
     * The end of write thread `i`: compose at the display size, then write only when the
     * captured generation is still current; a write that returns a positive result sets
     * the flag.
     */
    method RunWriteJob(i: nat, screenWidth: nat, screenHeight: nat, outcome: WriteOutcome)
      requires Valid()
      modifies this
      ensures Snapshot() == Apply(old(Snapshot()), WriteDone(i, screenWidth, screenHeight, outcome))
      ensures Valid()
    {
      ghost var s0 := Snapshot();
      ApplyKeepsInv(s0, WriteDone(i, screenWidth, screenHeight, outcome));
      if i >= |jobs| {
        return;
      }
      var job := jobs[i];
      jobs := jobs[..i] + jobs[i + 1..];
      var finalBitmap := Compose(job.art, screenWidth, screenHeight);
      if finalBitmap.None? || wallpaperGeneration != job.generation || outcome.Threw? {
        return;
      }
      sinkLog := sinkLog + [SetLock(Composed(finalBitmap.value))];
      if outcome.result > 0 {
        wallpaperChanged := true;
      }
    }
  }
}
