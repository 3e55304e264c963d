/**
 * What the listener promises, stated on the transitions of module Machine: the
 * dedupe and generation rules, the gates that stop stale work, the attach rules,
 * the playback, destroy and notification rules, the wallpaper flag, the debounce
 * of bursts, the retry bound, and four end-to-end runs.
 */
module Properties {
  import opened Wrappers
  import opened Media
  import opened Sizes
  import opened MessageQueue
  import opened Artwork
  import opened Machine
  import opened Invariants

  // ---------------------------------------------------------------- dedupe and generation

  /** A metadata update changes nothing exactly when its key is the last song's. */
  lemma ProcessDedupe(s: State, md: Metadata, now: int)
    ensures Process(s, md, now) == s <==> s.lastSong == Some(TrackKey(md))
  {
    if s.lastSong != Some(TrackKey(md)) {
      assert Process(s, md, now).generation != s.generation;
    }
  }

  /**
   * A new key becomes the last song, bumps the generation by one, and leaves exactly
   * one pending message, the settle task of the new generation: every earlier message,
   * attach and notify checks included, is gone. Nothing else changes.
   */
  lemma NewTrackCancelsPending(s: State, md: Metadata, now: int)
    requires s.lastSong != Some(TrackKey(md))
    ensures Process(s, md, now) == s.(lastSong := Some(TrackKey(md)), generation := s.generation + 1, attempts := 0,
      pending := [Message(None, now + SettleDelay, SettleAction(s.generation + 1))])
  {
    var m := Message(None, now + SettleDelay, SettleAction(s.generation + 1));
    assert Remove(s.pending, None) == [];
    EnqueueIntoEmpty(m);
    var key := TrackKey(md);
    assert Process(s, md, now) == s.(lastSong := Some(key), generation := s.generation + 1, attempts := 0,
      pending := Enqueue([], m));
  }

  /** Two identical updates in a row start one resolution cycle. */
  lemma RepeatedTrackIsIdempotent(s: State, md: Metadata, now: int, later: int)
    ensures Process(Process(s, md, now), md, later) == Process(s, md, now)
  {
  }

  // ---------------------------------------------------------------- stale work

  /** The settle task of an older generation does nothing. */
  lemma StaleSettleDoesNothing(s: State, g: int, w: World, now: int)
    requires g != s.generation
    ensures Settle(s, g, w, now) == s
  {
  }

  /** A fetch attempt of an older generation does nothing: no fetch, no retry, no write. */
  lemma StaleFetchDoesNothing(s: State, g: int, attempt: nat, w: World, now: int)
    requires g != s.generation
    ensures Fetch(s, g, attempt, w, now) == s
  {
  }

  /** In a reachable state the settle and retry gates never fire: those messages die with their generation. */
  lemma PendingChainIsCurrent(s: State)
    requires Inv(s)
    ensures forall m :: m in s.pending && (m.action.SettleAction? || m.action.FetchAction?) ==>
      m.action.generation == s.generation
  {
    forall m | m in s.pending && (m.action.SettleAction? || m.action.FetchAction?)
      ensures m.action.generation == s.generation
    {
      assert ChainCurrent(m, s.generation, s.attempts);
    }
  }

  /** A write thread that captured an older generation composes, then discards: no call, no flag. */
  lemma StaleJobDiscarded(s: State, i: nat, screenWidth: nat, screenHeight: nat, outcome: WriteOutcome)
    requires i < |s.jobs| && s.jobs[i].generation != s.generation
    ensures WriteJobDone(s, i, screenWidth, screenHeight, outcome) ==
      s.(jobs := s.jobs[..i] + s.jobs[i + 1..])
  {
  }

  /** The generation never goes back, and an event moves it by at most one. */
  lemma ApplyGenerationMonotone(s: State, e: Event)
    ensures s.generation <= Apply(s, e).generation <= s.generation + 1
  {
    match e
    case HandlerStep(now, w) =>
      if s.pending != [] && s.pending[0].due <= now {
        var s1 := s.(pending := s.pending[1..]);
        match s.pending[0].action
        case AttachAction(cs) => AttachGeneration(s1, cs, w, now);
        case NotifyAction => AttachGeneration(s1, w.sessions, w, now);
        case SettleAction(g) =>
        case FetchAction(g, a) =>
      }
    case ConnectedEvent(saved, w, now) =>
      AttachGeneration(s.(originalWallpaper := if saved.Some? then saved else s.originalWallpaper), w.sessions, w, now);
    case _ =>
  }

  lemma AttachGeneration(s: State, cs: Option<seq<Controller>>, w: World, now: int)
    ensures s.generation <= Attach(s, cs, w, now).generation <= s.generation + 1
  {
  }

  /** Once a generation is out of date, it stays out of date whatever happens next. */
  lemma {:induction false} OnceStaleAlwaysStale(s: State, es: seq<Event>, g: int)
    requires g < s.generation
    ensures g < Run(s, es).generation
    decreases |es|
  {
    if es != [] {
      ApplyGenerationMonotone(s, es[0]);
      OnceStaleAlwaysStale(Apply(s, es[0]), es[1..], g);
    }
  }

  predicate IsComposedCall(c: SinkCall)
  {
    c.SetLock? && c.image.Composed?
  }

  /** `after` extends `before` with calls that are not composed wallpapers. */
  predicate RestoresOnly(before: seq<SinkCall>, after: seq<SinkCall>)
  {
    && |before| <= |after|
    && after[..|before|] == before
    && forall k :: |before| <= k < |after| ==> !IsComposedCall(after[k])
  }

  lemma ResetRestoresOnly(s: State, throws: bool)
    ensures RestoresOnly(s.sinkLog, Reset(s, throws).sinkLog)
  {
  }

  lemma AttachRestoresOnly(s: State, cs: Option<seq<Controller>>, w: World, now: int)
    ensures RestoresOnly(s.sinkLog, Attach(s, cs, w, now).sinkLog)
  {
    ResetRestoresOnly(Detach(s), w.resetThrows);
  }

  /**
   * The only event that can put a composed wallpaper on the lock screen is the end of
   * a write thread whose captured generation is the current one.
   */
  lemma ComposedWriteIsCurrent(s: State, e: Event)
    ensures RestoresOnly(s.sinkLog, Apply(s, e).sinkLog) ||
      (e.WriteDone? && e.job < |s.jobs| && s.jobs[e.job].generation == s.generation &&
       Apply(s, e).sinkLog == s.sinkLog + [SetLock(Composed(Compose(s.jobs[e.job].art, e.screenWidth, e.screenHeight).value))])
  {
    match e
    case HandlerStep(now, w) =>
      if s.pending != [] && s.pending[0].due <= now {
        var s1 := s.(pending := s.pending[1..]);
        match s.pending[0].action
        case AttachAction(cs) => AttachRestoresOnly(s1, cs, w, now);
        case NotifyAction => AttachRestoresOnly(s1, w.sessions, w, now);
        case SettleAction(g) => assert Step(s, now, w).sinkLog == s.sinkLog;
        case FetchAction(g, a) => assert Step(s, now, w).sinkLog == s.sinkLog;
      }
    case ConnectedEvent(saved, w, now) =>
      AttachRestoresOnly(s.(originalWallpaper := if saved.Some? then saved else s.originalWallpaper), w.sessions, w, now);
    case PlaybackStateChangedEvent(via, st, w, now) =>
      if via in s.registrations { ResetRestoresOnly(s, w.resetThrows); }
    case SessionDestroyedEvent(via, throws) =>
      if via in s.registrations { ResetRestoresOnly(s, throws); }
    case NotificationRemovedEvent(pkg, throws) =>
      ResetRestoresOnly(s, throws);
    case WriteDone(i, sw, sh, outcome) =>
    case _ =>
      assert Apply(s, e).sinkLog == s.sinkLog;
  }

  // ---------------------------------------------------------------- wallpaper flag

  lemma AttachNeverRaisesFlag(s: State, cs: Option<seq<Controller>>, w: World, now: int)
    ensures Attach(s, cs, w, now).wallpaperChanged ==> s.wallpaperChanged
  {
  }

  /**
   * The flag goes from false to true only when a write thread of the current generation
   * composes an image and `setBitmap` returns more than 0.
   */
  lemma FlagRisesOnlyOnPositiveWrite(s: State, e: Event)
    requires !s.wallpaperChanged && Apply(s, e).wallpaperChanged
    ensures e.WriteDone? && e.job < |s.jobs| && s.jobs[e.job].generation == s.generation
    ensures e.WriteDone? ==> Compose(s.jobs[e.job].art, e.screenWidth, e.screenHeight).Some?
    ensures e.WriteDone? ==> e.outcome.Returned? && e.outcome.result > 0
  {
    match e
    case HandlerStep(now, w) =>
      if s.pending != [] && s.pending[0].due <= now {
        var s1 := s.(pending := s.pending[1..]);
        match s.pending[0].action
        case AttachAction(cs) => AttachNeverRaisesFlag(s1, cs, w, now);
        case NotifyAction => AttachNeverRaisesFlag(s1, w.sessions, w, now);
        case SettleAction(g) => assert false;
        case FetchAction(g, a) => assert false;
      } else {
        assert false;
      }
    case ConnectedEvent(saved, w, now) =>
      AttachNeverRaisesFlag(s.(originalWallpaper := if saved.Some? then saved else s.originalWallpaper), w.sessions, w, now);
    case WriteDone(i, sw, sh, outcome) =>
    case _ =>
      assert false;
  }

  /** A current write that composes and returns a positive result sets the flag; a failed one leaves it. */
  lemma WriteResultDecidesFlag(s: State, i: nat, screenWidth: nat, screenHeight: nat, result: int)
    requires i < |s.jobs| && s.jobs[i].generation == s.generation
    requires screenWidth >= CanvasDivisor && screenHeight >= CanvasDivisor
    ensures WriteJobDone(s, i, screenWidth, screenHeight, Returned(result)).wallpaperChanged ==
      (result > 0 || s.wallpaperChanged)
    ensures |WriteJobDone(s, i, screenWidth, screenHeight, Returned(result)).sinkLog| == |s.sinkLog| + 1
  {
  }

  // ---------------------------------------------------------------- reset

  /**
   * A reset makes one call, restoring the original if one was saved and clearing the
   * lock screen otherwise, then clears the flag and the last song; when the call
   * throws, nothing changes.
   */
  lemma ResetRule(s: State, throws: bool)
    ensures throws ==> Reset(s, throws) == s
    ensures !throws ==>
      Reset(s, throws) == s.(sinkLog := s.sinkLog + [if s.originalWallpaper.Some? then SetLock(Original(s.originalWallpaper.value)) else ClearLock],
         wallpaperChanged := false, lastSong := None)
  {
  }

  // ---------------------------------------------------------------- attach

  /** Attaching first unregisters the callback of the controller it held (a new callback is always fresh). */
  lemma AttachUnregistersPrevious(s: State, cs: Option<seq<Controller>>, w: World, now: int)
    requires Inv(s) && s.activeController.Some? && s.mediaCallback.Some?
    ensures Registration(s.activeController.value, s.mediaCallback.value) !in Attach(s, cs, w, now).registrations
  {
  }

  /** With no Spotify controller, attach ends detached and resets only if the wallpaper was changed. */
  lemma AttachWithoutSpotify(s: State, cs: Option<seq<Controller>>, w: World, now: int)
    requires FindSpotify(cs).None?
    ensures var r := Attach(s, cs, w, now);
      && r.activeController.None?
      && r.registrations <= s.registrations
      && r.sinkLog == s.sinkLog + (if s.wallpaperChanged && !w.resetThrows then [RestoreCall(s.originalWallpaper)] else [])
      && r.wallpaperChanged == (s.wallpaperChanged && w.resetThrows)
      && r.lastSong == (if s.wallpaperChanged && !w.resetThrows then None else s.lastSong)
      && r.generation == s.generation && r.pending == s.pending
  {
  }

  /** A Spotify controller that is not playing is left alone: detached, no callback registered, no metadata read. */
  lemma AttachNotPlaying(s: State, cs: Option<seq<Controller>>, w: World, now: int)
    requires FindSpotify(cs).Some? && LiveOf(w.live, FindSpotify(cs).value).state != Some(Playing)
    ensures var r := Attach(s, cs, w, now);
      && r.activeController.None?
      && r.registrations <= s.registrations
      && r == Detach(s)
  {
  }

  /** A playing Spotify controller becomes the active one, gets a new registered callback, and its metadata is processed. */
  lemma AttachPlaying(s: State, cs: Option<seq<Controller>>, w: World, now: int)
    requires FindSpotify(cs).Some? && LiveOf(w.live, FindSpotify(cs).value).state == Some(Playing)
    ensures var r := Attach(s, cs, w, now); var c := FindSpotify(cs).value;
      && r.activeController == Some(c)
      && r.mediaCallback == Some(s.nextCallback)
      && Registration(c, s.nextCallback) in r.registrations
      && (LiveOf(w.live, c).metadata.None? ==> r.generation == s.generation && r.pending == s.pending)
      && (LiveOf(w.live, c).metadata.Some? && s.lastSong != Some(TrackKey(LiveOf(w.live, c).metadata.value)) ==>
            && r.lastSong == Some(TrackKey(LiveOf(w.live, c).metadata.value))
            && r.generation == s.generation + 1
            && r.pending == [Message(None, now + SettleDelay, SettleAction(s.generation + 1))])
      && (LiveOf(w.live, c).metadata.Some? && s.lastSong == Some(TrackKey(LiveOf(w.live, c).metadata.value)) ==>
            r.lastSong == s.lastSong && r.generation == s.generation && r.pending == s.pending)
  {
  }

  /** The notify check re-attaches to the current sessions exactly when no controller is active. */
  lemma NotifyOnlyWhenDetached(s: State, w: World, now: int)
    ensures s.activeController.Some? ==> RunAction(s, NotifyAction, w, now) == s
    ensures s.activeController.None? ==> RunAction(s, NotifyAction, w, now) == Attach(s, w.sessions, w, now)
  {
  }

  /**
   * A Spotify notification replaces any pending notify check with one due 500 ms later, and
   * keeps every other message; a notification from another package changes nothing.
   */
  lemma NotificationPostedDebounces(s: State, pkg: string, now: int)
    ensures var r := NotificationPosted(s, pkg, now);
      && (pkg != SpotifyPackage ==> r == s)
      && (pkg == SpotifyPackage ==>
            && r == s.(pending := r.pending)
            && CountToken(r.pending, Some(NotifyToken)) == 1
            && Message(Some(NotifyToken), now + NotifyDelay, NotifyAction) in r.pending
            && (forall x :: x in r.pending && x.token == Some(NotifyToken) ==>
                  x == Message(Some(NotifyToken), now + NotifyDelay, NotifyAction))
            && (forall x :: x in s.pending && x.token != Some(NotifyToken) ==> x in r.pending))
  {
    if pkg == SpotifyPackage {
      var q := NotificationPosted(s, pkg, now).pending;
      DebounceLeavesOne(s.pending, NotifyToken, now + NotifyDelay, NotifyAction);
      WithoutFacts(s.pending, NotifyToken);
      EnqueueFacts(Without(s.pending, NotifyToken), Message(Some(NotifyToken), now + NotifyDelay, NotifyAction));
    }
  }

  // ---------------------------------------------------------------- playback, destroy, removal

  /**
   * Paused (and every state the listener does not name) changes nothing. The `code` of
   * `OtherState` is unconstrained, so this also covers codes that happen to equal those of
   * the named states: the model tells states apart by constructor, not by code.
   */
  lemma PauseChangesNothing(s: State, w: World, now: int, code: int)
    ensures PlaybackStateChanged(s, Some(Paused), w, now) == s
    ensures PlaybackStateChanged(s, Some(OtherState(code)), w, now) == s
    ensures PlaybackStateChanged(s, None, w, now) == s
  {
  }

  /** Stopped and none reset only a changed wallpaper, exactly once, and always forget the song. */
  lemma StopRule(s: State, st: PlaybackState, w: World, now: int)
    requires st == Stopped || st == NoState
    ensures var r := PlaybackStateChanged(s, Some(st), w, now);
      && r.lastSong.None?
      && r.sinkLog == s.sinkLog + (if s.wallpaperChanged && !w.resetThrows then [RestoreCall(s.originalWallpaper)] else [])
      && (s.wallpaperChanged && !w.resetThrows ==> !r.wallpaperChanged)
      && r.generation == s.generation && r.pending == s.pending && r.activeController == s.activeController
      && r.registrations == s.registrations && r.nextCallback == s.nextCallback
  {
  }

  /** Playing re-reads the live metadata and processes it. */
  lemma PlayingReprocesses(s: State, w: World, now: int)
    requires LiveMetadata(w.live, s.activeController).Some?
    ensures var r := PlaybackStateChanged(s, Some(Playing), w, now);
      && r == Process(s, LiveMetadata(w.live, s.activeController).value, now)
      && r.registrations == s.registrations && r.nextCallback == s.nextCallback
  {
  }

  /** A destroyed session resets a changed wallpaper, then drops the controller and the song. */
  lemma DestroyRule(s: State, throws: bool)
    ensures var r := SessionDestroyed(s, throws);
      && r.activeController.None? && r.lastSong.None?
      && r.sinkLog == s.sinkLog + (if s.wallpaperChanged && !throws then [RestoreCall(s.originalWallpaper)] else [])
      && r.wallpaperChanged == (s.wallpaperChanged && throws)
      && r.pending == s.pending && r.generation == s.generation
      && r.registrations == s.registrations && r.nextCallback == s.nextCallback
  {
  }

  /**
   * A reset does not advance the generation. A write thread of the current track that ends
   * after `STOPPED` or a destroyed session still puts its composed image on the lock screen
   * and, on a positive result, raises the flag again.
   */
  lemma ResetLeavesCurrentWriteLive(s: State, w: World, now: int, throws: bool, i: nat,
                                    screenWidth: nat, screenHeight: nat, result: int)
    requires i < |s.jobs| && s.jobs[i].generation == s.generation
    requires screenWidth >= CanvasDivisor && screenHeight >= CanvasDivisor && result > 0
    ensures var p := PlaybackStateChanged(s, Some(Stopped), w, now);
      && i < |p.jobs|
      && WriteJobDone(p, i, screenWidth, screenHeight, Returned(result)).wallpaperChanged
      && WriteJobDone(p, i, screenWidth, screenHeight, Returned(result)).sinkLog ==
           p.sinkLog + [SetLock(Composed(Compose(s.jobs[i].art, screenWidth, screenHeight).value))]
    ensures var d := SessionDestroyed(s, throws);
      && i < |d.jobs|
      && WriteJobDone(d, i, screenWidth, screenHeight, Returned(result)).wallpaperChanged
      && WriteJobDone(d, i, screenWidth, screenHeight, Returned(result)).sinkLog ==
           d.sinkLog + [SetLock(Composed(Compose(s.jobs[i].art, screenWidth, screenHeight).value))]
  {
    ComposeFacts(s.jobs[i].art, screenWidth, screenHeight);
  }

  /** A removed Spotify notification resets and forgets the song only when the wallpaper was changed. */
  lemma RemovalRule(s: State, pkg: string, throws: bool)
    ensures var r := NotificationRemoved(s, pkg, throws);
      && (pkg != SpotifyPackage || !s.wallpaperChanged ==> r == s)
      && (pkg == SpotifyPackage && s.wallpaperChanged ==>
            && r.lastSong.None? && r.activeController == s.activeController
            && r.sinkLog == s.sinkLog + (if throws then [] else [RestoreCall(s.originalWallpaper)])
            && r.wallpaperChanged == throws
            && r.pending == s.pending && r.generation == s.generation && r.registrations == s.registrations)
  {
  }

  // ---------------------------------------------------------------- debounce

  /** A burst of session-list events, one after another. */
  function SessionsBurst(s: State, events: seq<(Option<seq<Controller>>, int)>): State
    decreases |events|
  {
    if events == [] then s
    else
      var last := events[|events| - 1];
      SessionsChanged(SessionsBurst(s, events[..|events| - 1]), last.0, last.1)
  }

  /** The attach posts of a burst, in order. */
  function AttachPosts(events: seq<(Option<seq<Controller>>, int)>): seq<(int, Action)>
    decreases |events|
  {
    if events == [] then []
    else
      var last := events[|events| - 1];
      AttachPosts(events[..|events| - 1]) + [(last.1 + AttachDelay, AttachAction(last.0))]
  }

  lemma AttachPostsSplit(events: seq<(Option<seq<Controller>>, int)>)
    requires events != []
    ensures var posts := AttachPosts(events); var last := events[|events| - 1];
      && |posts| == |events|
      && posts[..|posts| - 1] == AttachPosts(events[..|events| - 1])
      && posts[|posts| - 1] == (last.1 + AttachDelay, AttachAction(last.0))
  {
    var init := events[..|events| - 1];
    var last := events[|events| - 1];
    AttachPostsLength(init);
    var p := AttachPosts(init);
    assert AttachPosts(events) == p + [(last.1 + AttachDelay, AttachAction(last.0))];
  }

  lemma {:induction false} AttachPostsLength(events: seq<(Option<seq<Controller>>, int)>)
    ensures |AttachPosts(events)| == |events|
    decreases |events|
  {
    if events != [] {
      AttachPostsLength(events[..|events| - 1]);
    }
  }

  lemma {:induction false} SessionsBurstIsBurst(s: State, events: seq<(Option<seq<Controller>>, int)>)
    ensures SessionsBurst(s, events).pending == Burst(s.pending, AttachToken, AttachPosts(events))
    decreases |events|
  {
    if events != [] {
      var init := events[..|events| - 1];
      var last := events[|events| - 1];
      calc {
        SessionsBurst(s, events).pending;
        Debounce(SessionsBurst(s, init).pending, AttachToken, last.1 + AttachDelay, AttachAction(last.0));
        { SessionsBurstIsBurst(s, init); }
        Debounce(Burst(s.pending, AttachToken, AttachPosts(init)), AttachToken, last.1 + AttachDelay, AttachAction(last.0));
        { AttachPostsSplit(events); }
        Burst(s.pending, AttachToken, AttachPosts(events));
      }
    }
  }

  /** However many session-list events come in a burst, one attach check is pending: the last event's. */
  lemma SessionsBurstAttachesOnce(s: State, events: seq<(Option<seq<Controller>>, int)>)
    requires |events| > 0
    ensures var r := SessionsBurst(s, events); var last := events[|events| - 1];
      && CountToken(r.pending, Some(AttachToken)) == 1
      && Message(Some(AttachToken), last.1 + AttachDelay, AttachAction(last.0)) in r.pending
      && (forall m :: m in r.pending && m.action.AttachAction? && WellTokened(m) ==>
            m == Message(Some(AttachToken), last.1 + AttachDelay, AttachAction(last.0)))
  {
    SessionsBurstIsBurst(s, events);
    BurstKeepsLast(s.pending, AttachToken, AttachPosts(events));
  }

  // ---------------------------------------------------------------- artwork and attempts

  /**
   * A current attempt whose live metadata is present writes the first available source
   * in the fixed order (notification icon, notification picture, ALBUM_ART, ART) and
   * posts no retry; only when no source has art does it post a retry, and then only
   * while the attempt number is below 5.
   */
  lemma FetchUsesFirstSource(s: State, a: nat, w: World, now: int)
    requires LiveMetadata(w.live, s.activeController).Some?
    ensures var md := LiveMetadata(w.live, s.activeController).value;
      var art := FirstSome(Candidates(w.notifications, md));
      Fetch(s, s.generation, a, w, now) ==
        if art.Some? then s.(attempts := s.attempts + 1, jobs := s.jobs + [WriteJob(art.value, s.generation)])
        else if a < MaxRetries then
          s.(attempts := s.attempts + 1,
             pending := Enqueue(s.pending, Message(None, now + RetryDelay, FetchAction(s.generation, a + 1))))
        else s.(attempts := s.attempts + 1)
  {
    ResolveArtIsFirstCandidate(w.notifications, LiveMetadata(w.live, s.activeController).value);
  }

  /** Without live metadata an attempt counts itself and stops: no write, no retry. */
  lemma NoMetadataStops(s: State, a: nat, w: World, now: int)
    requires LiveMetadata(w.live, s.activeController).None?
    ensures Fetch(s, s.generation, a, w, now) == s.(attempts := s.attempts + 1)
  {
  }

  /** In every state reachable from the start, the current generation has made at most six attempts. */
  lemma ReachableAttemptsBounded(es: seq<Event>)
    ensures Run(Initial(), es).attempts <= MaxAttempts
  {
    InitialInv();
    RunKeepsInv(Initial(), es);
  }

  // ---------------------------------------------------------------- retry bound

  /** The active controller has metadata, but neither notifications nor metadata hold any art. */
  predicate ArtNeverAvailable(s: State, w: World)
  {
    var md := LiveMetadata(w.live, s.activeController);
    md.Some? && MetadataArt(md.value).None? && HighResArt(w.notifications).None?
  }

  /** The attempt number a pending chain message stands for. */
  function ChainAttempt(m: Msg): nat
  {
    if m.action.FetchAction? then m.action.attempt else 0
  }

  /** Only a settle-or-retry message of the current generation is pending, and it matches the attempt count. */
  predicate LoneChain(s: State)
  {
    && |s.pending| == 1
    && (s.pending[0].action.SettleAction? || s.pending[0].action.FetchAction?)
    && s.pending[0].action.generation == s.generation
    && s.attempts == ChainAttempt(s.pending[0]) <= MaxRetries
  }

  /** In a reachable state, a lone message without a token is a chain message of the current generation. */
  lemma ChainHead(s: State)
    requires Inv(s) && |s.pending| == 1 && s.pending[0].token.None?
    ensures LoneChain(s)
  {
    var m := s.pending[0];
    assert m in s.pending;
    assert WellTokened(m) && ChainCurrent(m, s.generation, s.attempts);
  }

  /** A fetch attempt of the current generation without art counts itself and, unless it was the last, posts a retry. */
  lemma FetchWithoutArt(s: State, a: nat, w: World, now: int)
    requires ArtNeverAvailable(s, w)
    ensures Fetch(s, s.generation, a, w, now) == s.(attempts := s.attempts + 1,
      pending := if a < MaxRetries then Enqueue(s.pending, Message(None, now + RetryDelay, FetchAction(s.generation, a + 1))) else s.pending)
  {
  }

  lemma StepSingle(s: State, w: World)
    requires |s.pending| == 1
    ensures Step(s, s.pending[0].due, w) == RunAction(s.(pending := []), s.pending[0].action, w, s.pending[0].due)
  {
    assert s.pending[1..] == [];
  }

  lemma RunChainAction(s: State, action: Action, w: World, now: int)
    requires (action.SettleAction? || action.FetchAction?) && action.generation == s.generation
    ensures RunAction(s, action, w, now) ==
      Fetch(s, s.generation, if action.FetchAction? then action.attempt else 0, w, now)
  {
  }

  lemma EnqueueIntoEmpty<A(!new)>(m: Message<A>)
    ensures Enqueue([], m) == [m]
  {
  }

  /** Running a lone chain message is the fetch attempt it stands for. */
  lemma ChainStepIsFetch(s: State, w: World)
    requires |s.pending| == 1
    requires s.pending[0].action.SettleAction? || s.pending[0].action.FetchAction?
    requires s.pending[0].action.generation == s.generation
    ensures Step(s, s.pending[0].due, w) ==
      Fetch(s.(pending := []), s.generation, ChainAttempt(s.pending[0]), w, s.pending[0].due)
  {
    StepSingle(s, w);
    RunChainAction(s.(pending := []), s.pending[0].action, w, s.pending[0].due);
  }

  /** A fetch attempt on an empty queue without art: counted, and a retry is the only message unless it was the last. */
  lemma FetchWithoutArtOnEmpty(s: State, w: World, a: nat, due: int)
    requires ArtNeverAvailable(s, w)
    ensures Fetch(s.(pending := []), s.generation, a, w, due) == s.(attempts := s.attempts + 1,
      pending := if a < MaxRetries then [Message(None, due + RetryDelay, FetchAction(s.generation, a + 1))] else [])
  {
    FetchWithoutArt(s.(pending := []), a, w, due);
    EnqueueIntoEmpty(Message(None, due + RetryDelay, FetchAction(s.generation, a + 1)));
  }

  /** One chain step without art: the attempt is counted, and a retry follows unless it was the last. */
  lemma ChainStepWithoutArt(s: State, w: World)
    requires ArtNeverAvailable(s, w) && |s.pending| == 1
    requires s.pending[0].action.SettleAction? || s.pending[0].action.FetchAction?
    requires s.pending[0].action.generation == s.generation
    ensures var m := s.pending[0]; var a := ChainAttempt(m);
      Step(s, m.due, w) == s.(attempts := s.attempts + 1,
        pending := if a < MaxRetries then [Message(None, m.due + RetryDelay, FetchAction(s.generation, a + 1))] else [])
  {
    ChainStepIsFetch(s, w);
    FetchWithoutArtOnEmpty(s, w, ChainAttempt(s.pending[0]), s.pending[0].due);
  }

  /** The state one starved chain step leaves: the attempt counted, and a retry pending unless it was the last. */
  function AfterChainStep(s: State): State
    requires |s.pending| == 1
  {
    var m := s.pending[0];
    var a := ChainAttempt(m);
    s.(attempts := s.attempts + 1,
       pending := if a < MaxRetries then [Message(None, m.due + RetryDelay, FetchAction(s.generation, a + 1))] else [])
  }

  /** A lone chain message is pending and no art will be found for it. */
  predicate Starved(s: State, w: World)
  {
    LoneChain(s) && ArtNeverAvailable(s, w)
  }

  /** The state a run-out chain leaves: no message, every attempt used, nothing else changed. */
  function Exhausted(s: State): State
  {
    s.(pending := [], attempts := MaxAttempts)
  }

  /** The states a lone chain goes through, `n` handler steps on, while it lasts. */
  function ChainRun(s: State, n: nat): State
    decreases n
  {
    if n == 0 then s
    else
      var p := ChainRun(s, n - 1);
      if |p.pending| == 1 then AfterChainStep(p) else p
  }

  /** Before the attempts run out, every state of a starved chain is starved itself. */
  lemma {:induction false} ChainRunStarved(s: State, w: World, i: nat)
    requires Starved(s, w) && i < MaxAttempts - s.attempts
    ensures Starved(ChainRun(s, i), w)
    ensures ChainRun(s, i).attempts == s.attempts + i
    ensures Exhausted(ChainRun(s, i)) == Exhausted(s)
    decreases i
  {
    if i > 0 {
      ChainRunStarved(s, w, i - 1);
      var p := ChainRun(s, i - 1);
      assert ChainRun(s, i) == AfterChainStep(p);
    }
  }

  /**
   * Left alone with art that never shows up, a settle-or-retry chain is stepped by the
   * handler through ChainRun until the current generation has made MaxAttempts fetch
   * attempts; then nothing is pending and nothing else has changed: no write thread,
   * no lock-screen call.
   */
  lemma RetriesRunOut(s: State, w: World)
    requires Starved(s, w)
    ensures forall i :: 0 <= i < MaxAttempts - s.attempts ==>
      ChainRun(s, i).pending != [] &&
      Step(ChainRun(s, i), ChainRun(s, i).pending[0].due, w) == ChainRun(s, i + 1)
    ensures ChainRun(s, MaxAttempts - s.attempts) == Exhausted(s)
  {
    forall i | 0 <= i < MaxAttempts - s.attempts
      ensures ChainRun(s, i).pending != [] &&
        Step(ChainRun(s, i), ChainRun(s, i).pending[0].due, w) == ChainRun(s, i + 1)
    {
      ChainRunStarved(s, w, i);
      StarvedStep(ChainRun(s, i), w);
      ChainRunNext(s, i);
    }
    var last := MaxAttempts - s.attempts - 1;
    ChainRunStarved(s, w, last);
    ChainRunNext(s, last);
  }

  /** A starved state takes one chain step. */
  lemma StarvedStep(p: State, w: World)
    requires Starved(p, w)
    ensures p.pending != [] && Step(p, p.pending[0].due, w) == AfterChainStep(p)
  {
    ChainStepWithoutArt(p, w);
  }

  lemma ChainRunNext(s: State, i: nat)
    requires |ChainRun(s, i).pending| == 1
    ensures ChainRun(s, i + 1) == AfterChainStep(ChainRun(s, i))
  {
  }

  /** A reachable state whose only pending message has no token is such a chain. */
  lemma RetriesRunOutWhenReachable(s: State, w: World)
    requires Inv(s) && ArtNeverAvailable(s, w)
    requires |s.pending| == 1 && s.pending[0].token.None?
    ensures forall i :: 0 <= i < MaxAttempts - s.attempts ==>
      ChainRun(s, i).pending != [] &&
      Step(ChainRun(s, i), ChainRun(s, i).pending[0].due, w) == ChainRun(s, i + 1)
    ensures ChainRun(s, MaxAttempts - s.attempts) == Exhausted(s)
  {
    ChainHead(s);
    RetriesRunOut(s, w);
  }

  /** A new track whose art never shows up gets exactly MaxAttempts handler steps of fetching, and no write. */
  lemma NewTrackWithoutArt(s: State, md: Metadata, now: int, w: World)
    requires s.lastSong != Some(TrackKey(md))
    requires ArtNeverAvailable(s, w)
    ensures var p := Process(s, md, now); var r := ChainRun(p, MaxAttempts);
      && (forall i :: 0 <= i < MaxAttempts ==>
            ChainRun(p, i).pending != [] &&
            Step(ChainRun(p, i), ChainRun(p, i).pending[0].due, w) == ChainRun(p, i + 1))
      && r.attempts == MaxAttempts && r.pending == []
      && r.jobs == s.jobs && r.sinkLog == s.sinkLog && r.wallpaperChanged == s.wallpaperChanged
      && r.generation == s.generation + 1 && r.lastSong == Some(TrackKey(md))
  {
    NewTrackStarved(s, md, now, w);
    RetriesRunOut(Process(s, md, now), w);
  }

  /** A new track without art is tried first 600 ms after it arrives, then every 500 ms. */
  lemma NewTrackRetryTimes(s: State, md: Metadata, now: int, w: World)
    requires s.lastSong != Some(TrackKey(md))
    requires ArtNeverAvailable(s, w)
    ensures var p := Process(s, md, now);
      forall i :: 0 <= i < MaxAttempts ==>
        ChainRun(p, i).pending != [] && ChainRun(p, i).pending[0].due == now + SettleDelay + i * RetryDelay
  {
    NewTrackStarved(s, md, now, w);
    NewTrackCancelsPending(s, md, now);
    var p := Process(s, md, now);
    forall i | 0 <= i < MaxAttempts
      ensures ChainRun(p, i).pending != [] && ChainRun(p, i).pending[0].due == now + SettleDelay + i * RetryDelay
    {
      ChainRunDue(p, w, i);
    }
  }

  /** Each step of a starved chain moves its message 500 ms later. */
  lemma {:induction false} ChainRunDue(s: State, w: World, i: nat)
    requires Starved(s, w) && i < MaxAttempts - s.attempts
    ensures ChainRun(s, i).pending != [] && ChainRun(s, i).pending[0].due == s.pending[0].due + i * RetryDelay
    decreases i
  {
    ChainRunStarved(s, w, i);
    if i > 0 {
      ChainRunDue(s, w, i - 1);
      ChainRunStarved(s, w, i - 1);
      ChainRunNext(s, i - 1);
    }
  }

  /** A new track without art starts a starved chain at attempt 0. */
  lemma NewTrackStarved(s: State, md: Metadata, now: int, w: World)
    requires s.lastSong != Some(TrackKey(md))
    requires ArtNeverAvailable(s, w)
    ensures Starved(Process(s, md, now), w) && Process(s, md, now).attempts == 0
    ensures Exhausted(Process(s, md, now)) ==
      s.(lastSong := Some(TrackKey(md)), generation := s.generation + 1, attempts := MaxAttempts, pending := [])
  {
    NewTrackCancelsPending(s, md, now);
    var p := Process(s, md, now);
    assert p.activeController == s.activeController;
  }


  // ---------------------------------------------------------------- end-to-end runs

  /**
   * A new song whose metadata carries album art: after the settle delay the first
   * attempt starts one write thread, and when that thread's write returns a positive
   * result on a display of at least 2x2, the lock screen gets one composed image and
   * the flag is set.
   */
  lemma ScenarioFirstAttemptWrites(s: State, md: Metadata, art: Bitmap, now: int, w: World,
                                   screenWidth: nat, screenHeight: nat)
    requires s.lastSong != Some(TrackKey(md)) && s.activeController.Some?
    requires LiveMetadata(w.live, s.activeController) == Some(md) && md.albumArt == Some(art)
    requires w.notifications.None?
    requires screenWidth >= CanvasDivisor && screenHeight >= CanvasDivisor
    ensures var r1 := Process(s, md, now);
      var r2 := Step(r1, now + SettleDelay, w);
      && r2.jobs == s.jobs + [WriteJob(art, s.generation + 1)]
      && var r3 := WriteJobDone(r2, |s.jobs|, screenWidth, screenHeight, Returned(1));
      && r3.sinkLog == s.sinkLog + [SetLock(Composed(Compose(art, screenWidth, screenHeight).value))]
      && r3.wallpaperChanged
      && r3.jobs == s.jobs
  {
    NewTrackCancelsPending(s, md, now);
    var r1 := Process(s, md, now);
    var r2 := Step(r1, now + SettleDelay, w);
    assert r1.pending[1..] == [];
    assert r2 == SetLockWallpaper(r1.(pending := [], attempts := 1), art, s.generation + 1);
    var jobs := s.jobs + [WriteJob(art, s.generation + 1)];
    assert jobs[..|s.jobs|] + jobs[|s.jobs| + 1..] == s.jobs;
  }

  /** Song B arriving before song A's settle delay ends leaves only B's settle task: A never fetches or writes. */
  lemma ScenarioSupersededBeforeSettle(s: State, a: Metadata, b: Metadata, t1: int, t2: int)
    requires s.lastSong != Some(TrackKey(a)) && TrackKey(a) != TrackKey(b)
    ensures var r := Process(Process(s, a, t1), b, t2);
      && r.generation == s.generation + 2
      && r.pending == [Message(None, t2 + SettleDelay, SettleAction(s.generation + 2))]
      && r.jobs == s.jobs
  {
    NewTrackCancelsPending(s, a, t1);
    NewTrackCancelsPending(Process(s, a, t1), b, t2);
  }

  /**
   * Paused, then Playing again with the same track: the pause does nothing and the
   * replay is taken for a repeat, because a pause does not forget the last song.
   */
  lemma ScenarioPauseThenPlaySameTrack(s: State, md: Metadata, w: World, now: int, later: int)
    requires s.lastSong == Some(TrackKey(md))
    requires LiveMetadata(w.live, s.activeController) == Some(md)
    ensures PlaybackStateChanged(PlaybackStateChanged(s, Some(Paused), w, now), Some(Playing), w, later) == s
  {
  }

  /** A destroyed session with a changed wallpaper and a saved original: one write of the original, flag cleared. */
  lemma ScenarioDestroyedRestoresOriginal(s: State, original: Bitmap)
    requires s.wallpaperChanged && s.originalWallpaper == Some(original)
    ensures var r := SessionDestroyed(s, false);
      && r.sinkLog == s.sinkLog + [SetLock(Original(original))]
      && !r.wallpaperChanged && r.activeController.None? && r.lastSong.None?
  {
  }
}
