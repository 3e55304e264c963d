/**
 * The invariant of every reachable listener state, and its preservation by every
 * event. It says the handler queue is in due order; each message carries the token
 * of its kind; at most one attach check, one notify check and one settle-or-retry
 * message are pending; a pending settle or retry always belongs to the CURRENT
 * generation (every new generation empties the queue first) and agrees with the
 * count of fetch attempts, which never exceeds MaxAttempts.
 */
module Invariants {
  import opened Wrappers
  import opened Media
  import opened MessageQueue
  import opened Artwork
  import opened Machine

  predicate WellTokened(m: Msg)
  {
    match m.action
    case AttachAction(_) => m.token == Some(AttachToken)
    case NotifyAction => m.token == Some(NotifyToken)
    case SettleAction(_) => m.token.None?
    case FetchAction(_, _) => m.token.None?
  }

  /** A pending settle or retry belongs to the current generation and matches the attempt count. */
  predicate ChainCurrent(m: Msg, generation: int, attempts: nat)
  {
    match m.action
    case SettleAction(g) => g == generation && attempts == 0
    case FetchAction(g, a) => g == generation && a == attempts && 1 <= a <= MaxRetries
    case _ => true
  }

  predicate Inv(s: State)
  {
    && QueueInv(s.pending, s.generation, s.attempts)
    && s.attempts <= MaxAttempts
    && CallbacksInv(s.mediaCallback, s.registrations, s.nextCallback)
  }

  /** Callback numbers below `nextCallback` are taken; the next one is fresh. */
  predicate CallbacksInv(mediaCallback: Option<nat>, registrations: set<Registration>, nextCallback: nat)
  {
    && (mediaCallback.Some? ==> mediaCallback.value < nextCallback)
    && (forall r :: r in registrations ==> r.callback < nextCallback)
  }

  /** The queue part of Inv, for the given generation and attempt count. */
  predicate QueueInv(q: seq<Msg>, generation: int, attempts: nat)
  {
    && Sorted(q)
    && (forall m :: m in q ==> WellTokened(m) && ChainCurrent(m, generation, attempts))
    && CountToken(q, None) <= 1
    && CountToken(q, Some(AttachToken)) <= 1
    && CountToken(q, Some(NotifyToken)) <= 1
  }

  lemma InitialInv()
    ensures Inv(Initial())
  {
  }

  /** Dropping the head keeps the queue part, and a chain message at the head leaves no other behind. */
  lemma DequeueKeepsQueueInv(q: seq<Msg>, generation: int, attempts: nat)
    requires q != [] && QueueInv(q, generation, attempts)
    ensures QueueInv(q[1..], generation, attempts)
    ensures q[0].token.None? ==> CountToken(q[1..], None) == 0
  {
    forall m | m in q[1..] ensures m in q {
    }
  }

  lemma DebounceKeepsQueueInv(q: seq<Msg>, generation: int, attempts: nat, t: string, due: int, action: Action)
    requires QueueInv(q, generation, attempts)
    requires WellTokened(Message(Some(t), due, action)) && ChainCurrent(Message(Some(t), due, action), generation, attempts)
    ensures QueueInv(Debounce(q, t, due, action), generation, attempts)
  {
    DebounceLeavesOne(q, t, due, action);
    WithoutFacts(q, t);
    EnqueueFacts(Without(q, t), Message(Some(t), due, action));
  }

  lemma ResetKeepsInv(s: State, throws: bool)
    requires Inv(s)
    ensures Inv(Reset(s, throws))
  {
  }

  lemma ProcessKeepsInv(s: State, md: Metadata, now: int)
    requires Inv(s)
    ensures Inv(Process(s, md, now))
  {
    var g := s.generation + 1;
    var m := Message(None, now + SettleDelay, SettleAction(g));
    assert Enqueue(Remove(s.pending, None), m) == [m];
  }

  lemma DetachKeepsInv(s: State)
    requires Inv(s)
    ensures Inv(Detach(s))
  {
    var d := Detach(s);
    assert d.pending == s.pending && d.generation == s.generation && d.attempts == s.attempts;
    assert d.nextCallback == s.nextCallback && d.mediaCallback == s.mediaCallback && d.registrations <= s.registrations;
  }

  lemma AttachKeepsInv(s: State, controllers: Option<seq<Controller>>, w: World, now: int)
    requires Inv(s)
    ensures Inv(Attach(s, controllers, w, now))
  {
    var d := Detach(s);
    DetachKeepsInv(s);
    var spotify := FindSpotify(controllers);
    if spotify.None? {
      ResetKeepsInv(d, w.resetThrows);
      assert Attach(s, controllers, w, now) == if d.wallpaperChanged then Reset(d, w.resetThrows) else d;
    } else {
      var live := LiveOf(w.live, spotify.value);
      if live.state != Some(Playing) {
        assert Attach(s, controllers, w, now) == d;
      } else {
        var cb := d.nextCallback;
        var a := d.(activeController := spotify, mediaCallback := Some(cb), nextCallback := cb + 1,
                    registrations := d.registrations + {Registration(spotify.value, cb)});
        assert CallbacksInv(a.mediaCallback, a.registrations, a.nextCallback);
        assert a.pending == d.pending && a.generation == d.generation && a.attempts == d.attempts;
        assert Inv(a);
        if live.metadata.Some? {
          ProcessKeepsInv(a, live.metadata.value, now);
          assert Attach(s, controllers, w, now) == Process(a, live.metadata.value, now);
        } else {
          assert Attach(s, controllers, w, now) == a;
        }
      }
    }
  }

  /** With no settle or retry pending, the attempt count does not constrain the queue. */
  lemma NoChainQueueInv(q: seq<Msg>, generation: int, attempts: nat, attempts': nat)
    requires QueueInv(q, generation, attempts) && CountToken(q, None) == 0
    ensures QueueInv(q, generation, attempts')
  {
    CountTokenZero(q, None);
  }

  lemma EnqueueChainKeepsQueueInv(q: seq<Msg>, generation: int, attempts: nat, m: Msg)
    requires QueueInv(q, generation, attempts) && CountToken(q, None) == 0
    requires m.token.None? && WellTokened(m) && ChainCurrent(m, generation, attempts)
    ensures QueueInv(Enqueue(q, m), generation, attempts)
  {
    EnqueueFacts(q, m);
    CountTokenEnqueue(q, m, None);
    CountTokenEnqueue(q, m, Some(AttachToken));
    CountTokenEnqueue(q, m, Some(NotifyToken));
  }

  /** What a current-generation fetch changes: one more attempt, perhaps a write job, perhaps one retry. */
  lemma FetchFields(s: State, g: int, attempt: nat, w: World, now: int) returns (r: State)
    requires g == s.generation
    ensures r == Fetch(s, g, attempt, w, now)
    ensures r.generation == s.generation && r.attempts == s.attempts + 1
    ensures r.mediaCallback == s.mediaCallback && r.registrations == s.registrations && r.nextCallback == s.nextCallback
    ensures r.pending == s.pending ||
      (attempt < MaxRetries && r.pending == Enqueue(s.pending, Message(None, now + RetryDelay, FetchAction(g, attempt + 1))))
  {
    r := Fetch(s, g, attempt, w, now);
  }

  /** A fetch that passes the gate runs with no other chain message pending and the matching attempt count. */
  lemma FetchKeepsInv(s: State, g: int, attempt: nat, w: World, now: int)
    requires Inv(s)
    requires CountToken(s.pending, None) == 0
    requires g == s.generation ==> attempt == s.attempts && attempt <= MaxRetries
    ensures Inv(Fetch(s, g, attempt, w, now))
  {
    if g == s.generation {
      var r := FetchFields(s, g, attempt, w, now);
      NoChainQueueInv(s.pending, s.generation, s.attempts, attempt + 1);
      if r.pending != s.pending {
        var m := Message(None, now + RetryDelay, FetchAction(g, attempt + 1));
        EnqueueChainKeepsQueueInv(s.pending, g, attempt + 1, m);
      }
      assert CallbacksInv(r.mediaCallback, r.registrations, r.nextCallback);
      assert QueueInv(r.pending, r.generation, r.attempts);
    }
  }

  lemma StepKeepsInv(s: State, now: int, w: World)
    requires Inv(s)
    ensures Inv(Step(s, now, w))
  {
    if s.pending != [] && s.pending[0].due <= now {
      var m := s.pending[0];
      DequeueKeepsQueueInv(s.pending, s.generation, s.attempts);
      var s1 := s.(pending := s.pending[1..]);
      assert Inv(s1);
      assert m in s.pending;
      match m.action
      case AttachAction(cs) =>
        AttachKeepsInv(s1, cs, w, now);
      case NotifyAction =>
        AttachKeepsInv(s1, w.sessions, w, now);
      case SettleAction(g) =>
        FetchKeepsInv(s1, g, 0, w, now);
      case FetchAction(g, attempt) =>
        FetchKeepsInv(s1, g, attempt, w, now);
    }
  }

  lemma DebouncedEventKeepsInv(s: State, t: string, due: int, action: Action)
    requires Inv(s)
    requires WellTokened(Message(Some(t), due, action)) && ChainCurrent(Message(Some(t), due, action), s.generation, s.attempts)
    ensures Inv(s.(pending := Debounce(s.pending, t, due, action)))
  {
    DebounceKeepsQueueInv(s.pending, s.generation, s.attempts, t, due, action);
  }

  lemma PlaybackKeepsInv(s: State, st: Option<PlaybackState>, w: World, now: int)
    requires Inv(s)
    ensures Inv(PlaybackStateChanged(s, st, w, now))
  {
    var md := LiveMetadata(w.live, s.activeController);
    if md.Some? { ProcessKeepsInv(s, md.value, now); }
  }

  lemma WriteJobDoneKeepsInv(s: State, i: nat, sw: nat, sh: nat, outcome: WriteOutcome)
    requires Inv(s) && i < |s.jobs|
    ensures Inv(WriteJobDone(s, i, sw, sh, outcome))
  {
  }

  lemma ConnectedKeepsInv(s: State, saved: Option<Bitmap>, w: World, now: int)
    requires Inv(s)
    ensures Inv(Connected(s, saved, w, now))
  {
    var withOriginal := s.(originalWallpaper := if saved.Some? then saved else s.originalWallpaper);
    assert Inv(withOriginal);
    AttachKeepsInv(withOriginal, w.sessions, w, now);
  }

  lemma DisconnectedKeepsInv(s: State)
    requires Inv(s)
    ensures Inv(Disconnected(s))
  {
    var d := Disconnected(s);
    assert d.registrations <= s.registrations;
    assert d.nextCallback == s.nextCallback && d.mediaCallback == s.mediaCallback;
    assert d.pending == [] && d.attempts == s.attempts;
  }

  lemma SessionsChangedKeepsInv(s: State, cs: Option<seq<Controller>>, now: int)
    requires Inv(s)
    ensures Inv(SessionsChanged(s, cs, now))
  {
    DebouncedEventKeepsInv(s, AttachToken, now + AttachDelay, AttachAction(cs));
  }

  lemma MetadataChangedKeepsInv(s: State, md: Option<Metadata>, now: int)
    requires Inv(s)
    ensures Inv(MetadataChanged(s, md, now))
  {
    if md.Some? { ProcessKeepsInv(s, md.value, now); }
  }

  lemma SessionDestroyedKeepsInv(s: State, throws: bool)
    requires Inv(s)
    ensures Inv(SessionDestroyed(s, throws))
  {
    ResetKeepsInv(s, throws);
  }

  lemma NotificationPostedKeepsInv(s: State, pkg: string, now: int)
    requires Inv(s)
    ensures Inv(NotificationPosted(s, pkg, now))
  {
    if pkg == SpotifyPackage {
      DebouncedEventKeepsInv(s, NotifyToken, now + NotifyDelay, NotifyAction);
    }
  }

  lemma NotificationRemovedKeepsInv(s: State, pkg: string, throws: bool)
    requires Inv(s)
    ensures Inv(NotificationRemoved(s, pkg, throws))
  {
    ResetKeepsInv(s, throws);
  }

  /** Every event keeps the invariant. */
  lemma ApplyKeepsInv(s: State, e: Event)
    requires Inv(s)
    ensures Inv(Apply(s, e))
  {
    match e
    case ConnectedEvent(saved, w, now) => ConnectedKeepsInv(s, saved, w, now);
    case DisconnectedEvent => DisconnectedKeepsInv(s);
    case SessionsChangedEvent(cs, now) => SessionsChangedKeepsInv(s, cs, now);
    case MetadataChangedEvent(via, md, now) => MetadataChangedKeepsInv(s, md, now);
    case PlaybackStateChangedEvent(via, st, w, now) => PlaybackKeepsInv(s, st, w, now);
    case SessionDestroyedEvent(via, throws) => SessionDestroyedKeepsInv(s, throws);
    case NotificationPostedEvent(pkg, now) => NotificationPostedKeepsInv(s, pkg, now);
    case NotificationRemovedEvent(pkg, throws) => NotificationRemovedKeepsInv(s, pkg, throws);
    case HandlerStep(now, w) => StepKeepsInv(s, now, w);
    case WriteDone(i, sw, sh, outcome) =>
      if i < |s.jobs| { WriteJobDoneKeepsInv(s, i, sw, sh, outcome); }
  }

  /** Every state reachable from the initial one satisfies the invariant. */
  lemma {:induction false} RunKeepsInv(s: State, es: seq<Event>)
    requires Inv(s)
    ensures Inv(Run(s, es))
    decreases |es|
  {
    if es != [] {
      ApplyKeepsInv(s, es[0]);
      RunKeepsInv(Apply(s, es[0]), es[1..]);
    }
  }
}
