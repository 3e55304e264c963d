/**
 * Where the album art comes from. `getHighResAlbumArt` walks the posted
 * notifications and takes, from the first Spotify notification that offers one,
 * its large icon when that is a bitmap at least 300 pixels wide, else its
 * `EXTRA_PICTURE`; `fetchArtAndSetWallpaper` falls back to the metadata's
 * `ALBUM_ART` and then its `ART`.
 */
module Artwork {
  import opened Wrappers
  import opened Media

  /** A large icon narrower than this is not taken from a notification. */
  const MinIconWidth: nat := 300

  /** What `Icon.loadDrawable` gives: a `BitmapDrawable` (whose bitmap may be null) or anything else. */
  datatype Drawable = BitmapDrawable(bitmap: Option<Bitmap>) | OtherDrawable

  /** A notification's extras; `picture` is `EXTRA_PICTURE` when that holds a `Bitmap`. */
  datatype Extras = Extras(picture: Option<Bitmap>)

  /** A notification: its large icon, already loaded, and its extras. */
  datatype Notification = Notification(largeIcon: Option<Drawable>, extras: Option<Extras>)

  datatype StatusBarNotification = StatusBarNotification(packageName: string, notification: Option<Notification>)

  /** The art one posted notification offers, in the loop body's order. */
  function NotificationArt(sbn: StatusBarNotification): Option<Bitmap>
  {
    if sbn.packageName != SpotifyPackage then None
    else if sbn.notification.None? then None
    else
      var n := sbn.notification.value;
      if n.extras.None? then None
      else if n.largeIcon.Some? && n.largeIcon.value.BitmapDrawable? && n.largeIcon.value.bitmap.Some?
        && n.largeIcon.value.bitmap.value.width >= MinIconWidth
      then n.largeIcon.value.bitmap
      else n.extras.value.picture
  }

  /** The art of the first notification that offers any. */
  function FirstNotificationArt(ns: seq<StatusBarNotification>): Option<Bitmap>
  {
    if ns == [] then None
    else if NotificationArt(ns[0]).Some? then NotificationArt(ns[0])
    else FirstNotificationArt(ns[1..])
  }

  /** The scan yields the art of the first notification that has one, and nothing only when none has. */
  lemma {:induction false} FirstNotificationArtIsFirst(ns: seq<StatusBarNotification>)
    ensures FirstNotificationArt(ns).None? <==> forall i :: 0 <= i < |ns| ==> NotificationArt(ns[i]).None?
    ensures forall i :: 0 <= i < |ns| && NotificationArt(ns[i]).Some? ==>
      (forall j :: 0 <= j < i ==> NotificationArt(ns[j]).None?) ==> FirstNotificationArt(ns) == NotificationArt(ns[i])
  {
    if ns != [] && NotificationArt(ns[0]).None? {
      FirstNotificationArtIsFirst(ns[1..]);
      assert forall i :: 1 <= i < |ns| ==> ns[i] == ns[1..][i - 1];
    }
  }

  /** What `getHighResAlbumArt` returns; a null notification list gives nothing. */
  function HighResArt(active: Option<seq<StatusBarNotification>>): Option<Bitmap>
  {
    if active.None? then None else FirstNotificationArt(active.value)
  }

  /** `getHighResAlbumArt`: the loop over the posted notifications, with its early returns. */
  method GetHighResAlbumArt(active: Option<seq<StatusBarNotification>>) returns (r: Option<Bitmap>)
    ensures r == HighResArt(active)
  {
    if active.None? {
      return None;
    }
    var ns := active.value;
    var i := 0;
    while i < |ns|
      invariant 0 <= i <= |ns|
      invariant FirstNotificationArt(ns) == FirstNotificationArt(ns[i..])
    {
      var sbn := ns[i];
      assert ns[i..][1..] == ns[i + 1..];
      i := i + 1;
      if sbn.packageName != SpotifyPackage {
        continue;
      }
      if sbn.notification.None? {
        continue;
      }
      var notification := sbn.notification.value;
      if notification.extras.None? {
        continue;
      }
      var extras := notification.extras.value;
      if notification.largeIcon.Some? {
        var drawable := notification.largeIcon.value;
        if drawable.BitmapDrawable? {
          if drawable.bitmap.Some? && drawable.bitmap.value.width >= MinIconWidth {
            return drawable.bitmap;
          }
        }
      }
      if extras.picture.Some? {
        return extras.picture;
      }
    }
    assert ns[i..] == [];
    return None;
  }

  /** `getBitmap(ALBUM_ART) ?: getBitmap(ART)`. */
  function MetadataArt(md: Metadata): Option<Bitmap>
  {
    if md.albumArt.Some? then md.albumArt else md.art
  }

  /** The bitmap one attempt of `fetchArtAndSetWallpaper` writes, if any. */
  function ResolveArt(active: Option<seq<StatusBarNotification>>, md: Metadata): Option<Bitmap>
  {
    var high := HighResArt(active);
    if high.Some? then high else MetadataArt(md)
  }

  // An independent statement of the order: every source as a candidate, in a flat list.

  /** A usable large icon of a Spotify notification that has extras. */
  function IconCandidate(sbn: StatusBarNotification): Option<Bitmap>
  {
    match sbn.notification
    case Some(Notification(Some(BitmapDrawable(Some(b))), Some(_))) =>
      if sbn.packageName == SpotifyPackage && b.width >= MinIconWidth then Some(b) else None
    case _ => None
  }

  /** The `EXTRA_PICTURE` bitmap of a Spotify notification. */
  function PictureCandidate(sbn: StatusBarNotification): Option<Bitmap>
  {
    match sbn.notification
    case Some(Notification(_, Some(Extras(p)))) => if sbn.packageName == SpotifyPackage then p else None
    case _ => None
  }

  function NotificationCandidates(ns: seq<StatusBarNotification>): seq<Option<Bitmap>>
  {
    if ns == [] then [] else [IconCandidate(ns[0]), PictureCandidate(ns[0])] + NotificationCandidates(ns[1..])
  }

  /** Every source in order: each notification's icon then picture, then ALBUM_ART, then ART. */
  function Candidates(active: Option<seq<StatusBarNotification>>, md: Metadata): seq<Option<Bitmap>>
  {
    (if active.None? then [] else NotificationCandidates(active.value)) + [md.albumArt, md.art]
  }

  function FirstSome(s: seq<Option<Bitmap>>): Option<Bitmap>
  {
    if s == [] then None else if s[0].Some? then s[0] else FirstSome(s[1..])
  }

  lemma {:induction false} FirstSomeAppend(a: seq<Option<Bitmap>>, b: seq<Option<Bitmap>>)
    ensures FirstSome(a + b) == if FirstSome(a).Some? then FirstSome(a) else FirstSome(b)
  {
    if a == [] {
      assert a + b == b;
    } else {
      assert (a + b)[1..] == a[1..] + b;
      FirstSomeAppend(a[1..], b);
    }
  }

  lemma {:induction false} NotificationArtIsFirstCandidate(ns: seq<StatusBarNotification>)
    ensures FirstNotificationArt(ns) == FirstSome(NotificationCandidates(ns))
  {
    if ns != [] {
      var pair := [IconCandidate(ns[0]), PictureCandidate(ns[0])];
      FirstSomeAppend(pair, NotificationCandidates(ns[1..]));
      assert pair[1..] == [PictureCandidate(ns[0])];
      NotificationArtIsFirstCandidate(ns[1..]);
    }
  }

  /** The art one fetch attempt uses is the first available candidate in the fixed order. */
  lemma ResolveArtIsFirstCandidate(active: Option<seq<StatusBarNotification>>, md: Metadata)
    ensures ResolveArt(active, md) == FirstSome(Candidates(active, md))
  {
    var front := if active.None? then [] else NotificationCandidates(active.value);
    FirstSomeAppend(front, [md.albumArt, md.art]);
    assert [md.albumArt, md.art][1..] == [md.art] && [md.art][1..] == [];
    assert Candidates(active, md) == front + [md.albumArt, md.art];
    if active.Some? {
      NotificationArtIsFirstCandidate(active.value);
      assert HighResArt(active) == FirstSome(front);
    }
    assert FirstSome([md.art]) == md.art;
    assert FirstSome([md.albumArt, md.art]) == MetadataArt(md);
  }

  /** A Spotify icon narrower than 300 pixels is passed over for the same notification's picture. */
  lemma NarrowIconPassedOver(b: Bitmap, p: Bitmap)
    requires b.width < MinIconWidth
    ensures NotificationArt(StatusBarNotification(SpotifyPackage,
      Some(Notification(Some(BitmapDrawable(Some(b))), Some(Extras(Some(p))))))) == Some(p)
  {
  }

  /** A notification without extras offers nothing, even with a wide icon. */
  lemma NoExtrasNoArt(pkg: string, icon: Option<Drawable>)
    ensures NotificationArt(StatusBarNotification(pkg, Some(Notification(icon, None)))).None?
  {
  }
}
