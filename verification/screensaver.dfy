/**
 * The screensaver page `app.Screensaver`: its template state (paused, no
 * photos, sizing, transition type, time label), the live list of slide
 * views, and the handler that recovers from expired Google Photos urls.
 *
 * The handler runs in two parts separated by the fetch it awaits:
 * `OnErrorChanged` decides whether to start a refresh and requests the
 * fetch, and `CompleteRecovery` is the continuation that runs once the fetch
 * settles. Error events that arrive in between see the guard set. The field
 * `pending` records that a continuation is waiting.
 *
 * The guard and the attempt counter are first described as a pure state
 * machine (`Guard`, `OnError`, `OnFetchDone`), over which whole sessions are
 * reasoned about (`Run`, `Fetches`); the class's methods are proved to
 * follow it.
 */
module Screensaver {
  import opened Text
  import opened Photos
  import opened Views

  /** Most refreshes a session may attempt: one an hour for a week. */
  const MAX_GPHOTO_UPDATES: nat := 168

  /** The stored transition that asks for a random one. */
  const RANDOM_TRANSITION: int := 8

  /** The transition type used: the stored one, or `random` (a pick in 0..7) when 8 is stored. */
  function TransitionFor(stored: int, random: int): (r: int)
    requires 0 <= random <= 7
    ensures r != RANDOM_TRANSITION
    ensures stored != RANDOM_TRANSITION ==> r == stored
    ensures stored == RANDOM_TRANSITION ==> r == random
  {
    if stored == RANDOM_TRANSITION then random else stored
  }

  // ---------------------------------------------------------------------
  // The recovery guard as a state machine

  /**
   * `count` is `_gPhotoCt`, `updating` is `_isUpdating`, and `pending`
   * says that a refresh has been requested and its continuation waits.
   */
  datatype Guard = Guard(count: nat, updating: bool, pending: bool)

  const INITIAL: Guard := Guard(0, false, false)

  /** A waiting continuation holds the guard, and was started below the ceiling. */
  predicate Inv(g: Guard) {
    g.pending ==> g.updating && g.count < MAX_GPHOTO_UPDATES
  }

  /** The guard is held and nothing will ever release it. */
  predicate LockedOut(g: Guard) {
    g.updating && !g.pending
  }

  datatype Reaction = Reaction(guard: Guard, fetch: bool)

  /**
   * The synchronous part of `_onErrorChanged` for an event with error value
   * `isError` on a view whose photo is (`google`) or is not of type
   * "Google User"; `fetch` says whether `updatePhotos` is called.
   */
  function OnError(g: Guard, isError: bool, google: bool): (r: Reaction)
    ensures g.updating || !isError ==> r == Reaction(g, false)
    ensures r.guard.count == g.count || r.guard.count == g.count + 1
    ensures r.guard.count == g.count + 1 <==> !g.updating && isError && google
    ensures r.fetch <==> !g.updating && isError && google && g.count + 1 < MAX_GPHOTO_UPDATES
    ensures r.fetch ==> r.guard.updating && r.guard.pending
    ensures Inv(g) && !g.updating && isError && !google ==> LockedOut(r.guard)
    ensures Inv(g) && !g.updating && isError && google && g.count + 1 >= MAX_GPHOTO_UPDATES ==>
      !r.guard.updating && !r.guard.pending
    ensures Inv(g) ==> Inv(r.guard)
  {
    if g.updating || !isError then
      Reaction(g, false)
    else if !google then
      Reaction(g.(updating := true), false)
    else if g.count + 1 >= MAX_GPHOTO_UPDATES then
      Reaction(g.(count := g.count + 1, updating := false), false)
    else
      Reaction(Guard(g.count + 1, true, true), true)
  }

  /** The continuation of `_onErrorChanged` once `updatePhotos` settles with `ok`. */
  function OnFetchDone(g: Guard, ok: bool): (r: Guard)
    requires Inv(g) && g.pending
    ensures Inv(r) && !r.pending && r.count >= g.count
    ensures ok ==> !r.updating && r.count == g.count
    ensures !ok ==> LockedOut(r) && r.count == MAX_GPHOTO_UPDATES + 1
  {
    if ok then Guard(g.count, false, false)
    else Guard(MAX_GPHOTO_UPDATES + 1, true, false)
  }

  /**
   * What can happen in a session: an error-state change on some view, or
   * the settling of the fetch a waiting continuation awaits.
   */
  datatype Event = ErrorChanged(isError: bool, google: bool) | FetchSettled(ok: bool)

  /** One event; a settled fetch with no waiting continuation cannot occur and changes nothing. */
  function Step(g: Guard, e: Event): (r: Reaction)
    requires Inv(g)
    ensures Inv(r.guard) && r.guard.count >= g.count
  {
    match e
    case ErrorChanged(isError, google) => OnError(g, isError, google)
    case FetchSettled(ok) => if g.pending then Reaction(OnFetchDone(g, ok), false) else Reaction(g, false)
  }

  /** The guard after a sequence of events. */
  function Run(g: Guard, evs: seq<Event>): (r: Guard)
    requires Inv(g)
    ensures Inv(r)
    decreases |evs|
  {
    if evs == [] then g else Run(Step(g, evs[0]).guard, evs[1..])
  }

  /** How many times `updatePhotos` is called during a sequence of events. */
  function Fetches(g: Guard, evs: seq<Event>): nat
    requires Inv(g)
    decreases |evs|
  {
    if evs == [] then 0
    else var s := Step(g, evs[0]); (if s.fetch then 1 else 0) + Fetches(s.guard, evs[1..])
  }

  /** The attempt counter never goes down. */
  lemma {:induction false} CountNeverDecreases(g: Guard, evs: seq<Event>)
    requires Inv(g)
    ensures Run(g, evs).count >= g.count
    decreases |evs|
  {
    if evs != [] {
      CountNeverDecreases(Step(g, evs[0]).guard, evs[1..]);
    }
  }

  /** From a counter value `c`, at most 167 - `c` further fetches happen. */
  lemma {:induction false} FetchesBounded(g: Guard, evs: seq<Event>)
    requires Inv(g)
    ensures Fetches(g, evs) <= if g.count < MAX_GPHOTO_UPDATES - 1 then MAX_GPHOTO_UPDATES - 1 - g.count else 0
    decreases |evs|
  {
    if evs != [] {
      FetchesBounded(Step(g, evs[0]).guard, evs[1..]);
    }
  }

  /** A whole session calls `updatePhotos` at most 167 times. */
  lemma SessionFetchesBounded(evs: seq<Event>)
    ensures Fetches(INITIAL, evs) <= MAX_GPHOTO_UPDATES - 1
  {
    FetchesBounded(INITIAL, evs);
  }

  /** Only error events: none changes anything while the guard is held. */
  predicate OnlyErrorEvents(evs: seq<Event>) {
    forall i :: 0 <= i < |evs| ==> evs[i].ErrorChanged?
  }

  /**
   * While the guard is held, error events are dropped: no state changes and
   * no fetch is made until a waiting continuation (if any) runs.
   */
  lemma {:induction false} ErrorsDroppedWhileUpdating(g: Guard, evs: seq<Event>)
    requires Inv(g) && g.updating && OnlyErrorEvents(evs)
    ensures Run(g, evs) == g && Fetches(g, evs) == 0
    decreases |evs|
  {
    if evs != [] {
      ErrorsDroppedWhileUpdating(g, evs[1..]);
    }
  }

  /** Between two settled fetches there is at most one fetch in flight. */
  lemma {:induction false} AtMostOneFetchInFlight(g: Guard, evs: seq<Event>)
    requires Inv(g) && OnlyErrorEvents(evs)
    ensures Fetches(g, evs) <= (if g.updating then 0 else 1)
    decreases |evs|
  {
    if evs != [] {
      var s := Step(g, evs[0]);
      if s.fetch {
        ErrorsDroppedWhileUpdating(s.guard, evs[1..]);
      } else {
        AtMostOneFetchInFlight(s.guard, evs[1..]);
      }
    }
  }

  /** Once locked out, every later event of any kind is ignored. */
  lemma {:induction false} LockOutIsAbsorbing(g: Guard, evs: seq<Event>)
    requires Inv(g) && LockedOut(g)
    ensures Run(g, evs) == g && Fetches(g, evs) == 0
    decreases |evs|
  {
    if evs != [] {
      LockOutIsAbsorbing(g, evs[1..]);
    }
  }

  /** A failed fetch ends recovery for the session, with the counter past the ceiling. */
  lemma FetchFailureEndsRecovery(g: Guard, evs: seq<Event>)
    requires Inv(g) && g.pending
    ensures Run(g, [FetchSettled(false)] + evs).count == MAX_GPHOTO_UPDATES + 1
    ensures Fetches(g, [FetchSettled(false)] + evs) == 0
  {
    var g' := OnFetchDone(g, false);
    LockOutIsAbsorbing(g', evs);
    assert ([FetchSettled(false)] + evs)[1..] == evs;
  }

  /** An error on a photo that is not a Google one, with the guard free, ends recovery for the session. */
  lemma OtherPhotoErrorEndsRecovery(g: Guard, evs: seq<Event>)
    requires Inv(g) && !g.updating
    ensures Fetches(g, [ErrorChanged(true, false)] + evs) == 0
    ensures Run(g, [ErrorChanged(true, false)] + evs) == g.(updating := true)
  {
    var g' := OnError(g, true, false).guard;
    LockOutIsAbsorbing(g', evs);
    assert ([ErrorChanged(true, false)] + evs)[1..] == evs;
  }

  // ---------------------------------------------------------------------
  // Correlating views with freshly fetched photos

  /** A freshly fetched photo: its `ex.id` and its new url. */
  datatype FreshPhoto = FreshPhoto(id: string, url: string)

  /** What `updatePhotos` and the new source's `getPhotos` yield. */
  datatype FetchOutcome = FetchFailed | FetchSucceeded(photos: seq<FreshPhoto>)

  /** The index of the first batch photo with identifier `id` (`findIndex`). */
  function FirstMatch(batch: seq<FreshPhoto>, id: string): (r: Option<nat>)
    ensures r.Some? ==> r.value < |batch| && batch[r.value].id == id
    ensures r.Some? ==> forall j :: 0 <= j < r.value ==> batch[j].id != id
    ensures r.None? <==> forall j :: 0 <= j < |batch| ==> batch[j].id != id
    decreases |batch|
  {
    if batch == [] then None
    else if batch[0].id == id then Some(0)
    else match FirstMatch(batch[1..], id)
      case None => None
      case Some(k) => Some(k + 1)
  }

  /** A Google photo that the fetched batch has a url for. */
  predicate Refreshed(p: Photo, batch: seq<FreshPhoto>) {
    p.photoType == GOOGLE_USER && FirstMatch(batch, p.id).Some?
  }

  /** A Google photo that the fetched batch no longer has. */
  predicate Dropped(p: Photo, batch: seq<FreshPhoto>) {
    p.photoType == GOOGLE_USER && FirstMatch(batch, p.id).None?
  }

  /** The url a refreshed photo's view shows: the first match's url, or the photo's own when that is empty. */
  function FreshUrl(p: Photo, batch: seq<FreshPhoto>): string
    requires Refreshed(p, batch)
  {
    var u := batch[FirstMatch(batch, p.id).value].url;
    if u != "" then u else p.url
  }

  /**
   * One pass of the refresh loop: a view of a Google photo is given the
   * first matching fresh url, or has its photo marked bad when nothing
   * matches; a view of any other photo is left alone.
   */
  method RefreshView(view: SSView, batch: seq<FreshPhoto>)
    requires view.photo != null
    modifies view`url, view`shownUrl, view.photo
    ensures Refreshed(view.photo, batch) ==> view.url == FreshUrl(view.photo, batch) && view.shownUrl == view.url
    ensures !Refreshed(view.photo, batch) ==> view.url == old(view.url) && view.shownUrl == old(view.shownUrl)
    ensures Dropped(view.photo, batch) ==> !view.photo.isGood
    ensures !Dropped(view.photo, batch) ==> view.photo.isGood == old(view.photo.isGood)
  {
    var photo := view.photo;
    if photo.photoType == GOOGLE_USER {
      var index := FirstMatch(batch, photo.id);
      if index.Some? {
        view.SetUrl(Some(batch[index.value].url));
      } else {
        view.MarkPhotoBad();
      }
    }
  }

  /** The refresh loop over the live views, each refreshed as `RefreshView` says. */
  method RefreshViews(views: seq<SSView>, batch: seq<FreshPhoto>)
    requires forall a, b :: 0 <= a < b < |views| ==> views[a] != views[b]
    requires forall j :: 0 <= j < |views| ==> views[j].photo != null
    modifies views`url, views`shownUrl
    modifies set v | v in views && v.photo != null :: v.photo
    ensures forall j :: 0 <= j < |views| ==> Refreshed(views[j].photo, batch) ==>
      views[j].url == FreshUrl(views[j].photo, batch) && views[j].shownUrl == views[j].url
    ensures forall j :: 0 <= j < |views| && !Refreshed(views[j].photo, batch) ==>
      views[j].url == old(views[j].url) && views[j].shownUrl == old(views[j].shownUrl)
    ensures forall j :: 0 <= j < |views| ==> Dropped(views[j].photo, batch) ==> !views[j].photo.isGood
    ensures forall j :: 0 <= j < |views| && !Dropped(views[j].photo, batch) ==>
      views[j].photo.isGood == old(views[j].photo.isGood)
  {
    for i := 0 to |views|
      invariant forall j :: 0 <= j < i ==> Refreshed(views[j].photo, batch) ==>
        views[j].url == FreshUrl(views[j].photo, batch) && views[j].shownUrl == views[j].url
      invariant forall j :: 0 <= j < |views| && (i <= j || !Refreshed(views[j].photo, batch)) ==>
        views[j].url == old(views[j].url) && views[j].shownUrl == old(views[j].shownUrl)
      invariant forall j :: 0 <= j < i ==> Dropped(views[j].photo, batch) ==> !views[j].photo.isGood
      invariant forall j :: 0 <= j < |views| && !Dropped(views[j].photo, batch) ==>
        views[j].photo.isGood == old(views[j].photo.isGood)
    {
      RefreshView(views[i], batch);
    }
  }

  // ---------------------------------------------------------------------
  // The page

  class Screensaver {
    var views: seq<SSView>
    var gPhotoCt: nat
    var isUpdating: bool
    var pending: bool
    var sizingType: Option<string>
    var aniType: int
    var paused: bool
    var noPhotos: bool
    var noPhotosLabel: string
    var timeLabel: string

    function GuardState(): Guard
      reads this
    {
      Guard(gPhotoCt, isUpdating, pending)
    }

    /** The guard machine's invariant holds and each view appears once. */
    ghost predicate Valid()
      reads this
    {
      && Inv(GuardState())
      && forall a, b :: 0 <= a < b < |views| ==> views[a] != views[b]
    }

    /** The page as it is loaded, over the views the view set creates. */
    constructor (views: seq<SSView>)
      requires forall a, b :: 0 <= a < b < |views| ==> views[a] != views[b]
      ensures Valid() && this.views == views && GuardState() == INITIAL
      ensures sizingType == None && aniType == 0 && !paused && !noPhotos
      ensures noPhotosLabel == "" && timeLabel == ""
    {
      this.views := views;
      gPhotoCt, isUpdating, pending := 0, false, false;
      sizingType := None;
      aniType := 0;
      paused, noPhotos := false, false;
      noPhotosLabel, timeLabel := "", "";
    }

    /** Applies the stored `photoTransition` preference; `random` is the pick in 0..7. */
    method SetupPhotoTransitions(stored: int, random: int)
      requires 0 <= random <= 7
      modifies this`aniType
      ensures aniType == TransitionFor(stored, random)
    {
      var t := stored;
      if t == RANDOM_TRANSITION {
        t := random;
      }
      aniType := t;
    }

    method SetSizingType(sizing: Option<string>)
      modifies this`sizingType
      ensures sizingType == sizing
    {
      sizingType := sizing;
    }

    /** Whether every photo has been found unusable. */
    function NoPhotos(): (r: bool)
      reads this
      ensures r <==> noPhotos
    {
      noPhotos
    }

    /** Records that no photo is usable, with the localized `no_photos` text. */
    method SetNoPhotos(newLabel: string)
      modifies this`noPhotos, this`noPhotosLabel
      ensures NoPhotos() && noPhotosLabel == newLabel
    {
      noPhotos := true;
      noPhotosLabel := newLabel;
    }

    method SetTimeLabel(newLabel: string)
      modifies this`timeLabel
      ensures timeLabel == newLabel
    {
      timeLabel := newLabel;
    }

    method SetPaused(paused: bool)
      modifies this`paused
      ensures this.paused == paused
    {
      this.paused := paused;
    }

    /**
     * The error state of the view at `index` changed to `isError`. Returns
     * whether `updatePhotos` is called; if so, the handler now waits for it
     * and `CompleteRecovery` continues it.
     */
    method OnErrorChanged(index: nat, isError: bool) returns (fetch: bool)
      requires Valid()
      requires !isUpdating && isError ==> index < |views| && views[index].photo != null
      modifies this`gPhotoCt, this`isUpdating, this`pending
      ensures Valid()
      ensures Reaction(GuardState(), fetch) ==
        OnError(old(GuardState()), isError,
                !old(isUpdating) && isError && views[index].photo.photoType == GOOGLE_USER)
    {
      fetch := false;
      if isUpdating {
        return;
      }
      if isError {
        isUpdating := true;
        var view := views[index];
        var photo := view.photo;
        if photo.photoType == GOOGLE_USER {
          gPhotoCt := gPhotoCt + 1;
          if gPhotoCt >= MAX_GPHOTO_UPDATES {
            isUpdating := false;
            return;
          }
          pending := true;
          fetch := true;
        }
      }
    }

    /**
     * The continuation once `updatePhotos` settles. On failure recovery
     * ends for the session. On success every view of a Google photo shows
     * its photo's batch url, or has its photo marked bad when the batch no
     * longer has it; other views are untouched; then the guard is released.
     */
    method CompleteRecovery(outcome: FetchOutcome)
      requires Valid() && pending
      requires outcome.FetchSucceeded? ==> forall j :: 0 <= j < |views| ==> views[j].photo != null
      modifies this`gPhotoCt, this`isUpdating, this`pending
      modifies views`url, views`shownUrl
      modifies set v | v in views && v.photo != null :: v.photo
      ensures Valid()
      ensures GuardState() == OnFetchDone(old(GuardState()), outcome.FetchSucceeded?)
      ensures outcome.FetchFailed? ==> forall j :: 0 <= j < |views| ==>
        views[j].url == old(views[j].url) && views[j].shownUrl == old(views[j].shownUrl)
      ensures outcome.FetchFailed? ==> forall j :: 0 <= j < |views| && views[j].photo != null ==>
        views[j].photo.isGood == old(views[j].photo.isGood)
      ensures outcome.FetchSucceeded? ==> forall j :: 0 <= j < |views| ==>
        var p := views[j].photo;
        && (Refreshed(p, outcome.photos) ==>
              views[j].url == FreshUrl(p, outcome.photos) && views[j].shownUrl == views[j].url)
        && (!Refreshed(p, outcome.photos) ==>
              views[j].url == old(views[j].url) && views[j].shownUrl == old(views[j].shownUrl))
        && (Dropped(p, outcome.photos) ==> !p.isGood)
        && (!Dropped(p, outcome.photos) ==> p.isGood == old(p.isGood))
    {
      if outcome.FetchFailed? {
        gPhotoCt := MAX_GPHOTO_UPDATES + 1;
        isUpdating := true;
        pending := false;
        return;
      }

      RefreshViews(views, outcome.photos);

      isUpdating := false;
      pending := false;
    }
  }

  /**
   * Two views on Google photos A and B; B's url fails and a second error
   * arrives while the refresh is awaited: one fetch only. The fetch then
   * fails, and a later error is dropped: the counter is 169 and the guard
   * stays held.
   */
  method ReentrantErrorScenario()
  {
    var a := new Photo("A", "a-old", "", None, GOOGLE_USER);
    var b := new Photo("B", "b-old", "", None, GOOGLE_USER);
    var va := CreateView(a, ZOOM);
    var vb := CreateView(b, ZOOM);
    var page := new Screensaver([va, vb]);

    var fetch := page.OnErrorChanged(1, true);
    assert fetch && page.gPhotoCt == 1 && page.isUpdating;

    var again := page.OnErrorChanged(0, true);
    assert !again && page.gPhotoCt == 1;

    page.CompleteRecovery(FetchFailed);
    again := page.OnErrorChanged(0, true);
    assert !again && page.gPhotoCt == MAX_GPHOTO_UPDATES + 1 && page.isUpdating;
  }

  /** The refresh of three views on Google photos A, B and C with a batch that has A and C only. */
  method RefreshScenario()
  {
    var a := new Photo("A", "a-old", "", None, GOOGLE_USER);
    var b := new Photo("B", "b-old", "", None, GOOGLE_USER);
    var c := new Photo("C", "c-old", "", None, GOOGLE_USER);
    var va := CreateView(a, ZOOM);
    var vb := CreateView(b, ZOOM);
    var vc := CreateView(c, ZOOM);

    var batch := [FreshPhoto("C", "c-new"), FreshPhoto("A", "a-new")];
    assert FirstMatch(batch, "A") == Some(1);
    assert FirstMatch(batch, "B") == None;
    assert FirstMatch(batch, "C") == Some(0);
    RefreshViews([va, vb, vc], batch);
    assert [va, vb, vc][0] == va;
    assert va.url == "a-new" && a.isGood;
    assert [va, vb, vc][1] == vb;
    assert vb.url == "b-old" && !b.isGood;
    assert [va, vb, vc][2] == vc;
    assert vc.url == "c-new" && c.isGood;
  }
}
