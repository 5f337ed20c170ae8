# Screensaver slide views and Google Photos url recovery, in Dafny

This project models two parts of the Photo Screensaver extension's slideshow page:

- **The per-slide view `app.SSView`** (`ss_view.dfy`, module `Views`). The factory picks a view variant from the sizing mode. A view is bound to one photo. It holds the url and the two captions the slide shows, and pushes each of them to the template model. It reports its image element's load state. Beside the view sit the pure policies it uses:
  - the aspect-ratio rule that keeps a photo out of the rotation;
  - the author caption built from a photo's origin type and photographer;
  - the "Unnamed Road, " clean-up of a resolved place name.
- **The screensaver page `app.Screensaver`** (`screensaver.dfy`, module `Screensaver`). It holds the template flags (paused, no photos, sizing type, transition type, time label) and the live views. Its error handler refreshes expired Google Photos urls. The handler runs in two parts:
  - `OnErrorChanged` runs up to the awaited `updatePhotos` call;
  - `CompleteRecovery` is the continuation that runs once the call settles.

  Error events that arrive between the two see `_isUpdating` set. The attempt counter `_gPhotoCt` and the guard `_isUpdating` are also described as a pure state machine (`Guard`, `OnError`, `OnFetchDone`). The whole-session properties are proved over that machine: the counter never decreases, at most 167 fetches happen, at most one fetch is in flight, and the lock-out states are absorbing. The class methods are proved to follow the machine.
- `ss_photo.dfy` (module `Photos`) holds the photo record, as far as the two parts use it. `text.dfy` (module `Text`) holds first-occurrence search and JavaScript's notion of white space.

## Behaviour kept as the code has it

- An error on a photo whose type is not "Google User" sets `_isUpdating` and nothing clears it (screensaver.js:140, 148, 199). Every later error event is dropped for the rest of the session (`OtherPhotoErrorEndsRecovery`).
- Reaching the ceiling of 168 clears the guard (screensaver.js:153-155). Later Google errors keep incrementing the counter without fetching.
- A failed `updatePhotos` sets the counter to 169 and leaves the guard set: a permanent lock-out (`FetchFailureEndsRecovery`).
- `setUrl` falls back on the photo's own url when its argument is absent or the empty string. A whitespace-only url is kept (ss_view.js:187). The recovery loop goes through `setUrl`, so an empty fresh url also falls back.
- `type.substring(0, idx - 1)` with "User" at index 0 clamps to the empty string (`DisplayType`).

## Model

| member | source | states |
|---|---|---|
| Views.KindFor | app/scripts/screensaver/views/ss_view.js:60-73 | zoom, frame and full modes give those variants; every other mode, letterbox or unknown, gives a letterbox view |
| Views.CreateView | app/scripts/screensaver/views/ss_view.js:60-73 | a new view of the variant `KindFor` selects, bound to the photo and showing its url, unwired and with empty captions |
| Views.IsBadAspect | app/scripts/screensaver/views/ss_view.js:95-99 | true exactly when the ratio deviates from the screen's by more than 0.5 |
| Views.Ignore | app/scripts/screensaver/views/ss_view.js:107-119 | a missing, NaN or zero ratio is always ignored; any other ratio is ignored exactly when `skip` is on, sizing is 1 or 3, and the ratio is more than 0.5 off the screen's |
| Views.IgnoreWithoutSkip | app/scripts/screensaver/views/ss_view.js:111-113 | with `skip` off, only photos without a usable ratio are ignored, for every sizing |
| Text.IndexOf | app/scripts/screensaver/views/ss_view.js:210 | returns the first index at which the pattern occurs, and None exactly when it does not occur |
| Views.DisplayType | app/scripts/screensaver/views/ss_view.js:209-220 | a type without "User" is kept whole; otherwise the result is the prefix ending one character before the first "User" (empty when "User" starts at 0 or 1) |
| Views.DisplayTypeFlickrUser | app/scripts/screensaver/views/ss_view.js:217-220 | "Flickr User" is displayed as "Flickr" |
| Views.AuthorLabel | app/scripts/screensaver/views/ss_view.js:203-229 | empty for a type containing "User" while `showPhotog` is off; otherwise "photographer / type" for a non-blank photographer, else "<photo_from> type" |
| Views.AuthorLabelFlickrUser | app/scripts/screensaver/views/ss_view.js:203-229 | a "Flickr User" photo without a photographer has no caption with `showPhotog` off, and "<photo_from> Flickr" with it on |
| Views.StripUnnamedRoad | app/scripts/screensaver/views/ss_view.js:242 | removes exactly the first "Unnamed Road, " and keeps the rest around it; a name without one is unchanged |
| Views.StripUnnamedRoadOnce | app/scripts/screensaver/views/ss_view.js:242 | a second "Unnamed Road, " survives the clean-up |
| Views.SSView.constructor | app/scripts/screensaver/views/ss_view.js:41-51 | binds the photo, shows its url, has no image element and empty captions |
| Views.SSView.SetUrl | app/scripts/screensaver/views/ss_view.js:186-189 | the url becomes the argument when it is a non-empty string, else the photo's url; the template model receives the new url |
| Views.SSView.MarkPhotoBad | app/scripts/screensaver/views/ss_view.js:194-198 | a bound photo is marked unusable; with no photo nothing changes |
| Photos.Photo.MarkBad | app/scripts/screensaver/views/ss_view.js:196 | the photo is unusable afterwards, and repeat calls change nothing more |
| Views.SSView.SetAuthorLabel | app/scripts/screensaver/views/ss_view.js:203-229 | the author caption, and the template model's copy of it, become `AuthorLabel` of the bound photo |
| Views.SSView.SetLocationLabel | app/scripts/screensaver/views/ss_view.js:234-238 | the location caption and its pushed copy are cleared; a lookup starts exactly when `showLocation` is on and the photo has a point |
| Views.SSView.SetPhoto | app/scripts/screensaver/views/ss_view.js:281-286 | the view is bound to the new photo, shows its url, has its author caption re-derived and its location caption cleared |
| Views.SSView.SetElements | app/scripts/screensaver/views/ss_view.js:266-275 | wires the image element, then re-renders the same photo as `SetPhoto` does |
| Views.UnwiredViewIsInError | app/scripts/screensaver/views/ss_view.js:298-308 | a view with no image element is in error and not loaded |
| Views.WiredViewStatus | app/scripts/screensaver/views/ss_view.js:298-308 | once an image element is wired, the view is in error exactly when the element failed and loaded exactly when it finished loading |
| Screensaver.TransitionFor | app/scripts/screensaver/screensaver.js:80-86 | a stored 8 is replaced by the random pick in 0..7, any other stored value is used as is, and the result is never 8 |
| Screensaver.Screensaver.SetupPhotoTransitions | app/scripts/screensaver/screensaver.js:80-86 | `aniType` becomes `TransitionFor` of the stored preference and the pick |
| Screensaver.OnError | app/scripts/screensaver/screensaver.js:131-163 | with the guard held or no error, nothing changes; a Google error adds exactly one to the counter and fetches exactly when the new count is below 168, holding the guard; the ceiling releases the guard; a non-Google error locks out |
| Screensaver.OnFetchDone | app/scripts/screensaver/screensaver.js:163-197 | the waiting cycle ends; success releases the guard with the counter unchanged; failure locks out with the counter at 169; the counter never decreases |
| Screensaver.Step | app/scripts/screensaver/screensaver.js:131-201 | one event keeps the guard invariant and never lowers the counter |
| Screensaver.Run | app/scripts/screensaver/screensaver.js:131-201 | any sequence of events keeps the guard invariant: a waiting cycle holds the guard and started below the ceiling |
| Screensaver.CountNeverDecreases | app/scripts/screensaver/screensaver.js:152-168 | `_gPhotoCt` after any sequence of events is at least what it was before |
| Screensaver.FetchesBounded | app/scripts/screensaver/screensaver.js:152-163 | from counter value c, at most 167 - c further `updatePhotos` calls happen |
| Screensaver.SessionFetchesBounded | app/scripts/screensaver/screensaver.js:57-163 | a whole session makes at most 167 `updatePhotos` calls |
| Screensaver.ErrorsDroppedWhileUpdating | app/scripts/screensaver/screensaver.js:134-137 | while the guard is held, error events change nothing and start no fetch |
| Screensaver.AtMostOneFetchInFlight | app/scripts/screensaver/screensaver.js:134-163 | between two settled fetches at most one fetch starts, and none starts if the guard is already held |
| Screensaver.LockOutIsAbsorbing | app/scripts/screensaver/screensaver.js:134-170 | once the guard is held with no cycle waiting, every later event leaves the state unchanged and fetches nothing |
| Screensaver.FetchFailureEndsRecovery | app/scripts/screensaver/screensaver.js:164-170 | after a failed fetch the counter is 169 and no later event fetches |
| Screensaver.OtherPhotoErrorEndsRecovery | app/scripts/screensaver/screensaver.js:139-148 | an error on a non-Google photo with the guard free holds the guard for good, and no later event fetches |
| Screensaver.FirstMatch | app/scripts/screensaver/screensaver.js:185-187 | the index of the first fresh photo whose `ex.id` matches; None exactly when none matches |
| Screensaver.RefreshView | app/scripts/screensaver/screensaver.js:181-194 | a Google photo's view shows the first match's url (the photo's own if that is empty) or has its photo marked bad when nothing matches; other views and photos are unchanged |
| Screensaver.RefreshViews | app/scripts/screensaver/screensaver.js:180-195 | every view is refreshed as `RefreshView` says, and nothing else changes |
| Screensaver.Screensaver.constructor | app/scripts/screensaver/screensaver.js:40-73 | counter 0, guard free, transition 0, not paused, photos available, empty labels |
| Screensaver.Screensaver.OnErrorChanged | app/scripts/screensaver/screensaver.js:131-163 | the counter, the guard and the fetch request follow `OnError` for the event's error value and the failed view's photo type |
| Screensaver.Screensaver.CompleteRecovery | app/scripts/screensaver/screensaver.js:163-199 | the guard follows `OnFetchDone`; on failure no view or photo changes; on success the views follow `RefreshViews` |
| Screensaver.Screensaver.SetSizingType | app/scripts/screensaver/screensaver.js:238-240 | the sizing type becomes the argument |
| Screensaver.Screensaver.NoPhotos | app/scripts/screensaver/screensaver.js:247-249 | returns the `noPhotos` flag |
| Screensaver.Screensaver.SetNoPhotos | app/scripts/screensaver/screensaver.js:255-258 | `NoPhotos()` is true afterwards and the label is the localized text |
| Screensaver.Screensaver.SetTimeLabel | app/scripts/screensaver/screensaver.js:265-267 | the time label becomes the argument |
| Screensaver.Screensaver.SetPaused | app/scripts/screensaver/screensaver.js:274-283 | `paused` becomes the argument |

## Left out

- The geolocation lookup started by `_setLocationLabel` and its error filtering (ss_view.js:238-254). This is an asynchronous external call. `SetLocationLabel` returns whether a lookup starts. The clean-up of its result is `StripUnnamedRoad`.
- Preferences (`Chrome.Storage`), localized strings (`Chrome.Locale.localize`), the random pick (`Chrome.Utils.getRandomInt`) and the screen's aspect ratio are parameters.
- Logging and analytics (`Chrome.Log`, `Chrome.GA`) are left out. This covers the bad-sizing log in `createView` and the failed-update log.
- The template model writes (`_dirtySet`, ss_view.js:83-86) are plain field updates of the `shown...` fields.
- A push before `setElements` wires the model would throw on the null model in the source. The model does not capture that.
- `app.SSTime.initialize()`, called at the end of `_setupPhotoTransitions` (screensaver.js:88), is not part of this model: it sets up the clock display, and `SetupPhotoTransitions` models only the transition choice.
- `_setTimeStyle`, `render`, the pause and play image class toggles in `setPaused`, and the author, time and location elements passed to `setElements` are presentation only.
- `_setZoom`, `_launch`, `_onLoad` and `createPages` are left out. They call the Chrome tabs API, the slideshow builder and runner, and document styling. The views are given to the page's constructor.
- `PhotoSource.createSource`, `GoogleSource.updatePhotos` and `source.getPhotos` are external. Their outcome is the `FetchOutcome` argument of `CompleteRecovery`.
- `SSPhotos.updateGooglePhotoUrls` (screensaver.js:177) is not part of this model. The url refresh of the shared photo list is not captured, and each photo's url is constant here.
- `_showLocation` (called by `_setLocationLabel` at ss_view.js:238) reads the `showLocation` preference; the model takes its value as the `showLocation` parameter of `SetLocationLabel`, `SetPhoto` and `SetElements`. `showTime`, `_hasAuthorLabel` and `_hasLocationLabel` are one-line preference or blank checks that no modelled operation uses. `_hasAuthor` and `_hasLocation` are inlined where they are used.
- Aspect ratios are reals with explicit "missing" and "NaN" cases. Infinities and other floating-point effects are not modelled.
- The photo record (`app.SSPhoto`) is not part of this model. Only the fields used here are kept, and a missing photographer is the empty string.
- `Chrome.Utils.isWhiteSpace` is not part of this model. It is taken as "empty or made only of characters JavaScript's `\s` matches".
- `app.SSViews.Type` is not part of this model. Its values are taken as LETTERBOX 0, ZOOM 1, FRAME 2 and FULL 3, consistent with `ignore` treating 1 and 3 as the cropping and stretching modes.
- Calls that would throw in the source on a null photo or an out-of-range view index are preconditions. These are `setUrl`, `_setAuthorLabel`, `_setLocationLabel`, `SetElements` (through `setPhoto`), `_onErrorChanged`'s view lookup, and the refresh loop (`RefreshView`, `RefreshViews` and the success path of `CompleteRecovery`, which require every view to have a photo). In the source a view with a null photo makes `photo.getType()` at screensaver.js:182-183 throw out of the refresh loop, so `_isUpdating = false` at screensaver.js:197 is never reached and the guard stays set for the rest of the session; the model does not capture that lock-out.
- The page's views are required to be distinct objects, as the view set creates them.
- In the pure machine (`Step`), a settled fetch with no waiting cycle cannot happen in the source. It is treated as changing nothing.
- app/scripts/background/background.js, app/elements/confirm-dialog/confirm-dialog.ts and app/scripts/my_msg.js are left out. They cover extension lifecycle, a dialog widget and message-name constants.
