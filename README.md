# Bonbon events API: a verified model of its controllers and models

Bonbon is an Express and Mongoose REST API for community sports events. A
publisher creates an event. Its address is geocoded into a GeoJSON point and then
discarded. The event's owner or an admin adds sports to it. Users review it, and
after every review save or removal a hook writes the mean rating onto the event.

This project models that core:

- the handlers of `controllers/event.js` and `controllers/sports.js`;
- the schemas, defaults and hooks of `models/Event.js`, `models/Sport.js` and
  `models/Review.js`.

How the model is organised:

- `Store.Database` is a class holding the three collections as maps from id to record.
  Each handler is a method on it, and each handler's contract states its whole
  result and the new state:
  - 404 when the record is missing;
  - 401 when the requester is neither the owner nor an admin;
  - the validation errors;
  - the errors from the unique index;
  - the record it writes.
- `Valid()` holds every stored record to the schema and both unique indexes, and
  every method keeps it.
- The pre('save') hooks of an event run in place on `EventModel.EventDocument`.
- The rating aggregation is a loop (`ReviewModel.AverageRatingGroups`). It is proved
  to compute the mean of the event's reviews, and `ReviewModel.MeanInRange` shows
  that mean is within the 1–10 range the Event schema demands.
- The geocoder, `slugify`, the email pattern and MongoDB's `$centerSphere`
  containment test are called but not defined here. They are the function-typed
  fields of `EventModel.Services`.
- Ids are strings. A fresh id for an insert comes in as a parameter that is not
  yet in use.
- The clock reading `now`, the upload size limit and the file-move outcome are
  parameters too.

Behaviour modelled as the code has it:

- **Updates bypass the save hooks.** `findByIdAndUpdate` runs the update validators
  on the paths present only.
  - A renamed event keeps its old slug and its old location.
  - An address sent in an update is stored as it is.
  - A `user` in the body hands the event to another user.
- **`averageRating` is client-settable.** It is an ordinary schema path, so create
  and update bodies may set it within 1–10. It is not an always-derived field.
- **Deleting an event's last review leaves a stale average.** The aggregation then
  yields no group, so `obj[0].averageRating` throws inside the hook's `try`, the
  error is only logged, and the previous `averageRating` stays. Nothing clears it.
- **Geocoding failures do not raise a geocoding error.** A geocoder answer with no
  candidate makes `loc[0]` undefined, which is a TypeError rather than a distinct
  geocoding error. It is modelled as `GeocodeNoResult`. In the create path nothing
  is stored.
- **Deleting an event does not cascade.** Its sports and reviews stay.

## Model

| member | source | states |
|---|---|---|
| Common.Select | controllers/sports.js:11-18 | the listing holds every document satisfying the filter exactly once, no other, with its count |
| Common.ModifyRule | controllers/event.js:69-77 | the ownership test `MayModify` every mutating handler makes: an admin may modify any record, anyone else only records whose `user` is their own id (also controllers/sports.js:64-72, 94-102, 129-137) |
| Text.Trim | models/Event.js:7-13 | the `trim` setter's result has no white space at either end and is no longer than the input |
| Text.TrimPadded | models/Sport.js:4-8 | trimming removes only white space, and only from the two ends |
| Text.TrimEmpty | models/Sport.js:4-8 | a trimmed value is empty exactly when the input was all white space, so `required` refuses blank titles |
| Text.TrimmedFixed | models/Review.js:4-9 | a value is unchanged by the setter exactly when it has no white space at its ends (trimming is idempotent) |
| Text.Lower | models/Event.js:90-93 | the slug's lower-casing turns each upper-case letter into its lower-case letter and keeps every other character, so no upper-case letter is left |
| Text.Utf16Length | models/Event.js:12 | the length `maxlength` compares counts UTF-16 code units: between the number of characters and twice it, and exactly it when no character lies beyond U+FFFF |
| Text.Utf16LengthAllAstral | models/Review.js:8 | a string of characters beyond U+FFFF is twice as long for `maxlength` as it has characters |
| Text.Ext | controllers/event.js:187 | `path.parse(name).ext` is empty, or the suffix of the base name from its last dot (not a leading dot) on |
| Text.ExtExample1 | controllers/event.js:187 | `team.jpg` has extension `.jpg` |
| Text.ExtExample2 | controllers/event.js:187 | a dot file such as `.profile` has no extension |
| Text.ExtExample3 | controllers/event.js:187 | the extension is taken from the last path component |
| Text.ExtOfAppended | controllers/event.js:187 | a dotless name followed by an extension has that extension |
| Store.PhotoNameKeepsExt | controllers/event.js:186-187 | the stored `photo_<id><ext>` name has the uploaded file's own extension |
| Store.PhotoName | controllers/event.js:186-187 | the stored name starts with `photo_` followed by the event id |
| Store.PhotoNameIsPlainFile | controllers/event.js:187-189 | for an id without a slash the stored name has no slash, so the move stays inside the upload directory |
| EventModel.EventViolations | models/Event.js:7-73 | the ValidationError's path list is empty exactly when every schema validator holds (all of them on create, present paths only on update), lengths counted in UTF-16 units as `maxlength` counts them |
| EventModel.AstralNameRefused | models/Event.js:12 | a name of 26 to 50 characters beyond U+FFFF is refused by `maxlength: 50`, since its UTF-16 length exceeds 50 |
| EventModel.PutKeepsUniqueNames | models/Event.js:10 | writing an event keeps the unique name index exactly when no other event holds its name |
| EventModel.OwnNameNotHeld | models/Event.js:10 | under the unique name index a stored event's own name is held by no other event, so an update that keeps the name never meets a duplicate-key error |
| EventModel.PutKeepsEventsOk | models/Event.js:7-73 | a well-formed event under a free name keeps the collection valid |
| EventModel.SameNameKeepsEventsOk | controllers/event.js:195 | rewriting an event without renaming it keeps the collection valid |
| EventModel.StoredEventRevalidates | models/Event.js:7-19 | a record satisfying the stored-event invariant `EventOk` passes the name and description validators again, its name unchanged by the `trim` setter |
| EventModel.Slug | models/Event.js:91 | `slugify(name, { lower: true })` is slugify's output with each letter lowered: same length, each character its `LowerChar`, no upper-case letter left |
| EventModel.PointOf | models/Event.js:98-107 | the location is a GeoJSON `Point` with two coordinates, longitude first, then latitude, of the candidate |
| EventModel.SavedEvent | models/Event.js:89-112 | the record `Event.create` inserts has no address left |
| EventModel.SavedEventOk | models/Event.js:89-112 | the inserted record passes the schema again, with coordinates `[longitude, latitude]` of the first geocoder candidate |
| EventModel.PatchedEvent | controllers/event.js:79-82 | an update keeps slug, location and createdAt, and an empty body changes nothing |
| EventModel.PatchKeepsEventOk | controllers/event.js:79-82 | a body that passes the update validators keeps a stored event within the schema |
| EventModel.EventDocument.constructor | models/Event.js:56-68 | casting a body trims the name and applies the photo and createdAt defaults |
| EventModel.EventDocument.SlugHook | models/Event.js:90-93 | the first pre('save') hook sets the slug from the current name |
| EventModel.EventDocument.GeocodeHook | models/Event.js:96-112 | the second hook stores the first candidate as a point and clears the address, or throws and writes nothing when there is no candidate |
| EventModel.RunSaveHooks | models/Event.js:89-112 | both hooks in order yield exactly `SavedEvent`, or the geocoder's failure |
| SportModel.LevelName | models/Sport.js:20-24 | every level is stored under one of the enum's strings |
| SportModel.ParseLevel | models/Sport.js:20-24 | the enum validator accepts exactly the four listed strings, each naming its level |
| SportModel.ParseLevelName | models/Sport.js:20-24 | a stored level reads back as itself |
| SportModel.SportViolations | models/Sport.js:3-39 | the ValidationError's path list is empty exactly when every validator holds |
| SportModel.NewSport | models/Sport.js:3-39 | a created sport is well formed, its level defaults to `all`, and event, user and cost come from the body |
| SportModel.PatchedSport | controllers/sports.js:104-107 | an update keeps createdAt and sets the level to the one named, or keeps it |
| SportModel.PatchKeepsSportOk | controllers/sports.js:104-107 | a body that passes the update validators keeps a stored sport well formed |
| ReviewModel.ReviewViolations | models/Review.js:3-34 | the ValidationError's path list is empty exactly when every validator holds, the title's length counted in UTF-16 units |
| ReviewModel.NewReview | models/Review.js:3-34 | a created review is well formed and carries the body's event, user and rating |
| ReviewModel.InsertKeepsUniquePairs | models/Review.js:36-37 | adding a review keeps the unique (event, user) index exactly when the pair is free |
| ReviewModel.OneRatingPerUser | models/Review.js:36-37 | under the (event, user) index no two of an event's matched reviews share a user, so each user weighs once in its average |
| ReviewModel.ReviewsOfMatches | models/Review.js:42-44 | the `$match` stage keeps exactly the reviews whose `event` is the given id, unchanged |
| ReviewModel.RatingTotalRemove | models/Review.js:46-49 | the rating total does not depend on the order the reviews are summed in |
| ReviewModel.RatingTotalInsert | models/Review.js:46-49 | one more review adds its rating to the total |
| ReviewModel.RatingTotalBounds | models/Review.js:14-19 | ratings in 1–10 sum to between 1 and 10 times their count |
| ReviewModel.Mean | models/Review.js:48 | `$avg` over a non-empty group: the mean times the number of reviews is their rating total |
| ReviewModel.MeanInRange | models/Review.js:46-56 | the `$avg` of valid ratings is itself within Event.averageRating's `min`/`max` |
| ReviewModel.AverageRatingGroups | models/Review.js:41-51 | the `$match`/`$group` pipeline yields no group without reviews, else one group holding the mean of the event's ratings |
| ReviewModel.Recompute | models/Review.js:53-59 | the recompute touches only the event's averageRating, and changes nothing when no review is left |
| ReviewModel.RecomputeIsMean | models/Review.js:40-60 | with reviews left, the event's average is their mean |
| ReviewModel.RecomputeKeepsEventsOk | models/Review.js:53-56 | writing the average keeps every event within the schema |
| Store.Database.GetEvent | controllers/event.js:17-27 | the stored event, or 404 |
| Store.StoredEventIsFound | controllers/event.js:36-40 | once an event is stored under a user, `Event.findOne({ user })` finds one |
| Store.Database.CreateEvent | controllers/event.js:32-55 | the requester becomes the owner; a non-admin who already owns an event gets 400; otherwise the ValidationError, the geocoder failure or the duplicate-key error in that order, or success exactly when none applies, inserting `SavedEvent` and leaving the requester with an event |
| Store.Database.SaveNewEvent | controllers/event.js:49 | `Event.create`: a ValidationError listing the failing paths, then `GeocodeNoResult` for an address with no candidate, then the duplicate-key error for a held name, each leaving the collection unchanged; otherwise `SavedEvent` is inserted |
| Store.Database.UpdateEvent | controllers/event.js:60-86 | 404, 401, then the ValidationError of the update validators, then the duplicate-key error for a name another event holds; otherwise the event becomes `PatchedEvent`, slug and location kept |
| Store.Database.DeleteEvent | controllers/event.js:91-113 | 404, 401, otherwise exactly that event is removed while its sports and reviews stay |
| Store.Database.GetEventsInRadius | controllers/event.js:118-140 | the geocoder failure, or exactly the events within `distance / 3963` radians of the first candidate |
| Store.WithinRadius | controllers/event.js:126-133 | the filter holds of an event exactly when `$centerSphere` puts its point within `distance / 3963` radians of the first candidate's point, both in longitude-latitude order |
| Store.Database.EventPhotoUpload | controllers/event.js:145-202 | 404, 401, then the upload checks in the handler's order; on success only the event's photo becomes `photo_<id><ext>` |
| Store.Database.GetSports | controllers/sports.js:10-22 | exactly the sports of the given event, with their count |
| Store.Database.GetSport | controllers/sports.js:27-43 | the sport with its event's name and description populated (null for a dangling reference), or 404 |
| Store.Database.AddSport | controllers/sports.js:48-80 | route event and requester written into the body; 404 for a missing event, 401 for a non-owner, then the ValidationError listing the failing paths; otherwise `NewSport` is inserted |
| Store.Database.InsertSport | controllers/sports.js:74 | `Sport.create`: the ValidationError, or the inserted `NewSport` |
| Store.Database.UpdateSport | controllers/sports.js:85-115 | 404, 401 against the sport's own user, then the ValidationError of the update validators; otherwise the sport becomes `PatchedSport` |
| Store.Database.DeleteSport | controllers/sports.js:120-145 | 404, 401 against the sport's own user, otherwise exactly that sport is removed |
| Store.Database.GetAverageRating | models/Review.js:40-60 | the events become `Recompute` of the old ones, and stay valid |
| Store.Database.SaveReview | models/Review.js:62-65 | the ValidationError, the duplicate-key error for a taken (event, user) pair, or success: `NewReview` of the body is inserted under the fresh id and the body's event gets `Recompute` over the reviews now stored; an error changes nothing |
| Store.Database.InsertReview | models/Review.js:3-37 | a ValidationError, a duplicate-key error for a taken (event, user) pair, or the inserted `NewReview` |
| Store.Database.RemoveReview | models/Review.js:67-70 | the review is removed, then its event is recomputed, which leaves the events unchanged when no review is left |

## Left out

- Geocoder internals and network errors are not modelled. The geocoder is an abstract function returning its candidates in order, and only "no candidate" is modelled as a failure.
- `slugify` and the email regular expression are abstract functions. Only the slug's lower-casing is modelled, and only on ASCII letters.
- `Text.Trim` strips only the white-space characters listed in `Text.IsSpace`, not every Unicode space separator.
- `$centerSphere` containment is an abstract predicate on point, centre and radius. The 2dsphere index is not modelled.
- Dates are integers and numbers are reals. Date casting and the `Date.now` clock are replaced by a `now` parameter.
- `getEvents`, and `getSports` without an event id, answer with the `advancedResults` middleware, which is not part of this model.
- Authentication is not modelled. The route gate `authorize('publisher', 'admin')` becomes `requires MayPublish(req)`.
- `Status` gives the HTTP code only for errors the handlers raise themselves. The error middleware that maps Mongoose errors and TypeErrors to statuses is not part of this model.
- Ids cast by Mongoose (ObjectId cast errors for malformed ids) are not modelled. Ids are plain strings.
- `file.mv` is reduced to the `moved` flag, and the upload path and `MAX_FILE_UPLOAD` setting become parameters.
- Store.Database.EventPhotoUpload: a missing `file` field is the distinct error `MissingFileField`, where the handler throws a TypeError.
- Store.Database.UpdateSport: the unawaited `sport.save()` after the update is left out. The document is saved with no change, and its rejection could not reach the client.
- Paths a client sends that the handlers do not set (`slug`, `location`, `createdAt`, `_id`) are not part of `EventFields` or `SportFields`. Neither is clearing a path with `null` or `$unset`.
- Concurrency is not modelled. Each handler runs to completion before the next, so the race between the one-event-per-publisher check and the insert is not represented.
- The review create and delete routes are not part of this model. `RemoveReview` and `SaveReview` model the document operations and their hooks, without any authorisation.
- Store.Database.GetEventsInRadius: the division by the Earth radius in miles uses exact arithmetic, not floating point.
