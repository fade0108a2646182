/** The handlers of controllers/event.js and controllers/sports.js, and the
    review save/remove with their hooks from models/Review.js, as methods of one
    database object holding the three collections. Each handler looks the record
    up (404), checks that the requester owns it or is an admin (401), and only
    then writes. */
module Store {
  import opened Common
  import opened Text
  import opened EventModel
  import opened SportModel
  import opened ReviewModel

  /** The Earth radius in miles the radius query divides the distance by. */
  const EarthRadiusMiles: real := 3963.0

  /** An uploaded file as the upload middleware presents it. */
  datatype Upload = Upload(name: string, mimetype: string, size: nat)

  const PhotoPrefix := "photo_"

  /** The file name the photo upload stores: `photo_${event._id}${ext}`. */
  function PhotoName(id: Id, fileName: string): (n: string)
    ensures PhotoPrefix <= n && |n| >= |PhotoPrefix| + |id| && n[|PhotoPrefix|..|PhotoPrefix| + |id|] == id
  {
    var a := PhotoPrefix + id;
    assert a[|PhotoPrefix|..] == id;
    a + Ext(fileName)
  }

  lemma PhotoPrefixPlain()
    ensures PhotoPrefix != [] && PhotoPrefix[0] != '.' && '.' !in PhotoPrefix && '/' !in PhotoPrefix
  {
  }

  /** The stored photo keeps the uploaded file's extension (an ObjectId string
      holds no dot and no slash). */
  lemma PhotoNameKeepsExt(id: Id, fileName: string)
    requires '.' !in id && '/' !in id
    ensures Ext(PhotoName(id, fileName)) == Ext(fileName)
  {
    var a := PhotoPrefix + id;
    PhotoPrefixPlain();
    NotInAppended(PhotoPrefix, id, '.');
    NotInAppended(PhotoPrefix, id, '/');
    ExtOfAppended(a, Ext(fileName));
  }

  /** For an id without a slash, the stored name is a plain file name: the move
      to `${FILE_UPLOAD_PATH}/${file.name}` stays inside the upload directory,
      whatever directories the uploaded name carried. */
  lemma PhotoNameIsPlainFile(id: Id, fileName: string)
    requires '/' !in id
    ensures '/' !in PhotoName(id, fileName)
  {
    PhotoPrefixPlain();
    NotInAppended(PhotoPrefix, id, '/');
    NotInAppended(PhotoPrefix + id, Ext(fileName), '/');
  }

  /** The part of the parent event that `populate({ path: 'event', select: 'name description' })` shows. */
  datatype EventSummary = EventSummary(name: string, description: string)

  /** A sport with its event populated; a dangling reference populates to null. */
  datatype SportView = SportView(sport: Sport, event: Option<EventSummary>)

  /** `Event.findOne({ user })` finds something. */
  predicate HasEvent(events: map<Id, Event>, user: Id) {
    exists k :: k in events && events[k].user == user
  }

  /** Once an event is stored under a user, `findOne({ user })` finds one, so the
      same non-admin's next create is refused. */
  lemma StoredEventIsFound(events: map<Id, Event>, id: Id, e: Event)
    ensures HasEvent(events[id := e], e.user)
  {
    assert events[id := e][id].user == e.user;
  }

  /** The `$geoWithin: { $centerSphere: [[lng, lat], distance / 3963] }` filter
      around the geocoder's first candidate. */
  function WithinRadius(s: Services, g: GeoEntry, distance: real): (f: Event -> bool)
    ensures forall e: Event :: f(e) == s.within(e.location.coordinates, PointOf(g).coordinates, distance / EarthRadiusMiles)
  {
    (e: Event) => s.within(e.location.coordinates, [g.longitude, g.latitude], distance / EarthRadiusMiles)
  }

  class Database {
    const services: Services
    var events: map<Id, Event>
    var sports: map<Id, Sport>
    var reviews: map<Id, Review>

    /** What every stored record satisfies, and the two unique indexes. */
    ghost predicate Valid()
      reads this
    {
      EventsOk(events, services.isEmail) && SportsOk(sports) && ReviewsOk(reviews)
    }

    constructor (services: Services)
      ensures Valid() && this.services == services
      ensures events == map[] && sports == map[] && reviews == map[]
    {
      this.services := services;
      events := map[];
      sports := map[];
      reviews := map[];
    }

    // ---- controllers/event.js ----

    /** getEvent */
    method GetEvent(id: Id) returns (r: Result<Event, Error>)
      ensures id in events ==> r == Ok(events[id])
      ensures id !in events ==> r == Err(NotFound(id)) && Status(r.error) == Some(404)
    {
      if id !in events {
        return Err(NotFound(id));
      }
      r := Ok(events[id]);
    }

    /** createEvent: the requester becomes the owner whatever the body says; a
        non-admin who already owns an event is refused before anything is saved. */
    method CreateEvent(req: Requester, body: EventFields, newId: Id, now: int) returns (r: Result<Event, Error>)
      requires Valid() && MayPublish(req) && newId !in events
      modifies this`events
      ensures Valid()
      ensures r.Err? ==> events == old(events)
      ensures r.Ok? ==> events == old(events)[newId := r.value]
      ensures req.role != Admin && HasEvent(old(events), req.id) ==> r == Err(AlreadyPublished(req.id))
      ensures r.Ok? <==> (req.role == Admin || !HasEvent(old(events), req.id))
                         && Creatable(old(events), body.(user := Some(req.id)), newId)
      ensures r.Ok? ==> r.value == SavedEvent(body.(user := Some(req.id)), now, services) && r.value.user == req.id
      ensures r.Ok? ==> HasEvent(events, req.id)
      ensures var b := body.(user := Some(req.id));
        (req.role == Admin || !HasEvent(old(events), req.id)) && !EventConforms(b, true, services.isEmail) ==>
        r == Err(ValidationFailed(EventViolations(b, true, services.isEmail)))
      ensures var b := body.(user := Some(req.id));
        (req.role == Admin || !HasEvent(old(events), req.id)) && EventConforms(b, true, services.isEmail) ==>
        (services.geocode(b.address.value) == [] ==> r == Err(GeocodeNoResult))
        && (services.geocode(b.address.value) != [] && NameHeld(old(events), newId, Trim(b.name.value)) ==> r == Err(DuplicateKey))
    {
      if HasEvent(events, req.id) && req.role != Admin {
        return Err(AlreadyPublished(req.id));
      }
      r := SaveNewEvent(body.(user := Some(req.id)), newId, now);
      if r.Ok? {
        StoredEventIsFound(old(events), newId, r.value);
      }
    }

    /** Everything `Event.create(b)` demands: the validators, a geocoder answer
        for the address, and a name no other event holds. */
    ghost predicate Creatable(events: map<Id, Event>, b: EventFields, newId: Id) {
      && EventConforms(b, true, services.isEmail)
      && services.geocode(b.address.value) != []
      && !NameHeld(events, newId, Trim(b.name.value))
    }

    /** `Event.create(b)`: validation, then the document's two pre('save') hooks,
        then the insert under the unique name index. */
    method SaveNewEvent(b: EventFields, newId: Id, now: int) returns (r: Result<Event, Error>)
      requires Valid() && newId !in events
      modifies this`events
      ensures Valid()
      ensures r.Err? ==> events == old(events)
      ensures r.Ok? ==> events == old(events)[newId := r.value]
      ensures !EventConforms(b, true, services.isEmail) ==> r == Err(ValidationFailed(EventViolations(b, true, services.isEmail)))
      ensures EventConforms(b, true, services.isEmail) && services.geocode(b.address.value) == [] ==> r == Err(GeocodeNoResult)
      ensures (EventConforms(b, true, services.isEmail) && services.geocode(b.address.value) != []
               && NameHeld(old(events), newId, Trim(b.name.value))) ==> r == Err(DuplicateKey)
      ensures r.Ok? <==> Creatable(old(events), b, newId)
      ensures r.Ok? ==> r.value == SavedEvent(b, now, services)
    {
      var errs := EventViolations(b, true, services.isEmail);
      if errs != [] {
        return Err(ValidationFailed(errs));
      }
      var saved := RunSaveHooks(b, now, services);
      if saved.Err? {
        return Err(saved.error);
      }
      var e := saved.value;
      SavedEventOk(b, now, services);
      if NameHeld(events, newId, e.name) {
        return Err(DuplicateKey);
      }
      PutKeepsEventsOk(events, newId, e, services.isEmail);
      events := events[newId := e];
      r := Ok(e);
    }

    /** updateEvent: `findByIdAndUpdate` with the update validators; no save hook
        runs, so the slug and location stay as they were, and the body may even
        hand the event to another user. */
    method UpdateEvent(req: Requester, id: Id, patch: EventFields) returns (r: Result<Event, Error>)
      requires Valid() && MayPublish(req)
      modifies this`events
      ensures Valid()
      ensures r.Err? ==> events == old(events)
      ensures id !in old(events) ==> r == Err(NotFound(id))
      ensures id in old(events) && !MayModify(req, old(events)[id].user) ==> r == Err(NotAuthorized(req.id))
      ensures id in old(events) && MayModify(req, old(events)[id].user) && !EventConforms(patch, false, services.isEmail) ==>
        r == Err(ValidationFailed(EventViolations(patch, false, services.isEmail)))
      ensures (id in old(events) && MayModify(req, old(events)[id].user) && EventConforms(patch, false, services.isEmail)
               && NameHeld(old(events), id, PatchedEvent(old(events)[id], patch).name)) ==> r == Err(DuplicateKey)
      ensures r.Ok? <==> && id in old(events) && MayModify(req, old(events)[id].user)
                         && EventConforms(patch, false, services.isEmail)
                         && !NameHeld(old(events), id, PatchedEvent(old(events)[id], patch).name)
      ensures r.Ok? ==> r.value == PatchedEvent(old(events)[id], patch) && events == old(events)[id := r.value]
      ensures r.Ok? ==> r.value.slug == old(events)[id].slug && r.value.location == old(events)[id].location
    {
      if id !in events {
        return Err(NotFound(id));
      }
      var event := events[id];
      if !MayModify(req, event.user) {
        return Err(NotAuthorized(req.id));
      }
      var errs := EventViolations(patch, false, services.isEmail);
      if errs != [] {
        return Err(ValidationFailed(errs));
      }
      var updated := PatchedEvent(event, patch);
      if NameHeld(events, id, updated.name) {
        return Err(DuplicateKey);
      }
      PatchKeepsEventOk(event, patch, services.isEmail);
      PutKeepsEventsOk(events, id, updated, services.isEmail);
      events := events[id := updated];
      r := Ok(updated);
    }

    /** deleteEvent: removes exactly that event; its sports and reviews stay. */
    method DeleteEvent(req: Requester, id: Id) returns (r: Result<(), Error>)
      requires Valid() && MayPublish(req)
      modifies this`events
      ensures Valid()
      ensures id !in old(events) ==> r == Err(NotFound(id))
      ensures id in old(events) && !MayModify(req, old(events)[id].user) ==> r == Err(NotAuthorized(req.id))
      ensures r.Ok? <==> id in old(events) && MayModify(req, old(events)[id].user)
      ensures events == if r.Ok? then old(events) - {id} else old(events)
      ensures sports == old(sports) && reviews == old(reviews)
    {
      if id !in events {
        return Err(NotFound(id));
      }
      if !MayModify(req, events[id].user) {
        return Err(NotAuthorized(req.id));
      }
      RemoveKeepsEventsOk(events, id, services.isEmail);
      events := events - {id};
      r := Ok(());
    }

    /** getEventsInRadius: geocode the zipcode, then every event whose point lies
        in the spherical cap of `distance / 3963` radians around the first candidate. */
    method GetEventsInRadius(zipcode: string, distance: real) returns (r: Result<Listing<Event>, Error>)
      ensures services.geocode(zipcode) == [] ==> r == Err(GeocodeNoResult)
      ensures services.geocode(zipcode) != [] ==>
        r.Ok? && ListsExactly(r.value, events, WithinRadius(services, services.geocode(zipcode)[0], distance))
    {
      var loc := services.geocode(zipcode);
      if loc == [] {
        return Err(GeocodeNoResult);
      }
      var found := Select(events, WithinRadius(services, loc[0], distance));
      r := Ok(found);
    }

    /** eventPhotoUpload: the event exists, the requester owns it or is an admin,
        a file came, it is an image, it is within the size limit, the move
        succeeded; only then is `photo` set to `photo_<id><ext>`. */
    method EventPhotoUpload(req: Requester, id: Id, files: Option<map<string, Upload>>, maxFileUpload: nat, moved: bool)
      returns (r: Result<string, Error>)
      requires Valid() && MayPublish(req)
      modifies this`events
      ensures Valid()
      ensures r.Err? ==> events == old(events)
      ensures id !in old(events) ==> r == Err(NotFound(id))
      ensures id in old(events) && !MayModify(req, old(events)[id].user) ==> r == Err(NotAuthorized(req.id))
      ensures id in old(events) && MayModify(req, old(events)[id].user) ==>
        r == if files.None? then Err(NoFileUploaded)
             else if "file" !in files.value then Err(MissingFileField)
             else if !("image" <= files.value["file"].mimetype) then Err(NotAnImage)
             else if files.value["file"].size > maxFileUpload then Err(FileTooLarge(maxFileUpload))
             else if !moved then Err(FileMoveFailed)
             else Ok(PhotoName(id, files.value["file"].name))
      ensures r.Ok? ==> events == old(events)[id := old(events)[id].(photo := r.value)]
    {
      if id !in events {
        return Err(NotFound(id));
      }
      if !MayModify(req, events[id].user) {
        return Err(NotAuthorized(req.id));
      }
      if files.None? {
        return Err(NoFileUploaded);
      }
      if "file" !in files.value {
        return Err(MissingFileField);
      }
      var file := files.value["file"];
      if !("image" <= file.mimetype) {
        return Err(NotAnImage);
      }
      if file.size > maxFileUpload {
        return Err(FileTooLarge(maxFileUpload));
      }
      file := file.(name := PhotoName(id, file.name));
      if !moved {
        return Err(FileMoveFailed);
      }
      SameNameKeepsEventsOk(events, id, events[id].(photo := file.name), services.isEmail);
      events := events[id := events[id].(photo := file.name)];
      r := Ok(file.name);
    }

    // ---- controllers/sports.js ----

    /** getSports for one event: every sport whose `event` is that id, and their
        count. The event itself is not looked up. */
    method GetSports(eventId: Id) returns (l: Listing<Sport>)
      ensures ListsExactly(l, sports, (s: Sport) => s.event == eventId)
    {
      l := Select(sports, (s: Sport) => s.event == eventId);
    }

    /** getSport, with the event's name and description populated. */
    method GetSport(id: Id) returns (r: Result<SportView, Error>)
      ensures id !in sports ==> r == Err(NotFound(id))
      ensures id in sports ==> r.Ok? && r.value.sport == sports[id]
      ensures id in sports && sports[id].event in events ==>
        r.value.event == Some(EventSummary(events[sports[id].event].name, events[sports[id].event].description))
      ensures id in sports && sports[id].event !in events ==> r.value.event == None
    {
      if id !in sports {
        return Err(NotFound(id));
      }
      var sport := sports[id];
      var summary := if sport.event in events
        then Some(EventSummary(events[sport.event].name, events[sport.event].description))
        else None;
      r := Ok(SportView(sport, summary));
    }

    /** addSport: the route's event id and the requester are written into the
        body; the event must exist and belong to the requester or an admin. */
    method AddSport(req: Requester, eventId: Id, body: SportFields, newId: Id, now: int) returns (r: Result<Sport, Error>)
      requires Valid() && MayPublish(req) && newId !in sports
      modifies this`sports
      ensures Valid()
      ensures r.Err? ==> sports == old(sports)
      ensures eventId !in events ==> r == Err(NotFound(eventId))
      ensures eventId in events && !MayModify(req, events[eventId].user) ==> r == Err(NotAuthorized(req.id))
      ensures var b := body.(event := Some(eventId), user := Some(req.id));
        eventId in events && MayModify(req, events[eventId].user) && !SportConforms(b, true) ==>
        r == Err(ValidationFailed(SportViolations(b, true)))
      ensures var b := body.(event := Some(eventId), user := Some(req.id));
        r.Ok? <==> eventId in events && MayModify(req, events[eventId].user) && SportConforms(b, true)
      ensures r.Ok? ==> sports == old(sports)[newId := r.value]
      ensures r.Ok? ==> r.value == NewSport(body.(event := Some(eventId), user := Some(req.id)), now)
      ensures r.Ok? ==> r.value.event == eventId && r.value.user == req.id
    {
      if eventId !in events {
        return Err(NotFound(eventId));
      }
      if !MayModify(req, events[eventId].user) {
        return Err(NotAuthorized(req.id));
      }
      r := InsertSport(body.(event := Some(eventId), user := Some(req.id)), newId, now);
    }

    /** `Sport.create(b)`: validation, then the insert. */
    method InsertSport(b: SportFields, newId: Id, now: int) returns (r: Result<Sport, Error>)
      requires Valid() && newId !in sports
      modifies this`sports
      ensures Valid()
      ensures r.Err? ==> sports == old(sports)
      ensures !SportConforms(b, true) ==> r == Err(ValidationFailed(SportViolations(b, true)))
      ensures SportConforms(b, true) ==> r == Ok(NewSport(b, now)) && sports == old(sports)[newId := r.value]
    {
      var errs := SportViolations(b, true);
      if errs != [] {
        return Err(ValidationFailed(errs));
      }
      var sport := NewSport(b, now);
      sports := sports[newId := sport];
      r := Ok(sport);
    }

    /** updateSport: authorised against the sport's own user, not the event's owner. */
    method UpdateSport(req: Requester, id: Id, patch: SportFields) returns (r: Result<Sport, Error>)
      requires Valid() && MayPublish(req)
      modifies this`sports
      ensures Valid()
      ensures r.Err? ==> sports == old(sports)
      ensures id !in old(sports) ==> r == Err(NotFound(id))
      ensures id in old(sports) && !MayModify(req, old(sports)[id].user) ==> r == Err(NotAuthorized(req.id))
      ensures id in old(sports) && MayModify(req, old(sports)[id].user) && !SportConforms(patch, false) ==>
        r == Err(ValidationFailed(SportViolations(patch, false)))
      ensures r.Ok? <==> id in old(sports) && MayModify(req, old(sports)[id].user) && SportConforms(patch, false)
      ensures r.Ok? ==> r.value == PatchedSport(old(sports)[id], patch) && sports == old(sports)[id := r.value]
    {
      if id !in sports {
        return Err(NotFound(id));
      }
      var sport := sports[id];
      if !MayModify(req, sport.user) {
        return Err(NotAuthorized(req.id));
      }
      var errs := SportViolations(patch, false);
      if errs != [] {
        return Err(ValidationFailed(errs));
      }
      var updated := PatchedSport(sport, patch);
      PatchKeepsSportOk(sport, patch);
      sports := sports[id := updated];
      r := Ok(updated);
    }

    /** deleteSport: authorised against the sport's own user; removes exactly that sport. */
    method DeleteSport(req: Requester, id: Id) returns (r: Result<(), Error>)
      requires Valid() && MayPublish(req)
      modifies this`sports
      ensures Valid()
      ensures id !in old(sports) ==> r == Err(NotFound(id))
      ensures id in old(sports) && !MayModify(req, old(sports)[id].user) ==> r == Err(NotAuthorized(req.id))
      ensures r.Ok? <==> id in old(sports) && MayModify(req, old(sports)[id].user)
      ensures sports == if r.Ok? then old(sports) - {id} else old(sports)
    {
      if id !in sports {
        return Err(NotFound(id));
      }
      if !MayModify(req, sports[id].user) {
        return Err(NotAuthorized(req.id));
      }
      sports := sports - {id};
      r := Ok(());
    }

    // ---- models/Review.js ----

    /** getAverageRating: aggregate, then write `obj[0].averageRating` onto the
        event inside a `try` whose `catch` only logs. */
    method GetAverageRating(eventId: Id)
      requires Valid()
      modifies this`events
      ensures Valid()
      ensures events == Recompute(old(events), reviews, eventId)
    {
      RecomputeKeepsEventsOk(events, reviews, eventId, services.isEmail);
      var obj := AverageRatingGroups(reviews, eventId);
      if |obj| == 0 {
        // `obj[0]` is undefined: the TypeError is caught and logged
        return;
      }
      if eventId in events {
        events := events[eventId := events[eventId].(averageRating := Some(obj[0].averageRating))];
      }
    }

    /** `Review.create(body)`: the insert, then the post('save') hook
        recomputes the reviewed event's average. */
    method SaveReview(body: ReviewFields, newId: Id, now: int) returns (r: Result<Review, Error>)
      requires Valid() && newId !in reviews
      modifies this`reviews, this`events
      ensures Valid()
      ensures r.Err? ==> reviews == old(reviews) && events == old(events)
      ensures r.Ok? <==> ReviewConforms(body) && !PairTaken(old(reviews), body.event.value, body.user.value)
      ensures !ReviewConforms(body) ==> r == Err(ValidationFailed(ReviewViolations(body)))
      ensures ReviewConforms(body) && PairTaken(old(reviews), body.event.value, body.user.value) ==> r == Err(DuplicateKey)
      ensures r.Ok? ==> r.value == NewReview(body, now) && reviews == old(reviews)[newId := r.value]
      ensures r.Ok? ==> events == Recompute(old(events), reviews, body.event.value)
    {
      r := InsertReview(body, newId, now);
      if r.Ok? {
        GetAverageRating(r.value.event);
      }
    }

    /** The insert of `Review.create(body)`: validation, then the unique
        (event, user) index. */
    method InsertReview(body: ReviewFields, newId: Id, now: int) returns (r: Result<Review, Error>)
      requires Valid() && newId !in reviews
      modifies this`reviews
      ensures Valid()
      ensures r.Err? ==> reviews == old(reviews)
      ensures !ReviewConforms(body) ==> r == Err(ValidationFailed(ReviewViolations(body)))
      ensures ReviewConforms(body) && PairTaken(old(reviews), body.event.value, body.user.value) ==> r == Err(DuplicateKey)
      ensures r.Ok? <==> ReviewConforms(body) && !PairTaken(old(reviews), body.event.value, body.user.value)
      ensures r.Ok? ==> r.value == NewReview(body, now) && reviews == old(reviews)[newId := r.value]
    {
      var errs := ReviewViolations(body);
      if errs != [] {
        return Err(ValidationFailed(errs));
      }
      var review := NewReview(body, now);
      if PairTaken(reviews, review.event, review.user) {
        return Err(DuplicateKey);
      }
      InsertKeepsUniquePairs(reviews, newId, review);
      reviews := reviews[newId := review];
      r := Ok(review);
    }

    /** `review.remove()`, then the post('remove') hook recomputes the event's
        average over the reviews left; when none is left the old average stays. */
    method RemoveReview(id: Id)
      requires Valid() && id in reviews
      modifies this`reviews, this`events
      ensures Valid()
      ensures reviews == old(reviews) - {id}
      ensures events == Recompute(old(events), reviews, old(reviews)[id].event)
      ensures ReviewsOf(reviews, old(reviews)[id].event) == map[] ==> events == old(events)
    {
      var review := reviews[id];
      reviews := reviews - {id};
      GetAverageRating(review.event);
    }
  }
}
