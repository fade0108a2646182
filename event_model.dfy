/** models/Event.js: the Event schema's paths, validators and defaults, the
    document a save works on, and its two pre('save') hooks (slug, geocode). */
module EventModel {
  import opened Common
  import opened Text

  const NameMaxLength := 50
  const DescriptionMaxLength := 500
  const PhoneMaxLength := 20
  const DefaultPhoto := "no-photo.jpg"
  const PointType := "Point"

  /** One candidate of the geocoder's answer, with the fields the hook reads. */
  datatype GeoEntry = GeoEntry(
    latitude: real, longitude: real, formattedAddress: string, streetName: string,
    city: string, stateCode: string, zipcode: string, countryCode: string)

  /** The GeoJSON point stored in `location`. */
  datatype Location = Location(
    kind: string, coordinates: seq<real>, formattedAddress: string, street: string,
    city: string, state: string, zipcode: string, country: string)

  /** What the model calls but does not define: the geocoder (its candidates,
      in order; empty when it finds nothing), `slugify`, the email pattern, and
      MongoDB's `$centerSphere` containment test (point, centre, radius in radians). */
  datatype Services = Services(
    geocode: string -> seq<GeoEntry>,
    slugify: string -> string,
    isEmail: string -> bool,
    within: (seq<real>, seq<real>, real) -> bool)

  /** A stored event. `slug` and `location` are always set by the save hooks;
      `address` is cleared by them and only an update can store one again. */
  datatype Event = Event(
    name: string, slug: string, description: string, date: int,
    address: Option<string>, location: Location, phone: Option<string>,
    email: Option<string>, photo: string, averageRating: Option<real>,
    createdAt: int, user: Id)

  /** The schema paths a request body may carry (to create, or to update with). */
  datatype EventFields = EventFields(
    name: Option<string>, description: Option<string>, date: Option<int>,
    address: Option<string>, phone: Option<string>, email: Option<string>,
    photo: Option<string>, averageRating: Option<real>, user: Option<Id>)

  predicate NameOk(n: string) {
    var t := Trim(n);
    t != [] && Utf16Length(t) <= NameMaxLength
  }

  predicate DescriptionOk(d: string) {
    d != [] && Utf16Length(d) <= DescriptionMaxLength
  }

  predicate AddressOk(a: string) {
    a != []
  }

  predicate PhoneOk(p: string) {
    Utf16Length(p) <= PhoneMaxLength
  }

  /** The `match` validator lets the empty string through. */
  predicate EmailOk(e: string, isEmail: string -> bool) {
    e == [] || isEmail(e)
  }

  /** The validators of the paths that have more than `required`. */
  predicate NamePathOk(b: EventFields, required: bool) {
    Supplied(b.name, required) && (b.name.Some? ==> NameOk(b.name.value))
  }

  predicate DescriptionPathOk(b: EventFields, required: bool) {
    Supplied(b.description, required) && (b.description.Some? ==> DescriptionOk(b.description.value))
  }

  predicate AddressPathOk(b: EventFields, required: bool) {
    Supplied(b.address, required) && (b.address.Some? ==> AddressOk(b.address.value))
  }

  predicate EmailPathOk(b: EventFields, isEmail: string -> bool) {
    b.email.Some? ==> EmailOk(b.email.value, isEmail)
  }

  /** Every validator of EventSchema holds. With `required`, a whole new document
      is checked; without, only the paths present, as the update validators do. */
  predicate EventConforms(b: EventFields, required: bool, isEmail: string -> bool) {
    && NamePathOk(b, required)
    && DescriptionPathOk(b, required)
    && Supplied(b.date, required)
    && AddressPathOk(b, required)
    && (b.phone.Some? ==> PhoneOk(b.phone.value))
    && EmailPathOk(b, isEmail)
    && (b.averageRating.Some? ==> InRatingRange(b.averageRating.value))
    && Supplied(b.user, required)
  }

  /** The paths a ValidationError names, in schema order. */
  function EventViolations(b: EventFields, required: bool, isEmail: string -> bool): (errs: seq<string>)
    ensures errs == [] <==> EventConforms(b, required, isEmail)
  {
    (if NamePathOk(b, required) then [] else ["name"])
    + (if DescriptionPathOk(b, required) then [] else ["description"])
    + (if Supplied(b.date, required) then [] else ["date"])
    + (if AddressPathOk(b, required) then [] else ["address"])
    + (if b.phone.Some? ==> PhoneOk(b.phone.value) then [] else ["phone"])
    + (if EmailPathOk(b, isEmail) then [] else ["email"])
    + (if b.averageRating.Some? ==> InRatingRange(b.averageRating.value) then [] else ["averageRating"])
    + (if Supplied(b.user, required) then [] else ["user"])
  }

  /** What every stored event satisfies. */
  predicate EventOk(e: Event, isEmail: string -> bool) {
    && e.name != [] && Utf16Length(e.name) <= NameMaxLength && Trimmed(e.name)
    && (forall i :: 0 <= i < |e.slug| ==> !IsUpper(e.slug[i]))
    && DescriptionOk(e.description)
    && (e.address.Some? ==> AddressOk(e.address.value))
    && (e.phone.Some? ==> PhoneOk(e.phone.value))
    && (e.email.Some? ==> EmailOk(e.email.value, isEmail))
    && (e.averageRating.Some? ==> InRatingRange(e.averageRating.value))
    && e.location.kind == PointType && |e.location.coordinates| == 2
  }

  /** The unique index on `name`: no two stored events share one. */
  predicate UniqueNames(events: map<Id, Event>) {
    forall j, k :: j in events && k in events && j != k ==> events[j].name != events[k].name
  }

  /** An event other than `id` already holds `name`. */
  predicate NameHeld(events: map<Id, Event>, id: Id, name: string) {
    exists k :: k in events && k != id && events[k].name == name
  }

  /** The events collection: every record well formed, the name index satisfied. */
  predicate EventsOk(events: map<Id, Event>, isEmail: string -> bool) {
    (forall k :: k in events ==> EventOk(events[k], isEmail)) && UniqueNames(events)
  }

  /** Writing a record under `id` (an insert or a replacement) keeps the name
      index satisfied exactly when no other event holds its name. */
  lemma PutKeepsUniqueNames(events: map<Id, Event>, id: Id, e: Event)
    requires UniqueNames(events)
    ensures UniqueNames(events[id := e]) <==> !NameHeld(events, id, e.name)
  {
    var m := events[id := e];
    if NameHeld(events, id, e.name) {
      var k :| k in events && k != id && events[k].name == e.name;
      assert m[k] == events[k] && m[id] == e;
    }
  }

  lemma PutKeepsEventsOk(events: map<Id, Event>, id: Id, e: Event, isEmail: string -> bool)
    requires EventsOk(events, isEmail) && EventOk(e, isEmail) && !NameHeld(events, id, e.name)
    ensures EventsOk(events[id := e], isEmail)
  {
    PutKeepsUniqueNames(events, id, e);
  }

  /** Rewriting an event without renaming it keeps the collection well formed. */
  lemma SameNameKeepsEventsOk(events: map<Id, Event>, id: Id, e: Event, isEmail: string -> bool)
    requires EventsOk(events, isEmail) && EventOk(e, isEmail) && id in events && e.name == events[id].name
    ensures EventsOk(events[id := e], isEmail)
  {
    PutKeepsEventsOk(events, id, e, isEmail);
  }

  /** A stored event's own name is held by no other event, so an update that
      keeps the name never meets the unique index. */
  lemma OwnNameNotHeld(events: map<Id, Event>, id: Id)
    requires UniqueNames(events) && id in events
    ensures !NameHeld(events, id, events[id].name)
  {
  }

  /** A stored event passes its own name and description validators again:
      the `trim` setter leaves its name as it is. */
  lemma StoredEventRevalidates(e: Event, isEmail: string -> bool)
    requires EventOk(e, isEmail)
    ensures Trim(e.name) == e.name && NameOk(e.name) && DescriptionOk(e.description)
  {
    TrimmedFixed(e.name);
  }

  /** `maxlength` counts UTF-16 code units: a name of more than 25 characters
      beyond U+FFFF (26 emoji, say) is refused, though it has at most 50 characters. */
  lemma AstralNameRefused(n: string)
    requires NameMaxLength / 2 < |n| <= NameMaxLength
    requires forall i :: 0 <= i < |n| ==> IsAstral(n[i])
    ensures !NameOk(n)
  {
    assert !IsSpace(n[0]) && !IsSpace(n[|n| - 1]);
    TrimmedFixed(n);
    Utf16LengthAllAstral(n);
    assert Utf16Length(Trim(n)) == 2 * |n|;
  }

  lemma RemoveKeepsEventsOk(events: map<Id, Event>, id: Id, isEmail: string -> bool)
    requires EventsOk(events, isEmail)
    ensures EventsOk(events - {id}, isEmail)
  {
  }

  /** `slugify(name, { lower: true })` */
  function Slug(name: string, slugify: string -> string): (s: string)
    ensures |s| == |slugify(name)|
    ensures forall i :: 0 <= i < |s| ==> !IsUpper(s[i])
    ensures forall i :: 0 <= i < |s| ==> s[i] == LowerChar(slugify(name)[i])
  {
    Lower(slugify(name))
  }

  /** The GeoJSON point the geocode hook builds from the geocoder's first candidate:
      longitude first, then latitude. */
  function PointOf(g: GeoEntry): (l: Location)
    ensures l.kind == PointType && |l.coordinates| == 2
    ensures l.coordinates[0] == g.longitude && l.coordinates[1] == g.latitude
  {
    Location(PointType, [g.longitude, g.latitude], g.formattedAddress, g.streetName,
             g.city, g.stateCode, g.zipcode, g.countryCode)
  }

  /** The paths `required` demands are all present, as they are on any body
      that passed validation for a new document. */
  predicate Complete(b: EventFields) {
    b.name.Some? && b.description.Some? && b.date.Some? && b.address.Some? && b.user.Some?
  }

  /** The record `Event.create(b)` inserts at time `now`: the name trimmed, the
      slug made from it, the address replaced by the geocoder's first candidate
      as a point, the photo defaulted. */
  function SavedEvent(b: EventFields, now: int, s: Services): (e: Event)
    requires Complete(b) && s.geocode(b.address.value) != []
    ensures e.address == None
  {
    var name := Trim(b.name.value);
    Event(name, Slug(name, s.slugify), b.description.value, b.date.value, None,
          PointOf(s.geocode(b.address.value)[0]), b.phone, b.email,
          b.photo.GetOr(DefaultPhoto), b.averageRating, now, b.user.value)
  }

  /** What `Event.create` inserts passes every validator again, with the point
      stored longitude first. */
  lemma SavedEventOk(b: EventFields, now: int, s: Services)
    requires EventConforms(b, true, s.isEmail) && s.geocode(b.address.value) != []
    ensures EventOk(SavedEvent(b, now, s), s.isEmail)
    ensures var g := s.geocode(b.address.value)[0];
      SavedEvent(b, now, s).location.coordinates == [g.longitude, g.latitude]
  {
  }

  /** `findByIdAndUpdate(id, body)`: the paths present in the body replace the
      stored ones (a name through its `trim` setter); no save hook runs. */
  function PatchedEvent(e: Event, p: EventFields): (r: Event)
    ensures r.slug == e.slug && r.location == e.location && r.createdAt == e.createdAt
    ensures p == EventFields(None, None, None, None, None, None, None, None, None) ==> r == e
  {
    e.(name := if p.name.Some? then Trim(p.name.value) else e.name,
       description := p.description.GetOr(e.description),
       date := p.date.GetOr(e.date),
       address := if p.address.Some? then p.address else e.address,
       phone := if p.phone.Some? then p.phone else e.phone,
       email := if p.email.Some? then p.email else e.email,
       photo := p.photo.GetOr(e.photo),
       averageRating := if p.averageRating.Some? then p.averageRating else e.averageRating,
       user := p.user.GetOr(e.user))
  }

  /** An update that passes the update validators keeps a stored event well formed. */
  lemma PatchKeepsEventOk(e: Event, p: EventFields, isEmail: string -> bool)
    requires EventOk(e, isEmail) && EventConforms(p, false, isEmail)
    ensures EventOk(PatchedEvent(e, p), isEmail)
  {
  }

  /** A document between `new Event(body)` and its insertion: the fields the
      pre('save') hooks rewrite in place. */
  class EventDocument {
    var name: string
    var slug: Option<string>
    var description: string
    var date: int
    var address: Option<string>
    var location: Option<Location>
    var phone: Option<string>
    var email: Option<string>
    var photo: string
    var averageRating: Option<real>
    var createdAt: int
    var user: Id

    /** Casting the body: the `trim` setter on name, the defaults of photo and createdAt. */
    constructor (b: EventFields, now: int)
      requires Complete(b)
      ensures name == Trim(b.name.value) && description == b.description.value && date == b.date.value
      ensures address == b.address && slug == None && location == None
      ensures phone == b.phone && email == b.email && averageRating == b.averageRating
      ensures photo == b.photo.GetOr(DefaultPhoto) && createdAt == now && user == b.user.value
    {
      name := Trim(b.name.value);
      slug := None;
      description := b.description.value;
      date := b.date.value;
      address := b.address;
      location := None;
      phone := b.phone;
      email := b.email;
      photo := b.photo.GetOr(DefaultPhoto);
      averageRating := b.averageRating;
      createdAt := now;
      user := b.user.value;
    }

    /** The first pre('save') hook: the slug is recomputed from the current name. */
    method SlugHook(slugify: string -> string)
      modifies this`slug
      ensures slug == Some(Slug(name, slugify))
    {
      slug := Some(Slug(name, slugify));
    }

    /** The second pre('save') hook: geocode the address, store the first
        candidate as a GeoJSON point, clear the address. With no candidate,
        `loc[0]` is undefined and the hook throws before writing anything.
        Validation runs before the hooks, so the address is present. */
    method GeocodeHook(geocode: string -> seq<GeoEntry>) returns (ok: bool)
      requires address.Some?
      modifies this`location, this`address
      ensures ok <==> geocode(old(address).value) != []
      ensures ok ==> location == Some(PointOf(geocode(old(address).value)[0])) && address == None
      ensures !ok ==> location == old(location) && address == old(address)
    {
      var loc := geocode(address.value);
      if loc == [] {
        return false;
      }
      location := Some(PointOf(loc[0]));
      address := None;
      ok := true;
    }

    /** The record the insert writes. */
    function Record(): Event
      reads this
      requires slug.Some? && location.Some?
    {
      Event(name, slug.value, description, date, address, location.value, phone, email,
            photo, averageRating, createdAt, user)
    }
  }

  /** `new Event(b)` followed by the pre('save') hooks in their order: the record
      the insert will write, or the geocoder's failure. */
  method RunSaveHooks(b: EventFields, now: int, s: Services) returns (r: Result<Event, Error>)
    requires Complete(b)
    ensures s.geocode(b.address.value) == [] ==> r == Err(GeocodeNoResult)
    ensures s.geocode(b.address.value) != [] ==> r == Ok(SavedEvent(b, now, s))
  {
    var doc := new EventDocument(b, now);
    doc.SlugHook(s.slugify);
    var located := doc.GeocodeHook(s.geocode);
    r := if located then Ok(doc.Record()) else Err(GeocodeNoResult);
  }
}
