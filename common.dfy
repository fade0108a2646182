/** Vocabulary shared by the controllers and the Mongoose models: identifiers,
    requesters and their roles, the errors a handler can end with, and the
    listing a `find` query returns. */
module Common {

  datatype Option<+T> = None | Some(value: T) {
    /** The value, or `default` when the path was not supplied (a schema default) */
    function GetOr(default: T): T {
      match this
      case Some(v) => v
      case None => default
    }
  }

  datatype Result<+T, +E> = Ok(value: T) | Err(error: E)

  /** A document id or user id in its string form: what `event.user.toString()`,
      `event._id` and `req.user.id` give. */
  type Id = string

  /** The roles the authentication middleware attaches to `req.user`. */
  datatype Role = User | Publisher | Admin

  datatype Requester = Requester(id: Id, role: Role)

  /** The route gate `authorize('publisher', 'admin')` in front of every mutating route. */
  predicate MayPublish(r: Requester) {
    r.role == Publisher || r.role == Admin
  }

  /** The ownership test every mutating handler makes: the requester owns the
      record or is an admin. */
  predicate MayModify(r: Requester, owner: Id) {
    owner == r.id || r.role == Admin
  }

  /** An admin may modify any record; anyone else only the records they own. */
  lemma ModifyRule(r: Requester, owner: Id)
    ensures r.role == Admin ==> MayModify(r, owner)
    ensures r.role != Admin ==> (MayModify(r, owner) <==> owner == r.id)
  {
  }

  /** How a handler or a model operation can fail. */
  datatype Error =
    | NotFound(id: Id)                       // ErrorResponse(..., 404)
    | NotAuthorized(user: Id)                // ErrorResponse(..., 401)
    | AlreadyPublished(user: Id)             // ErrorResponse(..., 400)
    | NoFileUploaded                         // ErrorResponse('Please upload a file', 400)
    | NotAnImage                             // ErrorResponse('Please upload an image file', 400)
    | FileTooLarge(limit: nat)               // ErrorResponse('Please upload an image less than ...', 400)
    | FileMoveFailed                         // ErrorResponse('Problem with file upload', 500)
    | MissingFileField                       // `req.files.file` undefined: a TypeError
    | GeocodeNoResult                        // `loc[0]` undefined: a TypeError
    | ValidationFailed(paths: seq<string>)   // Mongoose ValidationError, listing the failing paths
    | DuplicateKey                           // MongoDB E11000 from a unique index

  /** The HTTP status the handler itself attaches; errors raised by Mongoose or
      by a TypeError get theirs from the error middleware, which is not modelled. */
  function Status(e: Error): Option<nat> {
    match e
    case NotFound(_) => Some(404)
    case NotAuthorized(_) => Some(401)
    case AlreadyPublished(_) => Some(400)
    case NoFileUploaded => Some(400)
    case NotAnImage => Some(400)
    case FileTooLarge(_) => Some(400)
    case FileMoveFailed => Some(500)
    case _ => None
  }

  const RatingMin: real := 1.0
  const RatingMax: real := 10.0

  /** The `min: 1, max: 10` validators on Review.rating and Event.averageRating. */
  predicate InRatingRange(x: real) {
    RatingMin <= x <= RatingMax
  }

  /** The `required` validator of one schema path: an absent value is
      acceptable only when the path is not required here. */
  predicate Supplied<T>(v: Option<T>, required: bool) {
    v.Some? || !required
  }

  /** The JSON answer of a `find`: the ids of the matching documents, the
      documents themselves in the same order, and their count. */
  datatype Listing<V> = Listing(count: nat, ids: seq<Id>, data: seq<V>)

  /** `l` lists every document of `m` that satisfies `p`, each once, and no other. */
  ghost predicate ListsExactly<V>(l: Listing<V>, m: map<Id, V>, p: V -> bool) {
    && l.count == |l.ids| == |l.data|
    && (forall i, j :: 0 <= i < j < |l.ids| ==> l.ids[i] != l.ids[j])
    && (forall k :: k in l.ids <==> k in m && p(m[k]))
    && (forall i :: 0 <= i < |l.ids| ==> l.ids[i] in m && l.data[i] == m[l.ids[i]])
  }

  /** A query `Model.find(filter)` over one collection. */
  method Select<V>(m: map<Id, V>, p: V -> bool) returns (l: Listing<V>)
    ensures ListsExactly(l, m, p)
  {
    var ids: seq<Id> := [];
    var data: seq<V> := [];
    var pending := m.Keys;
    while pending != {}
      invariant pending <= m.Keys
      invariant |data| == |ids|
      invariant forall i, j :: 0 <= i < j < |ids| ==> ids[i] != ids[j]
      invariant forall i :: 0 <= i < |ids| ==> ids[i] in m && ids[i] !in pending && data[i] == m[ids[i]]
      invariant forall k :: k in ids <==> k in m && k !in pending && p(m[k])
      decreases pending
    {
      var k :| k in pending;
      if p(m[k]) {
        ids := ids + [k];
        data := data + [m[k]];
      }
      pending := pending - {k};
    }
    l := Listing(|ids|, ids, data);
  }
}
