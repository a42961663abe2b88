/**
 * The review handlers of controllers/reviews.js over an in-memory Review
 * collection (a map from review id to document) and the set of existing
 * bootcamp ids. Each handler either answers with a JSON success envelope or
 * passes an error to `next`, which middleware/error.js turns into a reply.
 */
module ReviewsController {
  import opened Wrappers
  import opened ErrorMiddleware

  type ReviewId = string
  type BootcampId = string
  type UserId = string

  /** The roles of the user schema; only `admin` matters to these handlers. */
  datatype Role = UserRole | Publisher | Admin

  /** `req.user` as left by the authentication middleware. */
  datatype Actor = Actor(id: UserId, role: Role)

  /**
   * The fields of a document or body other than `user` and `bootcamp`
   * (title, text, rating, ...): a JavaScript object has one value per key, so
   * those two keys live only in their own components.
   */
  type OtherFields = m: map<string, string> | "user" !in m && "bootcamp" !in m witness map[]

  /** A review document: its owner, its bootcamp and its other fields. */
  datatype Review = Review(user: UserId, bootcamp: BootcampId, fields: OtherFields)

  /** `req.body`: a client may send `bootcamp` and `user` as well as the other fields. */
  datatype Payload = Payload(bootcamp: Option<BootcampId>, user: Option<UserId>, fields: OtherFields)

  /** The `data` (and `count`) of a success envelope. */
  datatype Data =
    | ReviewList(count: nat, items: map<ReviewId, Review>)
    | OneReview(review: Review)
    | NoData
    | AdvancedResults   // `res.advancedResults`, built by middleware that is not part of this model

  /** A handler's result: `res.status(status).json({ success: true, ... })` or `next(err)`. */
  datatype Reply = Json(status: int, data: Data) | Next(err: ErrorRecord)

  /** A handler's reply together with the Review collection it leaves behind. */
  datatype Outcome = Outcome(reply: Reply, reviews: map<ReviewId, Review>)

  /** The HTTP status the client finally receives, after the error middleware for `next(err)`. */
  function StatusOf(reply: Reply): (status: int)
    ensures reply.Next? ==> status == ErrorHandler(reply.err).status
    ensures reply.Json? ==> status == reply.status
  {
    match reply
    case Json(status, _) => status
    case Next(err) => ErrorHandler(err).status
  }

  /** The error text the client receives for `next(err)`. */
  function ErrorTextOf(reply: Reply): (text: string)
    requires reply.Next?
    ensures text != ""
  {
    ErrorHandler(reply.err).body.error
  }

  function NotFoundError(id: ReviewId): (e: ErrorRecord)
    ensures ErrorHandler(e).status == 404
    ensures ErrorHandler(e).body.error == "No review found for id : " + id
  {
    ErrorResponse("No review found for id : " + id, Some(404))
  }

  function NotAuthorisedError(): (e: ErrorRecord)
    ensures ErrorHandler(e).status == 401
    ensures ErrorHandler(e).body.error == "You are not authorized to update this review"
  {
    ErrorResponse("You are not authorized to update this review", Some(401))
  }

  /** The error `addReview` builds for a missing bootcamp, as written: the 404 goes to `next`, not to `errorResponse`. */
  function MissingBootcampError(bootcampId: BootcampId): (e: ErrorRecord)
    ensures e.statusCode.None?
  {
    ErrorResponse("No bootcamp with the id of " + bootcampId, None)
  }

  /** The same error with the status code evidently intended for it. */
  function IntendedMissingBootcampError(bootcampId: BootcampId): (e: ErrorRecord)
    ensures e.statusCode == Some(404)
  {
    ErrorResponse("No bootcamp with the id of " + bootcampId, Some(404))
  }

  /** The ownership guard: the requester owns the review or is an admin. */
  function Authorised(review: Review, actor: Actor): (ok: bool)
    // the source rejects when the requester is not the owner and not an admin
    ensures !ok <==> review.user != actor.id && actor.role != Admin
    // so an admin may act on any review, and an owner on their own whatever their role
    ensures actor.role == Admin ==> ok
    ensures actor.id == review.user ==> ok
  {
    review.user == actor.id || actor.role == Admin
  }

  /** The reviews of bootcamp `b` (`Review.find({ bootcamp })`). */
  function ReviewsOf(reviews: map<ReviewId, Review>, b: BootcampId): (r: map<ReviewId, Review>)
    ensures forall id :: id in r <==> id in reviews && reviews[id].bootcamp == b
    ensures forall id :: id in r ==> r[id] == reviews[id]
  {
    map id | id in reviews && reviews[id].bootcamp == b :: reviews[id]
  }

  /** `req.body` after `addReview` overwrites `bootcamp` and `user` from the route and the session. */
  function Stamped(body: Payload, bootcampId: BootcampId, actor: Actor): (p: Payload)
    ensures p.bootcamp == Some(bootcampId) && p.user == Some(actor.id) && p.fields == body.fields
  {
    body.(bootcamp := Some(bootcampId), user := Some(actor.id))
  }

  /** `Review.create(body)` for a body that names its bootcamp and user. */
  function Created(body: Payload): (r: Review)
    requires body.bootcamp.Some? && body.user.Some?
    // the document stores the body's bootcamp, user and other fields as sent
    ensures Some(r.bootcamp) == body.bootcamp && Some(r.user) == body.user && r.fields == body.fields
  {
    Review(body.user.value, body.bootcamp.value, body.fields)
  }

  /** `findByIdAndUpdate(id, body, { new: true })`: every field the body sends replaces the stored one. */
  function Updated(review: Review, body: Payload): (r: Review)
    ensures body.user.Some? ==> r.user == body.user.value
    ensures body.user.None? ==> r.user == review.user
    ensures body.bootcamp.Some? ==> r.bootcamp == body.bootcamp.value
    ensures body.bootcamp.None? ==> r.bootcamp == review.bootcamp
    ensures r.fields.Keys == review.fields.Keys + body.fields.Keys
    ensures forall k :: k in r.fields ==> r.fields[k] == if k in body.fields then body.fields[k] else review.fields[k]
  {
    Review(body.user.GetOr(review.user), body.bootcamp.GetOr(review.bootcamp), review.fields + body.fields)
  }

  /** `addReview`: the bootcamp check, then creation under the fresh id. */
  function AddOutcome(reviews: map<ReviewId, Review>, bootcamps: set<BootcampId>, bootcampId: BootcampId,
                      actor: Actor, body: Payload, freshId: ReviewId): (o: Outcome)
    // a create adds at most the fresh id and never touches an existing review
    ensures reviews.Keys <= o.reviews.Keys <= reviews.Keys + {freshId}
    ensures forall k :: k in reviews && k != freshId ==> o.reviews[k] == reviews[k]
  {
    var stamped := Stamped(body, bootcampId, actor);
    if bootcampId !in bootcamps then Outcome(Next(MissingBootcampError(bootcampId)), reviews)
    else
      var review := Created(stamped);
      Outcome(Json(201, OneReview(review)), reviews[freshId := review])
  }

  /** `updateReview`: the not-found check, then the ownership check, then the update. */
  function UpdateOutcome(reviews: map<ReviewId, Review>, id: ReviewId, actor: Actor, body: Payload): (o: Outcome)
    // an update neither adds nor removes reviews, and touches at most the one it names
    ensures o.reviews.Keys == reviews.Keys
    ensures forall k :: k in reviews && k != id ==> o.reviews[k] == reviews[k]
  {
    if id !in reviews then Outcome(Next(NotFoundError(id)), reviews)
    else if !Authorised(reviews[id], actor) then Outcome(Next(NotAuthorisedError()), reviews)
    else
      var review := Updated(reviews[id], body);
      Outcome(Json(200, OneReview(review)), reviews[id := review])
  }

  /** `deleteReview`: the not-found check, then the ownership check, then the removal. */
  function DeleteOutcome(reviews: map<ReviewId, Review>, id: ReviewId, actor: Actor): (o: Outcome)
    // a delete removes at most the review it names and leaves the rest as they were
    ensures reviews.Keys - {id} <= o.reviews.Keys <= reviews.Keys
    ensures forall k :: k in o.reviews ==> o.reviews[k] == reviews[k]
  {
    if id !in reviews then Outcome(Next(NotFoundError(id)), reviews)
    else if !Authorised(reviews[id], actor) then Outcome(Next(NotAuthorisedError()), reviews)
    else Outcome(Json(200, NoData), reviews - {id})
  }

  /** The Review collection and the Bootcamp ids the handlers consult. */
  class ReviewCollection {
    var reviews: map<ReviewId, Review>
    var bootcamps: set<BootcampId>

    constructor (reviews: map<ReviewId, Review>, bootcamps: set<BootcampId>)
      ensures this.reviews == reviews && this.bootcamps == bootcamps
    {
      this.reviews := reviews;
      this.bootcamps := bootcamps;
    }

    /** `getReviews`: with a `bootcampId` route parameter, that bootcamp's reviews and their count. */
    method GetReviews(bootcampId: Option<BootcampId>) returns (reply: Reply)
      ensures bootcampId.Some? && bootcampId.value != "" ==>
                && reply.Json? && reply.status == 200 && reply.data.ReviewList?
                && (forall id :: id in reply.data.items <==> id in reviews && reviews[id].bootcamp == bootcampId.value)
                && (forall id :: id in reply.data.items ==> reply.data.items[id] == reviews[id])
                && reply.data.count == |reply.data.items|
      ensures !(bootcampId.Some? && bootcampId.value != "") ==> reply == Json(200, AdvancedResults)
    {
      if bootcampId.Some? && bootcampId.value != "" {
        var found := ReviewsOf(reviews, bootcampId.value);
        return Json(200, ReviewList(|found|, found));
      } else {
        reply := Json(200, AdvancedResults);
      }
    }

    /** `getReview`: the review with that id, or a 404. */
    method GetReview(id: ReviewId) returns (reply: Reply)
      ensures id in reviews ==> reply == Json(200, OneReview(reviews[id]))
      ensures id !in reviews ==> reply.Next? && StatusOf(reply) == 404 && ErrorTextOf(reply) == "No review found for id : " + id
    {
      if id !in reviews {
        return Next(NotFoundError(id));
      }
      return Json(200, OneReview(reviews[id]));
    }

    /** `addReview`, with the id the database assigns to the new document. */
    method AddReview(bootcampId: BootcampId, actor: Actor, body: Payload, freshId: ReviewId) returns (reply: Reply)
      requires freshId !in reviews
      modifies this`reviews
      ensures Outcome(reply, reviews) == AddOutcome(old(reviews), bootcamps, bootcampId, actor, body, freshId)
    {
      var req := Stamped(body, bootcampId, actor);
      if bootcampId !in bootcamps {
        return Next(MissingBootcampError(bootcampId));
      }
      var review := Created(req);
      reviews := reviews[freshId := review];
      reply := Json(201, OneReview(review));
    }

    /** `updateReview`. */
    method UpdateReview(id: ReviewId, actor: Actor, body: Payload) returns (reply: Reply)
      modifies this`reviews
      ensures Outcome(reply, reviews) == UpdateOutcome(old(reviews), id, actor, body)
    {
      if id !in reviews {
        return Next(NotFoundError(id));
      }
      var review := reviews[id];
      if !Authorised(review, actor) {
        return Next(NotAuthorisedError());
      }
      review := Updated(review, body);
      reviews := reviews[id := review];
      reply := Json(200, OneReview(review));
    }

    /** `deleteReview`. */
    method DeleteReview(id: ReviewId, actor: Actor) returns (reply: Reply)
      modifies this`reviews
      ensures Outcome(reply, reviews) == DeleteOutcome(old(reviews), id, actor)
    {
      if id !in reviews {
        return Next(NotFoundError(id));
      }
      var review := reviews[id];
      if !Authorised(review, actor) {
        return Next(NotAuthorisedError());
      }
      reviews := reviews - {id};
      reply := Json(200, NoData);
    }
  }

  /**
   * An absent id is a 404 with the not-found message for update and delete,
   * whoever asks: the not-found check comes first, so it is never a 401.
   */
  lemma AbsentReviewIsNotFound(reviews: map<ReviewId, Review>, id: ReviewId, actor: Actor, body: Payload)
    requires id !in reviews
    ensures var u := UpdateOutcome(reviews, id, actor, body);
            StatusOf(u.reply) == 404 && ErrorTextOf(u.reply) == "No review found for id : " + id && u.reviews == reviews
    ensures var d := DeleteOutcome(reviews, id, actor);
            StatusOf(d.reply) == 404 && ErrorTextOf(d.reply) == "No review found for id : " + id && d.reviews == reviews
  {
  }

  /** A requester who neither owns the review nor is an admin gets a 401 and changes nothing. */
  lemma NotAuthorisedIsRejected(reviews: map<ReviewId, Review>, id: ReviewId, actor: Actor, body: Payload)
    requires id in reviews && reviews[id].user != actor.id && actor.role != Admin
    ensures var u := UpdateOutcome(reviews, id, actor, body);
            StatusOf(u.reply) == 401 && u.reviews == reviews
    ensures var d := DeleteOutcome(reviews, id, actor);
            StatusOf(d.reply) == 401 && d.reviews == reviews
  {
  }

  /** The collection changes only when the review exists and the requester is its owner or an admin. */
  lemma OnlyAuthorisedRequestsChangeReviews(reviews: map<ReviewId, Review>, id: ReviewId, actor: Actor, body: Payload)
    ensures UpdateOutcome(reviews, id, actor, body).reviews != reviews ==> id in reviews && Authorised(reviews[id], actor)
    ensures DeleteOutcome(reviews, id, actor).reviews != reviews ==> id in reviews && Authorised(reviews[id], actor)
    ensures StatusOf(UpdateOutcome(reviews, id, actor, body).reply) == 200 <==> id in reviews && Authorised(reviews[id], actor)
    ensures StatusOf(DeleteOutcome(reviews, id, actor).reply) == 200 <==> id in reviews && Authorised(reviews[id], actor)
  {
  }

  /** An authorised delete removes exactly that review and answers 200 with empty data. */
  lemma AuthorisedDeleteRemovesOnlyThatReview(reviews: map<ReviewId, Review>, id: ReviewId, actor: Actor)
    requires id in reviews && Authorised(reviews[id], actor)
    ensures var d := DeleteOutcome(reviews, id, actor);
            && d.reply == Json(200, NoData)
            && d.reviews.Keys == reviews.Keys - {id}
            && forall k :: k in d.reviews ==> d.reviews[k] == reviews[k]
  {
  }

  /** An authorised update rewrites only that review and answers 200 with the updated document. */
  lemma AuthorisedUpdateRewritesOnlyThatReview(reviews: map<ReviewId, Review>, id: ReviewId, actor: Actor, body: Payload)
    requires id in reviews && Authorised(reviews[id], actor)
    ensures var u := UpdateOutcome(reviews, id, actor, body);
            && u.reply == Json(200, OneReview(u.reviews[id]))
            && u.reviews.Keys == reviews.Keys
            && u.reviews[id] == Updated(reviews[id], body)
            && forall k :: k in reviews && k != id ==> u.reviews[k] == reviews[k]
  {
  }

  /**
   * A created review belongs to the route's bootcamp and the session's user,
   * whatever `bootcamp` and `user` the client sent; success is a 201.
   */
  lemma AddIgnoresClientOwnership(reviews: map<ReviewId, Review>, bootcamps: set<BootcampId>, bootcampId: BootcampId,
                                  actor: Actor, body: Payload, forged: Payload, freshId: ReviewId)
    requires bootcampId in bootcamps && forged.fields == body.fields
    ensures var a := AddOutcome(reviews, bootcamps, bootcampId, actor, body, freshId);
            && a == AddOutcome(reviews, bootcamps, bootcampId, actor, forged, freshId)
            && a.reply.Json? && a.reply.status == 201
            && a.reviews == reviews[freshId := Review(actor.id, bootcampId, body.fields)]
  {
  }

  /**
   * A review for a missing bootcamp creates nothing, and because the 404 is
   * not part of the error, the client receives a 500.
   */
  lemma AddForMissingBootcampIs500(reviews: map<ReviewId, Review>, bootcamps: set<BootcampId>, bootcampId: BootcampId,
                                   actor: Actor, body: Payload, freshId: ReviewId)
    requires bootcampId !in bootcamps
    ensures var a := AddOutcome(reviews, bootcamps, bootcampId, actor, body, freshId);
            && a.reviews == reviews
            && StatusOf(a.reply) == 500
            && ErrorTextOf(a.reply) == "No bootcamp with the id of " + bootcampId
  {
  }

  /** With the status code where it was meant to go, the same request is a 404. */
  lemma IntendedMissingBootcampIs404(bootcampId: BootcampId)
    ensures ErrorHandler(IntendedMissingBootcampError(bootcampId)).status == 404
    ensures ErrorHandler(IntendedMissingBootcampError(bootcampId)).body.error == "No bootcamp with the id of " + bootcampId
  {
  }

  /** After a successful create, listing the bootcamp's reviews shows the new one beside the old ones. */
  lemma AddedReviewIsListed(reviews: map<ReviewId, Review>, bootcamps: set<BootcampId>, bootcampId: BootcampId,
                            actor: Actor, body: Payload, freshId: ReviewId, other: BootcampId)
    requires bootcampId in bootcamps && freshId !in reviews && other != bootcampId
    ensures var after := AddOutcome(reviews, bootcamps, bootcampId, actor, body, freshId).reviews;
            && ReviewsOf(after, bootcampId) == ReviewsOf(reviews, bootcampId)[freshId := Review(actor.id, bootcampId, body.fields)]
            && |ReviewsOf(after, bootcampId)| == |ReviewsOf(reviews, bootcampId)| + 1
            && ReviewsOf(after, other) == ReviewsOf(reviews, other)
  {
    var r := Review(actor.id, bootcampId, body.fields);
    assert AddOutcome(reviews, bootcamps, bootcampId, actor, body, freshId).reviews == reviews[freshId := r];
    ListingAfterInsert(reviews, freshId, r, bootcampId);
    ListingAfterInsert(reviews, freshId, r, other);
  }

  lemma ListingAfterInsert(reviews: map<ReviewId, Review>, k: ReviewId, r: Review, b: BootcampId)
    requires k !in reviews
    ensures r.bootcamp == b ==> ReviewsOf(reviews[k := r], b) == ReviewsOf(reviews, b)[k := r]
    ensures r.bootcamp == b ==> |ReviewsOf(reviews[k := r], b)| == |ReviewsOf(reviews, b)| + 1
    ensures r.bootcamp != b ==> ReviewsOf(reviews[k := r], b) == ReviewsOf(reviews, b)
  {
    var before := ReviewsOf(reviews, b);
    var after := ReviewsOf(reviews[k := r], b);
    if r.bootcamp == b {
      assert after == before[k := r];
      assert k !in before;
    } else {
      assert after == before;
    }
  }
}
