# DevCamper API: average cost, review access rules and the error envelope

A Dafny model of the three pieces of logic the DevCamper REST API writes itself,
with the database replaced by in-memory collections:

- **Average-cost maintenance** (`models/Course.js`). `getAverageCost(bootcampId)`
  aggregates the tuitions of the courses of one bootcamp, takes `ceil(mean / 10) * 10`
  and writes it to that bootcamp's `averageCost`. It runs after a course is saved and
  before a course is removed. The rounding is the pure module `AverageCost`, computed
  exactly on integers (`ceil(sum / (10 n)) * 10`); the store is the class
  `CourseModel.Store`, with the Course collection as a sequence of documents with unique
  ids and the Bootcamp collection as a map.
- **Review handlers** (`controllers/reviews.js`). The class
  `ReviewsController.ReviewCollection` holds the Review collection as a map and the set of
  bootcamp ids; `getReviews`, `getReview`, `addReview`, `updateReview` and `deleteReview`
  are its methods. Each returns a `Reply`: a success envelope with its status, or the
  error handed to `next`. The state-changing handlers are specified by the functions
  `AddOutcome`, `UpdateOutcome` and `DeleteOutcome`, and the lemmas beside them state the
  access rules: the not-found check comes before the ownership check, only the owner or an
  admin may update or delete, and a create takes its bootcamp and user from the route and
  the session.
- **Error envelope** (`middleware/error.js`). `ErrorMiddleware.ErrorHandler` maps an
  error record `(name, message, statusCode?)` to the status and the body
  `{ success: false, error }`. `ReviewsController.StatusOf` applies it to a handler's
  `next(err)`, so lemmas about the handlers can speak of the status the client receives.

Modelling choices:

- `utils/errorResponse` is not part of this model. It is taken to be a subclass of `Error`
  that stores its message and the status code it is given, so `new errorResponse(m, c)` is
  `ErrorRecord("Error", m, c)`.
- JavaScript truthiness is written out: a status code is falsy when absent or 0, and a
  message is falsy when empty.
- The course schema in `models/Course.js:3-33` declares no `tuition` field. It is a copy of
  the review schema. A course is modelled as `(id, bootcamp, tuition)`, with the tuition
  taken as data, as the aggregation at `models/Course.js:45` expects.
- `course.save()` is modelled as an upsert. A new document is appended and a known id is
  replaced. `course.remove()` takes the document it is called on. Its hook reads that
  document's `bootcamp`, and the deletion removes the stored document with the same id.
- `req.user` is an input `Actor(id, role)`. `req.body` is a `Payload` with optional
  `bootcamp` and `user` and the remaining fields. `findByIdAndUpdate` applies every field
  the schema declares, `user` and `bootcamp` included, so an update may also change a review's `user` or `bootcamp`, exactly as
  the code does.
- A body or document is split into `user`, `bootcamp` and the other fields. The type of
  the other fields excludes those two keys, as a JavaScript object holds one value per key.
- The id that `Review.create` gives the new document is a parameter required to be fresh.

## Model

| member | source | states |
|---|---|---|
| `ErrorMiddleware.ErrorHandler` | middleware/error.js:3-21 | The body always has `success: false`, a non-empty error text and a non-zero status. A CastError gives 404 with "Error, resource not found". Any other error keeps a truthy status code, else 500. It keeps a non-empty message, else "Server Error". |
| `ErrorMiddleware.Normalised` | middleware/error.js:4-14 | The local `error` keeps err's message and status code, the only fields the reply reads, unless the name is CastError. A CastError is replaced by a 404 error with the not-found message. |
| `ErrorMiddleware.ErrorResponse` | controllers/reviews.js:38-39 | `new errorResponse(m, c)` carries message `m` and status code `c`, and is never taken for a CastError. |
| `ErrorMiddleware.Truthy` | middleware/error.js:17 | The `||` test on the status code: an absent code is falsy, and a present one is truthy exactly when it is non-zero. |
| `ErrorMiddleware.CastErrorsAreIndistinguishable` | middleware/error.js:11-14 | Any two CastErrors get one and the same reply, whatever their messages and status codes. |
| `ErrorMiddleware.MessageKeptUnlessCastError` | middleware/error.js:6-19 | A non-empty message reaches the client exactly when the error is not a CastError (or already carries the not-found text). |
| `ErrorMiddleware.ReplyIsStable` | middleware/error.js:17-20 | Re-raising a reply's text and status as an `errorResponse` gives back the same reply. |
| `AverageCost.Sum` | models/Course.js:45 | The total behind `$avg`: non-negative when every tuition is, and the one tuition itself for a single course. |
| `AverageCost.IsRoundedMean` | models/Course.js:53 | The rule for the written value: a multiple of 10 at or above the mean. The next multiple of 10 down is already below it: `(v-10)·n < sum <= v·n`. |
| `AverageCost.CeilDiv` | models/Course.js:53 | The integer ceiling `q` of `a / b` satisfies `(q-1)·b < a <= q·b`. |
| `AverageCost.RoundedAverage` | models/Course.js:53 | The written value is a multiple of 10 with `sum <= v·n < sum + 10·n`, that is, `mean <= v < mean + 10`. |
| `AverageCost.RoundedAverageBracketsMean` | models/Course.js:45-53 | The same bounds against the real-valued mean tuition: `mean <= v < mean + 10`. |
| `AverageCost.RoundedAverageIsLeast` | models/Course.js:53 | No multiple of 10 that is at least the mean is smaller than the written value. |
| `AverageCost.RoundedMeanIsUnique` | models/Course.js:53 | Only one value is a multiple of 10 within `[mean, mean + 10)`, so the rule fixes the written value. |
| `AverageCost.ThreeCoursesExample` | models/Course.js:38-53 | Tuitions 100, 200 and 300 give an average cost of 200. |
| `AverageCost.RoundsUpNotToNearest` | models/Course.js:53 | A single tuition of 101 gives 110: the rounding goes up, not to the nearest value. |
| `AverageCost.ExactMeanIsKept` | models/Course.js:53 | A mean that is already a multiple of 10 is written unchanged. |
| `CourseModel.Tuitions` | models/Course.js:38-46 | The `$match` stage keeps the bootcamp's tuitions. The result is empty exactly when no course belongs to that bootcamp. |
| `CourseModel.AverageFor` | models/Course.js:38-53 | There is no aggregate exactly when no course matches. Otherwise the aggregate is the rounded mean of the matching tuitions. |
| `CourseModel.Recomputed` | models/Course.js:51-58 | Only bootcamp `b` may change, and only its `averageCost`: every other bootcamp and every other field stay as they were. With matching courses, `b` gets their rounded mean. With none, the TypeError is caught and nothing is written. |
| `CourseModel.IndexOf` | models/Course.js:62-68 | The position of the document with the given id, the first one if several match, or -1 when no document has it. |
| `CourseModel.Upsert` | models/Course.js:62-64 | After `course.save()`, looking up the course's id finds exactly the saved course. A stored id is replaced in place and the length stays the same. A new id is appended as the last document. Every other position keeps its document. |
| `CourseModel.RemoveAt` | models/Course.js:66-68 | After `course.remove()`, the collection is the old one minus exactly that document as a multiset, with the others in their old order. |
| `CourseModel.Store.Recompute` | models/Course.js:36-59 | `getAverageCost(b)` leaves the Bootcamp collection as `Recomputed` of the old one and the current courses. |
| `CourseModel.Store.SaveCourse` | models/Course.js:62-64 | The course is stored first. The recomputation for its bootcamp then runs over the collection that includes it. Course ids stay unique. |
| `CourseModel.Store.RemoveCourse` | models/Course.js:66-68 | The document's own bootcamp is recomputed over the collection as it was before the removal, in every case, including for a document that is no longer stored. Only then is the stored course with that id removed, if there is one. Afterwards no course has that id. |
| `CourseModel.RemoveAtDropsTheId` | models/Course.js:66-68 | With unique ids, removing the document at one position leaves no document with its id. |
| `CourseModel.TuitionsOfConcat` | models/Course.js:39-41 | The matching tuitions of a concatenation are the matching tuitions of each part, in order. |
| `CourseModel.SaveElsewhereKeepsTuitions` | models/Course.js:39-41 | Saving a course of another bootcamp, over a document of another bootcamp, leaves `b`'s tuitions unchanged. |
| `CourseModel.RemoveElsewhereKeepsTuitions` | models/Course.js:39-41 | Removing a course of another bootcamp leaves `b`'s tuitions unchanged. |
| `CourseModel.RecomputeDependsOnlyOnTuitions` | models/Course.js:38-54 | Two course collections with the same matching tuitions give the same recomputation, so changes to other bootcamps' courses do not affect the result. |
| `CourseModel.SavedCourseIsCounted` | models/Course.js:62-64 | After a new course is saved, its tuition is the last one averaged for its bootcamp. |
| `CourseModel.RemovedCourseIsStillCounted` | models/Course.js:66-68 | The pre-remove aggregation averages the tuitions that remain plus the removed course's tuition, as a multiset. |
| `CourseModel.RemovingLastCourseLeavesItsCost` | models/Course.js:51-68 | Removing a bootcamp's last course writes that course's own rounded tuition. Afterwards no course matches, so a later recomputation keeps that value. |
| `CourseModel.RecomputeIsIdempotent` | models/Course.js:52-54 | Recomputing twice over the same courses gives the same result as recomputing once. |
| `ReviewsController.Authorised` | controllers/reviews.js:89 | The guard rejects exactly when the requester is neither the review's owner nor an admin, so an admin and an owner are always let through. The same guard is at line 122. |
| `ReviewsController.NotFoundError` | controllers/reviews.js:36-41 | After the error middleware, the not-found error is a 404 with "No review found for id : <id>". It is built the same way at lines 82 and 115. |
| `ReviewsController.NotAuthorisedError` | controllers/reviews.js:89-95 | After the error middleware, the ownership error is a 401 with "You are not authorized to update this review". It is built the same way at line 124. |
| `ReviewsController.Created` | controllers/reviews.js:65 | `Review.create(body)` stores the body's bootcamp and user, and its other fields as the model holds them. The filtering of undeclared fields is listed under Left out. |
| `ReviewsController.StatusOf` | middleware/error.js:17 | The status the client receives: the handler's own status on success, and the error middleware's status for `next(err)`. |
| `ReviewsController.ErrorTextOf` | middleware/error.js:19 | The error text the client receives for `next(err)` is never empty. |
| `ReviewsController.ReviewsOf` | controllers/reviews.js:13-15 | `Review.find({ bootcamp })` returns exactly the reviews whose bootcamp is the given id, unchanged. |
| `ReviewsController.Stamped` | controllers/reviews.js:53-54 | On create, the body's `bootcamp` is the route id and its `user` is the session user. The other fields stay as sent. |
| `ReviewsController.Updated` | controllers/reviews.js:97-100 | Every field the body sends replaces the stored one, `user` and `bootcamp` included; every other field is kept. |
| `ReviewsController.MissingBootcampError` | controllers/reviews.js:58-63 | The error built for a missing bootcamp carries no status code: the 404 is an argument of `next`. |
| `ReviewsController.IntendedMissingBootcampError` | controllers/reviews.js:58-63 | The corrected error carries status 404. |
| `ReviewsController.AddOutcome` | controllers/reviews.js:52-71 | A create adds at most the fresh id and leaves every existing review unchanged. |
| `ReviewsController.UpdateOutcome` | controllers/reviews.js:77-108 | An update keeps the same set of ids and changes at most the review it names. |
| `ReviewsController.DeleteOutcome` | controllers/reviews.js:110-138 | A delete removes at most the review it names and leaves every other review as it was. |
| `ReviewsController.ReviewCollection.GetReviews` | controllers/reviews.js:11-24 | With a bootcamp id, the reply is 200 with exactly that bootcamp's reviews, and `count` equals their number. Without one, the reply is 200 with the advanced results. |
| `ReviewsController.ReviewCollection.GetReview` | controllers/reviews.js:30-46 | A stored id gives 200 with that review. An absent id gives 404 with "No review found for id : <id>". |
| `ReviewsController.ReviewCollection.AddReview` | controllers/reviews.js:52-71 | The reply and the new collection are those of `AddOutcome`. |
| `ReviewsController.ReviewCollection.UpdateReview` | controllers/reviews.js:77-108 | The reply and the new collection are those of `UpdateOutcome`. |
| `ReviewsController.ReviewCollection.DeleteReview` | controllers/reviews.js:110-138 | The reply and the new collection are those of `DeleteOutcome`. |
| `ReviewsController.AbsentReviewIsNotFound` | controllers/reviews.js:78-86 | Update or delete of an absent id gives 404 with the not-found message and changes nothing, for any requester, so an absent id never gives 401 (the same rule is at lines 111-119). |
| `ReviewsController.NotAuthorisedIsRejected` | controllers/reviews.js:89-95 | A requester who is neither the owner nor an admin gets 401 on update and on delete, and the collection is unchanged (the same rule is at lines 122-128). |
| `ReviewsController.OnlyAuthorisedRequestsChangeReviews` | controllers/reviews.js:78-137 | The collection changes only if the review exists and the requester owns it or is an admin. Update and delete give 200 if and only if that holds. |
| `ReviewsController.AuthorisedDeleteRemovesOnlyThatReview` | controllers/reviews.js:130-137 | An authorised delete answers 200 with empty data and removes exactly that id. Every other review is unchanged. |
| `ReviewsController.AuthorisedUpdateRewritesOnlyThatReview` | controllers/reviews.js:97-107 | An authorised update answers 200 with the updated document, which is stored under that id. Every other review is unchanged. |
| `ReviewsController.AddIgnoresClientOwnership` | controllers/reviews.js:53-70 | A create answers 201. The stored review belongs to the route's bootcamp and the session's user, and any `bootcamp` or `user` sent by the client has no effect. |
| `ReviewsController.AddForMissingBootcampIs500` | controllers/reviews.js:56-63 | A create for a missing bootcamp creates nothing. The client receives 500 with "No bootcamp with the id of <id>". |
| `ReviewsController.IntendedMissingBootcampIs404` | controllers/reviews.js:58-63 | With the status code inside the error, the same request answers 404 with the same text. |
| `ReviewsController.AddedReviewIsListed` | controllers/reviews.js:65-70 | After a create, the bootcamp's listing holds the new review beside the old ones and its count grows by one. Other bootcamps' listings are unchanged. |

## Left out

- Express wiring (`server.js`, `routes/`), the stub controllers in `controllers/bootcamps.js` and `controllers/bootcamp.js`, and the request logger: framework glue with no logic of its own.
- Console output at `middleware/error.js:8` and `models/Course.js:56`: I/O only. The model does not capture that `err.stack.red` would itself throw for an error without a stack.
- `res.advancedResults` (pagination, filtering, select and sort) and geocoding: that middleware is not part of this model. `getReviews` without a bootcamp id returns the marker `AdvancedResults`.
- `asyncHandler`, `protect` and `errorResponse` are not part of this model. `req.user` is an input, and `errorResponse` is a plain `(message, statusCode)` record.
- Mongoose internals: the aggregation pipeline is the function `Tuitions`, and `populate` in `getReview` is not modelled. Schema validators and `runValidators` are not modelled, and neither is strict mode dropping the undeclared `tuition` field. The CastError raised by a malformed ObjectId is not modelled in the handlers; the error middleware still handles it.
- The un-awaited hook calls at `models/Course.js:63,67` and the un-awaited `review.save()` at `controllers/reviews.js:102,132` are not modelled. The model is sequential, so it does not capture the races between concurrent course mutations on one bootcamp.
- `getReviews` returns the reviews of a bootcamp as a map from id to review, so the model does not capture the collection order of the array that `Review.find` returns.
- `ReviewsController.Created` and `ReviewsController.Updated` keep every field the body sends. Under Mongoose's default strict mode, the source drops fields the review schema does not declare. The model does not capture that filtering.
- `CourseModel.Upsert` chooses insert or update by whether the id is stored. Mongoose chooses by the document's `isNew` flag. A new document that reuses a stored id fails with a duplicate-key error, and so does saving a loaded document that was deleted meanwhile. In both cases the `post('save')` hook does not run, while the model appends or replaces.
- `CourseModel.Course` has an integer `tuition`. A Mongoose `Number` may be fractional, and non-integer tuitions are not modelled.
- Floating-point `Math.ceil` on a float mean: the model uses the exact integer ceiling, and it does not model rounding artefacts.
- `ReviewsController.ReviewCollection.AddReview`: it requires the new document's id to be fresh, because ObjectId generation belongs to the database.

## Findings

| source | as written | input that shows it | evidently intended | confidence | as-written member | corrected member |
|---|---|---|---|---|---|---|
| controllers/reviews.js:59-62 | `next(new errorResponse(msg), 404)`: the 404 is a second argument of `next`, so the error has no status code and the error middleware answers 500 | `POST /bootcamps/X/reviews` where no bootcamp has id X | `next(new errorResponse(msg, 404))`, answering 404 | high, not executed | `ReviewsController.AddForMissingBootcampIs500` (on `MissingBootcampError`) | `ReviewsController.IntendedMissingBootcampIs404` (on `IntendedMissingBootcampError`) |

`ReviewCollection.AddReview` keeps the as-written error because it models the handler as
the code has it. The corrected error is stated beside it.
