/**
 * The average-cost maintenance of models/Course.js over an in-memory store:
 * the Course collection as a sequence of documents with unique ids, the
 * Bootcamp collection as a map from id to document. `getAverageCost` writes
 * the rounded mean tuition of one bootcamp's courses to that bootcamp; the
 * `post('save')` and `pre('remove')` hooks run it for the course's bootcamp.
 */
module CourseModel {
  import opened Wrappers
  import opened AverageCost

  type CourseId = string
  type BootcampId = string

  /** A course document: the fields the aggregation reads. */
  datatype Course = Course(id: CourseId, bootcamp: BootcampId, tuition: int)

  /** A bootcamp document: `averageCost` is the derived field; `name` stands for every other field. */
  datatype Bootcamp = Bootcamp(name: string, averageCost: Option<int>)

  /** No two course documents share an id. */
  predicate UniqueIds(courses: seq<Course>) {
    forall i, j :: 0 <= i < j < |courses| ==> courses[i].id != courses[j].id
  }

  /**
   * The `$match: { bootcamp }` stage followed by the `$tuition` projection:
   * the tuitions of the courses of bootcamp `b`, in collection order.
   */
  function Tuitions(courses: seq<Course>, b: BootcampId): (ts: seq<int>)
    ensures |ts| <= |courses|
    ensures ts == [] <==> forall c :: c in courses ==> c.bootcamp != b
  {
    if courses == [] then []
    else
      var last := courses[|courses| - 1];
      assert courses == courses[..|courses| - 1] + [last];
      Tuitions(courses[..|courses| - 1], b) + (if last.bootcamp == b then [last.tuition] else [])
  }

  /**
   * What one aggregation finds for bootcamp `b`: the rounded average of its
   * courses, or None when no course matches and `obj[0]` is undefined.
   */
  function AverageFor(courses: seq<Course>, b: BootcampId): (avg: Option<int>)
    ensures avg.None? <==> forall c :: c in courses ==> c.bootcamp != b
    ensures avg.Some? ==> IsRoundedMean(avg.value, Tuitions(courses, b))
  {
    var ts := Tuitions(courses, b);
    if ts == [] then None else Some(RoundedAverage(ts))
  }

  /**
   * The Bootcamp collection after `getAverageCost(b)`. With no matching
   * course the TypeError of `obj[0].averageCost` is caught and nothing is
   * written; `findByIdAndUpdate` on a missing bootcamp writes nothing either.
   */
  function Recomputed(bootcamps: map<BootcampId, Bootcamp>, courses: seq<Course>, b: BootcampId): (m: map<BootcampId, Bootcamp>)
    ensures m.Keys == bootcamps.Keys
    ensures forall k :: k in bootcamps && k != b ==> m[k] == bootcamps[k]
    ensures b in bootcamps ==> m[b].name == bootcamps[b].name
    ensures b in bootcamps && Tuitions(courses, b) != [] ==>
              m[b].averageCost.Some? && IsRoundedMean(m[b].averageCost.value, Tuitions(courses, b))
    ensures Tuitions(courses, b) == [] ==> m == bootcamps
  {
    match AverageFor(courses, b)
    case None => bootcamps
    case Some(v) =>
      if b in bootcamps then bootcamps[b := bootcamps[b].(averageCost := Some(v))] else bootcamps
  }

  /** Index of the course with id `id`, or -1 (`findById`). */
  function IndexOf(courses: seq<Course>, id: CourseId): (i: int)
    ensures -1 <= i < |courses|
    ensures i >= 0 ==> courses[i].id == id && forall k :: 0 <= k < i ==> courses[k].id != id
    ensures i < 0 ==> forall k :: 0 <= k < |courses| ==> courses[k].id != id
  {
    if courses == [] then -1
    else if courses[0].id == id then 0
    else
      var j := IndexOf(courses[1..], id);
      if j < 0 then -1 else j + 1
  }

  /** The Course collection after `course.save()`: a new document is appended, a known one replaced. */
  function Upsert(courses: seq<Course>, c: Course): (r: seq<Course>)
    // afterwards `findById(c.id)` finds exactly `c`
    ensures IndexOf(r, c.id) >= 0 && r[IndexOf(r, c.id)] == c
    // every other document keeps its place and content; at most one is added
    ensures |courses| <= |r| <= |courses| + 1
    ensures forall k :: 0 <= k < |courses| && courses[k].id != c.id ==> r[k] == courses[k]
    // a stored id is replaced in place and nothing else changes; a new one is appended
    ensures IndexOf(courses, c.id) >= 0 ==> |r| == |courses| && r[IndexOf(courses, c.id)] == c
    ensures IndexOf(courses, c.id) < 0 ==> |r| == |courses| + 1 && r[|courses|] == c
    ensures forall k :: 0 <= k < |courses| && k != IndexOf(courses, c.id) ==> r[k] == courses[k]
  {
    var i := IndexOf(courses, c.id);
    if i < 0 then
      var r := courses + [c];
      assert r[|courses|] == c && forall k :: 0 <= k < |courses| ==> r[k] == courses[k];
      assert IndexOf(r, c.id) == |courses|;
      r
    else
      var r := courses[i := c];
      assert r[i] == c && forall k :: 0 <= k < i ==> r[k] == courses[k] && r[k].id != c.id;
      assert IndexOf(r, c.id) == i;
      r
  }

  /** The Course collection after removing the document at index `i`. */
  function RemoveAt(courses: seq<Course>, i: nat): (r: seq<Course>)
    requires i < |courses|
    // exactly the document at `i` leaves; the others keep their order
    ensures multiset(r) + multiset{courses[i]} == multiset(courses)
    ensures |r| == |courses| - 1
    ensures forall k :: 0 <= k < |r| ==> r[k] == courses[if k < i then k else k + 1]
  {
    assert courses == courses[..i] + [courses[i]] + courses[i + 1..];
    courses[..i] + courses[i + 1..]
  }

  /** The store the hooks act on. */
  class Store {
    var courses: seq<Course>
    var bootcamps: map<BootcampId, Bootcamp>

    ghost predicate Valid()
      reads this
    {
      UniqueIds(courses)
    }

    constructor (bootcamps: map<BootcampId, Bootcamp>)
      ensures Valid()
      ensures this.courses == [] && this.bootcamps == bootcamps
    {
      this.courses := [];
      this.bootcamps := bootcamps;
    }

    /** `Course.getAverageCost(bootcampId)`. */
    method Recompute(b: BootcampId)
      modifies this`bootcamps
      ensures bootcamps == Recomputed(old(bootcamps), courses, b)
    {
      var ts := Tuitions(courses, b);
      if ts == [] {
        // obj[0] is undefined: the TypeError is caught and logged, nothing is written
        return;
      }
      var v := RoundedAverage(ts);
      if b in bootcamps {
        bootcamps := bootcamps[b := bootcamps[b].(averageCost := Some(v))];
      }
    }

    /** `course.save()` followed by its `post('save')` hook. */
    method SaveCourse(c: Course)
      requires Valid()
      modifies this
      ensures Valid()
      ensures courses == Upsert(old(courses), c)
      ensures bootcamps == Recomputed(old(bootcamps), courses, c.bootcamp)
    {
      UpsertKeepsIdsUnique(courses, c);
      courses := Upsert(courses, c);
      Recompute(c.bootcamp);
    }

    /**
     * `course.remove()` on the document `c`, preceded by its `pre('remove')`
     * hook: the average of `c.bootcamp` (the document's own field) is
     * recomputed while the stored course, if any, is still in the collection,
     * and then the stored document with `c`'s id is deleted. The hook runs
     * even when that document is no longer stored.
     */
    method RemoveCourse(c: Course) returns (removed: bool)
      requires Valid()
      modifies this
      ensures Valid()
      ensures bootcamps == Recomputed(old(bootcamps), old(courses), c.bootcamp)
      ensures removed <==> IndexOf(old(courses), c.id) >= 0
      ensures !removed ==> courses == old(courses)
      ensures removed ==> courses == RemoveAt(old(courses), IndexOf(old(courses), c.id))
      ensures forall d :: d in courses ==> d.id != c.id
    {
      Recompute(c.bootcamp);
      var i := IndexOf(courses, c.id);
      if i < 0 {
        return false;
      }
      RemoveAtKeepsIdsUnique(courses, i);
      RemoveAtDropsTheId(courses, i);
      courses := RemoveAt(courses, i);
      removed := true;
    }
  }

  lemma UpsertKeepsIdsUnique(courses: seq<Course>, c: Course)
    requires UniqueIds(courses)
    ensures UniqueIds(Upsert(courses, c))
  {
  }

  lemma RemoveAtKeepsIdsUnique(courses: seq<Course>, i: nat)
    requires i < |courses| && UniqueIds(courses)
    ensures UniqueIds(RemoveAt(courses, i))
  {
    var r := RemoveAt(courses, i);
    forall p, q | 0 <= p < q < |r| ensures r[p].id != r[q].id {
      var p' := if p < i then p else p + 1;
      var q' := if q < i then q else q + 1;
      assert r[p] == courses[p'] && r[q] == courses[q'];
    }
  }

  /** With unique ids, removing the document at `i` leaves no document with its id. */
  lemma RemoveAtDropsTheId(courses: seq<Course>, i: nat)
    requires i < |courses| && UniqueIds(courses)
    ensures forall c :: c in RemoveAt(courses, i) ==> c.id != courses[i].id
  {
    var r := RemoveAt(courses, i);
    forall c | c in r ensures c.id != courses[i].id {
      var k :| 0 <= k < |r| && r[k] == c;
      assert c == courses[if k < i then k else k + 1];
    }
  }

  /** The matching tuitions of two pieces of a collection are those of each piece, in order. */
  lemma {:induction false} TuitionsOfConcat(xs: seq<Course>, ys: seq<Course>, b: BootcampId)
    ensures Tuitions(xs + ys, b) == Tuitions(xs, b) + Tuitions(ys, b)
    decreases |ys|
  {
    if ys == [] {
      assert xs + ys == xs;
    } else {
      var last := ys[|ys| - 1];
      var init := ys[..|ys| - 1];
      assert (xs + ys)[..|xs + ys| - 1] == xs + init;
      TuitionsOfConcat(xs, init, b);
    }
  }

  lemma TuitionsOfSingle(c: Course, b: BootcampId)
    ensures Tuitions([c], b) == if c.bootcamp == b then [c.tuition] else []
  {
    assert [c][..0] == [];
  }

  /** Splitting a collection around index `i`. */
  lemma TuitionsAround(courses: seq<Course>, i: nat, b: BootcampId)
    requires i < |courses|
    ensures Tuitions(courses, b) == Tuitions(courses[..i], b) + Tuitions([courses[i]], b) + Tuitions(courses[i + 1..], b)
  {
    assert courses == courses[..i] + [courses[i]] + courses[i + 1..];
    TuitionsOfConcat(courses[..i] + [courses[i]], courses[i + 1..], b);
    TuitionsOfConcat(courses[..i], [courses[i]], b);
  }

  /** Saving a course of another bootcamp, over a document of another bootcamp, leaves `b`'s tuitions alone. */
  lemma SaveElsewhereKeepsTuitions(courses: seq<Course>, c: Course, b: BootcampId)
    requires c.bootcamp != b
    requires IndexOf(courses, c.id) >= 0 ==> courses[IndexOf(courses, c.id)].bootcamp != b
    ensures Tuitions(Upsert(courses, c), b) == Tuitions(courses, b)
  {
    var i := IndexOf(courses, c.id);
    TuitionsOfSingle(c, b);
    if i < 0 {
      TuitionsOfConcat(courses, [c], b);
    } else {
      var u := courses[i := c];
      assert u[..i] == courses[..i] && u[i + 1..] == courses[i + 1..] && u[i] == c;
      TuitionsAround(courses, i, b);
      TuitionsAround(u, i, b);
      TuitionsOfSingle(courses[i], b);
    }
  }

  /** Removing a course of another bootcamp leaves `b`'s tuitions alone. */
  lemma RemoveElsewhereKeepsTuitions(courses: seq<Course>, i: nat, b: BootcampId)
    requires i < |courses| && courses[i].bootcamp != b
    ensures Tuitions(RemoveAt(courses, i), b) == Tuitions(courses, b)
  {
    TuitionsAround(courses, i, b);
    TuitionsOfSingle(courses[i], b);
    TuitionsOfConcat(courses[..i], courses[i + 1..], b);
  }

  /** A newly saved course is the last tuition counted for its bootcamp. */
  lemma SavedCourseIsCounted(courses: seq<Course>, c: Course)
    requires IndexOf(courses, c.id) < 0
    ensures Tuitions(Upsert(courses, c), c.bootcamp) == Tuitions(courses, c.bootcamp) + [c.tuition]
  {
    TuitionsOfConcat(courses, [c], c.bootcamp);
    TuitionsOfSingle(c, c.bootcamp);
  }

  /**
   * The pre-remove recomputation sees the removed course: the tuitions it
   * averages are those left afterwards plus the removed one.
   */
  lemma RemovedCourseIsStillCounted(courses: seq<Course>, i: nat)
    requires i < |courses|
    ensures var b := courses[i].bootcamp;
            multiset(Tuitions(courses, b)) == multiset(Tuitions(RemoveAt(courses, i), b)) + multiset{courses[i].tuition}
  {
    var b := courses[i].bootcamp;
    TuitionsAround(courses, i, b);
    TuitionsOfSingle(courses[i], b);
    TuitionsOfConcat(courses[..i], courses[i + 1..], b);
  }

  /** Recomputing twice with the same courses writes the same value as once. */
  lemma RecomputeIsIdempotent(bootcamps: map<BootcampId, Bootcamp>, courses: seq<Course>, b: BootcampId)
    ensures Recomputed(Recomputed(bootcamps, courses, b), courses, b) == Recomputed(bootcamps, courses, b)
  {
  }

  /** Recomputing bootcamp `b` after a change that did not touch `b`'s tuitions changes nothing for `b`. */
  lemma RecomputeDependsOnlyOnTuitions(bootcamps: map<BootcampId, Bootcamp>, cs1: seq<Course>, cs2: seq<Course>, b: BootcampId)
    requires Tuitions(cs1, b) == Tuitions(cs2, b)
    ensures Recomputed(bootcamps, cs1, b) == Recomputed(bootcamps, cs2, b)
  {
  }

  /**
   * Removing the last course of a bootcamp leaves that course's own rounded
   * tuition as the average cost (the pre-remove aggregation still finds it),
   * and afterwards no course matches, so a later recomputation writes nothing.
   */
  lemma RemovingLastCourseLeavesItsCost(bootcamps: map<BootcampId, Bootcamp>, courses: seq<Course>, i: nat)
    requires i < |courses| && courses[i].bootcamp in bootcamps
    requires forall k :: 0 <= k < |courses| && k != i ==> courses[k].bootcamp != courses[i].bootcamp
    ensures var b := courses[i].bootcamp;
            && Recomputed(bootcamps, courses, b)[b].averageCost == Some(RoundedAverage([courses[i].tuition]))
            && Tuitions(RemoveAt(courses, i), b) == []
  {
    var b := courses[i].bootcamp;
    var rest := RemoveAt(courses, i);
    forall c | c in rest ensures c.bootcamp != b {
      var k :| 0 <= k < |rest| && rest[k] == c;
      assert c == courses[if k < i then k else k + 1];
    }
    RemovedCourseIsStillCounted(courses, i);
    var ts := Tuitions(courses, b);
    assert multiset(ts) == multiset{courses[i].tuition};
    assert |ts| == 1;
    assert ts == [courses[i].tuition] by {
      assert ts[0] in multiset(ts);
    }
  }
}
