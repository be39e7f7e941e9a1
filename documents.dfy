/**
 * Course documents and the flattening step both scripts run at start-up: the
 * groups read from `documents.json` become one list of documents, each dict
 * tagged in place with the `course` of the group it came from.
 */
module Documents {
  import opened Wrappers

  /** A JSON document object: field name to text. */
  type Document = map<string, string>

  /** A Python dict that the scripts hold by reference and update in place. */
  class Record {
    var fields: Document
  }

  /** One element of `docs_raw`: `{"course": ..., "documents": [...]}`. */
  datatype CourseGroup = CourseGroup(course: string, documents: seq<Record>)

  /** `doc['course'] = course` as a change of value: `course` is set, every other key is kept. */
  function TagCourse(doc: Document, course: string): (r: Document)
    ensures "course" in r && r["course"] == course
    ensures r.Keys == doc.Keys + {"course"}
    ensures forall k :: k in doc && k != "course" ==> r[k] == doc[k]
  {
    doc["course" := course]
  }

  /** Every record reachable from the groups: what the flattening may change. */
  function Records(groups: seq<CourseGroup>): set<Record>
  {
    set g, d | g in groups && d in g.documents :: d
  }

  /** The documents of all groups, group after group, each group in its own order. */
  function Flat(groups: seq<CourseGroup>): seq<Record>
  {
    if groups == [] then []
    else Flat(groups[..|groups| - 1]) + groups[|groups| - 1].documents
  }

  /** The sum of the groups' document counts. */
  function TotalDocuments(groups: seq<CourseGroup>): nat
  {
    if groups == [] then 0
    else TotalDocuments(groups[..|groups| - 1]) + |groups[|groups| - 1].documents|
  }

  /**
   * The course the flattening leaves on `d`: that of the last group listing
   * it, since a later assignment to `doc['course']` replaces an earlier one.
   */
  function LastCourse(groups: seq<CourseGroup>, d: Record): Option<string>
  {
    if groups == [] then None
    else if d in groups[|groups| - 1].documents then Some(groups[|groups| - 1].course)
    else LastCourse(groups[..|groups| - 1], d)
  }

  /** The fields of `d` once the groups have been processed, given its fields `before`. */
  function Tagged(before: Document, groups: seq<CourseGroup>, d: Record): Document
  {
    match LastCourse(groups, d)
    case Some(c) => TagCourse(before, c)
    case None => before
  }

  /**
   * The flattening loop: for each group, for each of its documents, set
   * `doc['course']` and append `doc` to `documents`. The list is the
   * concatenation of the groups' lists, and each record ends up tagged with
   * the course of the last group that lists it.
   */
  method Flatten(groups: seq<CourseGroup>) returns (documents: seq<Record>)
    modifies Records(groups)
    ensures documents == Flat(groups)
    ensures forall d :: d in Records(groups) ==> d.fields == Tagged(old(d.fields), groups, d)
  {
    documents := [];
    var i := 0;
    while i < |groups|
      invariant 0 <= i <= |groups|
      invariant documents == Flat(groups[..i])
      invariant forall d :: d in Records(groups) ==> d.fields == Tagged(old(d.fields), groups[..i], d)
    {
      var group := groups[i];
      var j := 0;
      while j < |group.documents|
        invariant 0 <= j <= |group.documents|
        invariant documents == Flat(groups[..i]) + group.documents[..j]
        invariant forall d :: d in Records(groups) ==>
          d.fields == Tagged(old(d.fields), groups[..i] + [CourseGroup(group.course, group.documents[..j])], d)
      {
        var doc := group.documents[j];
        assert doc in Records(groups) by { assert group in groups && doc in group.documents; }
        doc.fields := doc.fields["course" := group.course];
        documents := documents + [doc];
        assert group.documents[..j + 1] == group.documents[..j] + [doc];
        forall d | d in Records(groups)
          ensures d.fields == Tagged(old(d.fields), groups[..i] + [CourseGroup(group.course, group.documents[..j + 1])], d)
        {
          TaggedStep(groups[..i], group.course, group.documents[..j], doc, old(d.fields), d);
          if d == doc {
            RetagCourse(old(d.fields), groups[..i] + [CourseGroup(group.course, group.documents[..j])], d, group.course);
          }
        }
        j := j + 1;
      }
      assert group.documents[..j] == group.documents;
      assert groups[..i + 1] == groups[..i] + [group];
      assert groups[..i + 1][..i] == groups[..i];
      i := i + 1;
    }
    assert groups[..i] == groups;
  }

  /** Taking one more document of the last group into account changes the outcome for that document only, which gets the group's course. */
  lemma TaggedStep(done: seq<CourseGroup>, course: string, seen: seq<Record>, doc: Record, before: Document, d: Record)
    ensures d == doc ==> Tagged(before, done + [CourseGroup(course, seen + [doc])], d) == TagCourse(before, course)
    ensures d != doc ==> Tagged(before, done + [CourseGroup(course, seen + [doc])], d) == Tagged(before, done + [CourseGroup(course, seen)], d)
  {
    var a, b := done + [CourseGroup(course, seen + [doc])], done + [CourseGroup(course, seen)];
    assert a[..|a| - 1] == done && b[..|b| - 1] == done;
  }

  /** Setting the course again overrides whatever course the groups so far gave. */
  lemma RetagCourse(before: Document, groups: seq<CourseGroup>, d: Record, course: string)
    ensures TagCourse(Tagged(before, groups, d), course) == TagCourse(before, course)
  {
  }

  /** Flattening concatenates: the documents of `a + b` are those of `a` followed by those of `b`. */
  lemma {:induction false} FlatAppend(a: seq<CourseGroup>, b: seq<CourseGroup>)
    ensures Flat(a + b) == Flat(a) + Flat(b)
    decreases |b|
  {
    if b == [] {
      assert a + b == a;
    } else {
      var n := |b| - 1;
      assert (a + b)[..|a + b| - 1] == a + b[..n];
      FlatAppend(a, b[..n]);
    }
  }

  /** The flattened list is as long as the groups' document counts added up. */
  lemma {:induction false} FlatLength(groups: seq<CourseGroup>)
    ensures |Flat(groups)| == TotalDocuments(groups)
    decreases |groups|
  {
    if groups != [] {
      FlatLength(groups[..|groups| - 1]);
    }
  }

  /**
   * Group `k`'s documents appear in one piece and in their own order, after
   * those of the groups before it (at offset TotalDocuments(groups[..k])) and
   * before those of the groups after it.
   */
  lemma GroupInPlace(groups: seq<CourseGroup>, k: nat)
    requires k < |groups|
    ensures Flat(groups) == Flat(groups[..k]) + groups[k].documents + Flat(groups[k + 1..])
    ensures |Flat(groups[..k])| == TotalDocuments(groups[..k])
  {
    assert groups == groups[..k] + [groups[k]] + groups[k + 1..];
    FlatAppend(groups[..k] + [groups[k]], groups[k + 1..]);
    FlatAppend(groups[..k], [groups[k]]);
    assert Flat([groups[k]]) == groups[k].documents by {
      assert [groups[k]][..0] == [];
    }
    FlatLength(groups[..k]);
  }

  /** A record is listed by some group exactly when it occurs in the flattened list. */
  lemma {:induction false} FlatMembers(groups: seq<CourseGroup>, d: Record)
    ensures d in Flat(groups) <==> d in Records(groups)
    ensures d in Flat(groups) <==> LastCourse(groups, d).Some?
    decreases |groups|
  {
    if groups != [] {
      var init, last := groups[..|groups| - 1], groups[|groups| - 1];
      FlatMembers(init, d);
      assert groups == init + [last];
      if d in last.documents {
        assert d in Records(groups) by { assert last in groups; }
      }
      if d in Records(init) {
        var g :| g in init && d in g.documents;
        assert g in groups;
      }
      if d in Records(groups) && d !in last.documents {
        var g :| g in groups && d in g.documents;
        assert g in init;
      }
    }
  }

  /**
   * The course left on a record is the course of the last group that lists
   * it, whatever earlier groups listing it said.
   */
  lemma {:induction false} LastCourseIsLast(groups: seq<CourseGroup>, k: nat, d: Record)
    requires k < |groups| && d in groups[k].documents
    requires forall j :: k < j < |groups| ==> d !in groups[j].documents
    ensures LastCourse(groups, d) == Some(groups[k].course)
    decreases |groups|
  {
    if k < |groups| - 1 {
      var init := groups[..|groups| - 1];
      assert d !in groups[|groups| - 1].documents;
      LastCourseIsLast(init, k, d);
    }
  }

  /** No record is listed by two different groups, as with freshly parsed JSON. */
  predicate GroupsDisjoint(groups: seq<CourseGroup>)
  {
    forall i, j, d :: 0 <= i < j < |groups| && d in groups[i].documents ==> d !in groups[j].documents
  }

  /**
   * When no record is shared between groups, flattening tags every record of
   * group `k` with group `k`'s course and leaves all its other keys as they
   * were.
   */
  lemma TaggedWithOwnCourse(groups: seq<CourseGroup>, k: nat, d: Record, before: Document)
    requires GroupsDisjoint(groups)
    requires k < |groups| && d in groups[k].documents
    ensures Tagged(before, groups, d) == TagCourse(before, groups[k].course)
  {
    LastCourseIsLast(groups, k, d);
  }
}
