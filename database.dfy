/** The MongoDB database the server talks to: three collections keyed by ObjectId, and the
    casts and queries the routes perform on them. */
module Database {
  import opened Wrappers
  import opened Request
  import opened ChatSessionModel
  import opened LessonModel
  import opened ChildModel

  /** What Mongoose accepts as an ObjectId string: exactly 24 hexadecimal digits. */
  predicate IsObjectId(s: string) {
    |s| == 24 && AllHex(s)
  }

  /** Every ObjectId passes the validator's `isMongoId`. */
  lemma ObjectIdIsMongoId(s: string)
    requires IsObjectId(s)
    ensures IsMongoId(s)
  {
  }

  /** The converse fails: `isMongoId` admits a `0x` prefix that Mongoose cannot cast, so such an
      id passes validation and then makes the query throw. */
  lemma MongoIdNotAlwaysObjectId()
    ensures var s := "0x0000000000000000000000"; IsMongoId(s) && !IsObjectId(s)
  {
    var s := "0x0000000000000000000000";
    assert AllHex(s[2..]);
    assert !IsHexDigit(s[1]);
  }

  /** An id of the kind MongoDB assigns, for worked examples. */
  const SampleId: string := "0123456789abcdef01234567"

  lemma SampleIdIsObjectId()
    ensures IsObjectId(SampleId) && IsMongoId(SampleId)
  {
    assert forall i :: 0 <= i < |SampleId| ==> IsHexDigit(SampleId[i]);
  }

  /** Casting a body value to an ObjectId: a string of 24 hex digits, or an object (a populated
      document) whose `_id` is one. Anything else is a CastError. */
  function CastObjectId(v: Value): (r: Option<Id>)
    ensures r.Some? ==> IsObjectId(r.value)
    ensures v.Str? ==> (r.Some? <==> IsObjectId(v.s))
  {
    match v
    case Str(s) => if IsObjectId(s) then Some(s) else None
    case Obj(Some(s)) => if IsObjectId(s) then Some(s) else None
    case _ => None
  }

  /** Casting each item of an `$in` list, failing if any item fails. */
  function CastIds(items: seq<Value>): (r: Option<seq<Id>>)
    ensures r.Some? <==> forall i :: 0 <= i < |items| ==> CastObjectId(items[i]).Some?
    ensures r.Some? ==> |r.value| == |items|
    ensures r.Some? ==> forall i :: 0 <= i < |items| ==> r.value[i] == CastObjectId(items[i]).value
  {
    if items == [] then Some([])
    else
      match (CastObjectId(items[0]), CastIds(items[1..]))
      case (Some(id), Some(rest)) => Some([id] + rest)
      case _ => None
  }

  predicate Distinct<T(==)>(s: seq<T>) {
    forall i, j :: 0 <= i < j < |s| ==> s[i] != s[j]
  }

  /** The documents `find({ _id: { $in: ids } })` returns: each matching key once. */
  function FoundIn<V>(collection: map<Id, V>, ids: seq<Id>): set<Id>
  {
    set x | x in ids && x in collection
  }

  /** The routes' participant check `existingChildren.length === participants.length` holds
      exactly when every requested id names a child and no id is repeated. */
  lemma {:induction false} FoundAllIff<V>(collection: map<Id, V>, ids: seq<Id>)
    ensures |FoundIn(collection, ids)| == |ids| <==>
            (Distinct(ids) && forall i :: 0 <= i < |ids| ==> ids[i] in collection)
  {
    var all := set x | x in ids;
    var found := FoundIn(collection, ids);
    assert found <= all;
    SubsetAtMost(found, all);
    SetOfSeqSize(ids);
    if |found| == |ids| {
      SubsetSize(found, all);
      assert found == all;
      forall i | 0 <= i < |ids| ensures ids[i] in collection {
        assert ids[i] in all;
      }
    }
    if Distinct(ids) && forall i :: 0 <= i < |ids| ==> ids[i] in collection {
      forall x | x in all ensures x in found {
        var i :| 0 <= i < |ids| && ids[i] == x;
      }
      assert found == all;
    }
  }

  /** The set of a sequence's elements is no larger than the sequence, and as large exactly
      when no element repeats. */
  lemma {:induction false} SetOfSeqSize<T>(s: seq<T>)
    ensures |set x | x in s| <= |s|
    ensures |set x | x in s| == |s| <==> Distinct(s)
  {
    if s != [] {
      var t := s[1..];
      SetOfSeqSize(t);
      var all := set x | x in s;
      var rest := set x | x in t;
      assert s == [s[0]] + t;
      assert all == rest + {s[0]};
      if s[0] in t {
        assert all == rest;
        var k :| 0 <= k < |t| && t[k] == s[0];
        assert s[k + 1] == s[0];
        assert !Distinct(s);
      } else {
        assert |all| == |rest| + 1;
        if Distinct(t) {
          forall i, j | 0 <= i < j < |s| ensures s[i] != s[j] {
            if i == 0 { assert s[j] == t[j - 1]; } else { assert s[i] == t[i - 1] && s[j] == t[j - 1]; }
          }
        } else {
          var i, j :| 0 <= i < j < |t| && t[i] == t[j];
          assert s[i + 1] == s[j + 1];
        }
      }
    }
  }

  /** A subset is no larger than its superset. */
  lemma {:induction false} SubsetAtMost<T>(a: set<T>, b: set<T>)
    requires a <= b
    ensures |a| <= |b|
    decreases b
  {
    if a != {} {
      var x :| x in a;
      SubsetAtMost(a - {x}, b - {x});
    }
  }

  /** A subset as large as its superset is the whole superset. */
  lemma SubsetSize<T>(a: set<T>, b: set<T>)
    requires a <= b && |a| == |b|
    ensures a == b
  {
    if a != b {
      var x :| x in b && x !in a;
      SubsetAtMost(a, b - {x});
    }
  }

  /** The outcome of the routes' participant check on a requested list. */
  datatype ParticipantCheck = Checked(ids: seq<Id>) | CastFailed | Missing

  /** How an item of an `$in` list fares in the query's cast: `null` is kept as it is, and
      matches no document; anything else must cast to an ObjectId. */
  predicate CastsInQuery(v: Value) {
    v.Null? || CastObjectId(v).Some?
  }

  /** `if (participants.length > 0) { Child.find({ _id: { $in: participants } }) ... }`: an empty
      list is not queried; otherwise an item that cannot be cast makes the query throw, and as
      many children must be found as were requested, which a `null` item never is. */
  function CheckParticipants<V>(collection: map<Id, V>, items: seq<Value>): (r: ParticipantCheck)
    ensures r.CastFailed? <==> exists i :: 0 <= i < |items| && !CastsInQuery(items[i])
    ensures r.Checked? <==> (CastIds(items).Some? &&
      Distinct(CastIds(items).value) && forall i :: 0 <= i < |items| ==> CastIds(items).value[i] in collection)
    ensures r.Checked? ==> r.ids == CastIds(items).value
  {
    if items == [] then Checked([])
    else if exists i :: 0 <= i < |items| && !CastsInQuery(items[i]) then CastFailed
    else match CastIds(items)
      case None => Missing
      case Some(ids) =>
        FoundAllIff(collection, ids);
        if |FoundIn(collection, ids)| != |ids| then Missing else Checked(ids)
  }

  /** A `null` among otherwise castable participants matches no child, so the check answers
      "Some participants do not exist" rather than failing the query. */
  lemma NullParticipantMissing<V>(collection: map<Id, V>, items: seq<Value>, k: nat)
    requires k < |items| && items[k] == Null
    requires forall i :: 0 <= i < |items| ==> CastsInQuery(items[i])
    ensures CheckParticipants(collection, items).Missing?
  {
    assert !CastObjectId(items[k]).Some?;
  }

  /** The three collections. */
  class Db {
    var sessions: map<Id, Session>
    var lessons: map<Id, Lesson>
    var children: map<Id, Child>

    /** Every document is stored under an ObjectId. */
    ghost predicate Valid()
      reads this
    {
      && (forall k :: k in sessions ==> IsObjectId(k))
      && (forall k :: k in lessons ==> IsObjectId(k))
      && (forall k :: k in children ==> IsObjectId(k))
    }

    /** Stores a session document under an ObjectId. */
    method StoreSession(id: Id, s: Session)
      requires Valid() && IsObjectId(id)
      modifies `sessions
      ensures Valid() && sessions == old(sessions)[id := s]
    {
      sessions := sessions[id := s];
    }

    /** Stores a lesson document under an ObjectId. */
    method StoreLesson(id: Id, l: Lesson)
      requires Valid() && IsObjectId(id)
      modifies `lessons
      ensures Valid() && lessons == old(lessons)[id := l]
    {
      lessons := lessons[id := l];
    }

    /** Stores a child document under an ObjectId. */
    method StoreChild(id: Id, c: Child)
      requires Valid() && IsObjectId(id)
      modifies `children
      ensures Valid() && children == old(children)[id := c]
    {
      children := children[id := c];
    }

    constructor ()
      ensures Valid()
      ensures sessions == map[] && lessons == map[] && children == map[]
    {
      sessions, lessons, children := map[], map[], map[];
    }
  }
}
