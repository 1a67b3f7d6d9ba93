/** The list transformations behind the page's add, edit and delete handlers
    (app/page.tsx), as functions of the application list, with the
    properties each keeps. */
module RecordStore {
  import opened Collections
  import opened Types

  /** Some record in `rs` carries `id`. */
  predicate HasId(rs: seq<JobApplication>, id: string) {
    exists i :: 0 <= i < |rs| && rs[i].id == id
  }

  /** No two records of `rs` share an id. */
  predicate UniqueIds(rs: seq<JobApplication>) {
    forall i, j :: 0 <= i < j < |rs| ==> rs[i].id != rs[j].id
  }

  /** The add handler's update: the new record goes in front of the list. */
  function Prepend(rs: seq<JobApplication>, d: ApplicationData, id: string): (r: seq<JobApplication>)
    ensures |r| == |rs| + 1
    ensures r[0].id == id && Fields(r[0]) == d
    ensures r[1..] == rs
  {
    [WithId(d, id)] + rs
  }

  /** A record with a fresh id keeps the ids unique. */
  lemma PrependKeepsUnique(rs: seq<JobApplication>, d: ApplicationData, id: string)
    requires UniqueIds(rs) && !HasId(rs, id)
    ensures UniqueIds(Prepend(rs, d, id))
  {
    var r := Prepend(rs, d, id);
    forall i, j | 0 <= i < j < |r| ensures r[i].id != r[j].id {
      if i == 0 {
        assert rs[j - 1].id == r[j].id;
      } else {
        assert r[i] == rs[i - 1] && r[j] == rs[j - 1];
      }
    }
  }

  /** Replaces one record: the record with id `targetId` takes the fields `d`
      and keeps its id; any other record is left alone. */
  function ReplaceOne(a: JobApplication, targetId: string, d: ApplicationData): (r: JobApplication)
    ensures r.id == a.id
    ensures a.id != targetId ==> r == a
    ensures a.id == targetId ==> Fields(r) == d
  {
    if a.id == targetId then WithId(d, a.id) else a
  }

  /** The edit handler's update: a `map` of `ReplaceOne` over the list. */
  function Replace(rs: seq<JobApplication>, targetId: string, d: ApplicationData): (r: seq<JobApplication>)
    ensures |r| == |rs|
    ensures forall i :: 0 <= i < |rs| ==> r[i].id == rs[i].id
    ensures forall i :: 0 <= i < |rs| && rs[i].id != targetId ==> r[i] == rs[i]
    ensures forall i :: 0 <= i < |rs| && rs[i].id == targetId ==> Fields(r[i]) == d
  {
    MapSeq(rs, (a: JobApplication) => ReplaceOne(a, targetId, d))
  }

  /** Editing an id that no record carries changes nothing. */
  lemma ReplaceAbsentIsNoOp(rs: seq<JobApplication>, targetId: string, d: ApplicationData)
    requires !HasId(rs, targetId)
    ensures Replace(rs, targetId, d) == rs
  {
    var r := Replace(rs, targetId, d);
    assert forall i :: 0 <= i < |rs| ==> r[i] == rs[i];
  }

  /** An edit keeps every id in its place, so it keeps the ids unique. */
  lemma ReplaceKeepsUnique(rs: seq<JobApplication>, targetId: string, d: ApplicationData)
    requires UniqueIds(rs)
    ensures UniqueIds(Replace(rs, targetId, d))
  {
  }

  /** Submitting the same edit twice is submitting it once. */
  lemma ReplaceIdempotent(rs: seq<JobApplication>, targetId: string, d: ApplicationData)
    ensures Replace(Replace(rs, targetId, d), targetId, d) == Replace(rs, targetId, d)
  {
    var once := Replace(rs, targetId, d);
    var twice := Replace(once, targetId, d);
    forall i | 0 <= i < |rs| ensures twice[i] == once[i] {
      if rs[i].id == targetId {
        assert Fields(twice[i]) == Fields(once[i]) && twice[i].id == once[i].id;
        assert WithId(Fields(twice[i]), twice[i].id) == twice[i];
        assert WithId(Fields(once[i]), once[i].id) == once[i];
      }
    }
  }

  /** With unique ids, writing a record's own fields back under its id
      leaves the list as it was. */
  lemma ReplaceWithOwnFields(rs: seq<JobApplication>, k: nat)
    requires UniqueIds(rs) && k < |rs|
    ensures Replace(rs, rs[k].id, Fields(rs[k])) == rs
  {
    var r := Replace(rs, rs[k].id, Fields(rs[k]));
    forall i | 0 <= i < |rs| ensures r[i] == rs[i] {
      if rs[i].id == rs[k].id {
        assert i == k;
        assert WithId(Fields(r[i]), r[i].id) == r[i];
      }
    }
  }

  /** The delete handler's update: a `filter` that keeps the records whose
      id is not `id`. */
  function Without(rs: seq<JobApplication>, id: string): (r: seq<JobApplication>)
    ensures !HasId(r, id)
    ensures IsSubsequence(r, rs)
    ensures forall i :: 0 <= i < |rs| && rs[i].id != id ==> rs[i] in r
    ensures forall a :: a in r ==> a in rs
  {
    FilterIsSubsequence(rs, (a: JobApplication) => a.id != id);
    FilterSeq(rs, (a: JobApplication) => a.id != id)
  }

  /** Deleting an id twice is deleting it once. */
  lemma WithoutIdempotent(rs: seq<JobApplication>, id: string)
    ensures Without(Without(rs, id), id) == Without(rs, id)
  {
    FilterIdempotent(rs, (a: JobApplication) => a.id != id);
  }

  /** Deleting an id that no record carries changes nothing. */
  lemma WithoutAbsentIsNoOp(rs: seq<JobApplication>, id: string)
    requires !HasId(rs, id)
    ensures Without(rs, id) == rs
  {
    FilterKeepsAll(rs, (a: JobApplication) => a.id != id);
  }

  /** Deleting keeps the ids unique. */
  lemma {:induction false} WithoutKeepsUnique(rs: seq<JobApplication>, id: string)
    requires UniqueIds(rs)
    ensures UniqueIds(Without(rs, id))
  {
    if rs != [] {
      var rest := Without(rs[1..], id);
      WithoutKeepsUnique(rs[1..], id);
      assert Without(rs, id) == (if rs[0].id != id then [rs[0]] else []) + rest;
      if rs[0].id != id {
        forall j | 0 <= j < |rest| ensures rs[0].id != rest[j].id {
          assert rest[j] in rs[1..];
          var m :| 0 <= m < |rs[1..]| && rs[1..][m] == rest[j];
          assert rs[m + 1] == rest[j];
        }
      }
    }
  }

  /** With unique ids, deleting an id that is present removes exactly one record. */
  lemma {:induction false} WithoutRemovesOne(rs: seq<JobApplication>, id: string)
    requires UniqueIds(rs) && HasId(rs, id)
    ensures |Without(rs, id)| == |rs| - 1
  {
    assert Without(rs, id) == (if rs[0].id != id then [rs[0]] else []) + Without(rs[1..], id);
    if rs[0].id == id {
      assert !HasId(rs[1..], id) by {
        forall m | 0 <= m < |rs[1..]| ensures rs[1..][m].id != id {
          assert rs[1..][m] == rs[m + 1];
        }
      }
      WithoutAbsentIsNoOp(rs[1..], id);
    } else {
      var k :| 0 <= k < |rs| && rs[k].id == id;
      assert rs[1..][k - 1].id == id;
      WithoutRemovesOne(rs[1..], id);
    }
  }
}
