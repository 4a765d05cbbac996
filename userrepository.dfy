/**
 * The `users` collection: one profile document per user, written with
 * `set(..., { merge: true })`, and the query for a user's primary roadmap.
 */
module UserRepository {
  import opened Wrappers
  import opened Js
  import opened RoadmapRepository

  /** A profile document after a merge write of `data` onto what `stored` held (absent: nothing). */
  function Merge(stored: Option<map<string, Json>>, data: map<string, Json>): (r: map<string, Json>)
    ensures r.Keys == data.Keys + (if stored.Some? then stored.value.Keys else {})
  {
    (if stored.Some? then stored.value else map[]) + data
  }

  /**
   * Supplied fields overwrite, unsupplied stored fields are kept, and a
   * missing document is created from the supplied fields alone.
   */
  lemma MergeFields(stored: Option<map<string, Json>>, data: map<string, Json>)
    ensures forall k :: k in data ==> Merge(stored, data)[k] == data[k]
    ensures stored.Some? ==> forall k :: k in stored.value && k !in data ==> Merge(stored, data)[k] == stored.value[k]
    ensures stored.None? ==> Merge(stored, data) == data
  {
  }

  /** Merging the same fields twice is merging them once. */
  lemma MergeIdempotent(stored: Option<map<string, Json>>, data: map<string, Json>)
    ensures Merge(Some(Merge(stored, data)), data) == Merge(stored, data)
  {
  }

  class ProfileStore {
    /** userId -> profile document */
    var profiles: map<string, map<string, Json>>

    constructor ()
      ensures profiles == map[]
    {
      profiles := map[];
    }

    /** `getUserProfile`: null (None) for a missing document, the stored data otherwise. */
    function GetUserProfile(userId: string): (r: Option<map<string, Json>>)
      reads this
      ensures r.None? <==> userId !in profiles
      ensures r.Some? ==> r.value == profiles[userId]
    {
      if userId in profiles then Some(profiles[userId]) else None
    }

    /** `upsertUserProfile`: a merge write into this user's document only. */
    method UpsertUserProfile(userId: string, profileData: map<string, Json>)
      modifies this
      ensures profiles == old(profiles)[userId := Merge(old(GetUserProfile(userId)), profileData)]
      ensures GetUserProfile(userId).Some?
      ensures forall k :: k in profileData ==> GetUserProfile(userId).value[k] == profileData[k]
    {
      profiles := profiles[userId := Merge(GetUserProfile(userId), profileData)];
      MergeFields(old(GetUserProfile(userId)), profileData);
    }
  }

  /** `d` is the roadmap with the earliest `createdAt` among `docs`. */
  predicate IsOldest(docs: map<string, RoadmapDoc>, d: RoadmapDoc) {
    d in docs.Values && forall id :: id in docs ==> d.createdAt <= docs[id].createdAt
  }

  /**
   * `getPrimaryRoadmap`: the query `orderBy("createdAt", "asc").limit(1)`,
   * computed by a scan of the user's roadmaps. None stands for null.
   */
  method GetPrimaryRoadmap(store: RoadmapStore, userId: string) returns (r: Option<RoadmapDoc>)
    ensures r.None? <==> store.Docs(userId) == map[]
    ensures r.Some? ==> IsOldest(store.Docs(userId), r.value)
  {
    var docs := store.Docs(userId);
    var todo := docs.Keys;
    r := None;
    while todo != {}
      invariant todo <= docs.Keys
      invariant r.None? <==> todo == docs.Keys
      invariant r.Some? ==> r.value in docs.Values
      invariant r.Some? ==> forall id :: id in docs && id !in todo ==> r.value.createdAt <= docs[id].createdAt
      decreases |todo|
    {
      var id :| id in todo;
      var d := docs[id];
      if r.None? || d.createdAt < r.value.createdAt {
        r := Some(d);
      }
      todo := todo - {id};
    }
    assert r.None? ==> docs.Keys == {};
  }

  /** With distinct timestamps, at most one roadmap is the oldest. */
  lemma OldestUnique(docs: map<string, RoadmapDoc>, d1: RoadmapDoc, d2: RoadmapDoc)
    requires forall a, b :: a in docs && b in docs && a != b ==> docs[a].createdAt != docs[b].createdAt
    requires IsOldest(docs, d1) && IsOldest(docs, d2)
    ensures d1 == d2
  {
    var a :| a in docs && docs[a] == d1;
    var b :| b in docs && docs[b] == d2;
    assert d1.createdAt <= d2.createdAt && d2.createdAt <= d1.createdAt;
  }
}
