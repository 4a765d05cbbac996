/**
 * The job search page: the result sections it shows, the labels on the
 * job cards, and the saved-jobs set the heart buttons toggle.
 */
module JobSearchPage {
  import opened Wrappers
  import opened Js
  import opened ZodSchemas
  import opened JobSearchService

  /** A `JobDetails` as the page receives it. */
  datatype JobDetails = JobDetails(title: string, company: string, location: Option<string>, description: string,
                                   url: string, personalizedFit: Option<string>, isSteppingStone: Option<bool>)

  /** A `JobSearchOutput`: the three buckets, each in the order it arrives. */
  datatype JobSearchOutput = JobSearchOutput(passionRoles: seq<JobDetails>, strengthRoles: seq<JobDetails>,
                                             growthRoles: seq<JobDetails>)

  /** The bucket of a category key; any other key has no jobs. */
  function Bucket(out: JobSearchOutput, category: string): seq<JobDetails> {
    if category == "passionRoles" then out.passionRoles
    else if category == "strengthRoles" then out.strengthRoles
    else if category == "growthRoles" then out.growthRoles
    else []
  }

  // ---------------------------------------------------------------------
  // Results

  /** The number in "Found N jobs matching your profile". */
  function JobCount(out: JobSearchOutput): nat {
    |out.passionRoles| + |out.strengthRoles| + |out.growthRoles|
  }

  /** A rendered section: its bucket and the cards under it. */
  datatype Section = Section(category: string, cards: seq<JobDetails>)

  /** The sections rendered for the given bucket keys: each key whose bucket has at least one job, in order. */
  function SectionsFor(out: JobSearchOutput, keys: seq<string>): seq<Section>
    decreases |keys|
  {
    if keys == [] then []
    else
      (if |Bucket(out, keys[0])| > 0 then [Section(keys[0], Bucket(out, keys[0]))] else [])
      + SectionsFor(out, keys[1..])
  }

  /** The page renders the passion, strength and growth blocks in turn. */
  function Sections(out: JobSearchOutput): seq<Section> {
    SectionsFor(out, Buckets)
  }

  /** The "No jobs found" card's condition. */
  predicate NoJobsFound(out: JobSearchOutput) {
    |out.passionRoles| == 0 && |out.strengthRoles| == 0 && |out.growthRoles| == 0
  }

  predicate SectionShown(out: JobSearchOutput, category: string) {
    exists i :: 0 <= i < |Sections(out)| && Sections(out)[i].category == category
  }

  /** The number of job cards in a list of sections. */
  function CardCount(sections: seq<Section>): nat {
    if sections == [] then 0 else |sections[0].cards| + CardCount(sections[1..])
  }

  /** The total size of the buckets of `keys`. */
  function BucketSizes(out: JobSearchOutput, keys: seq<string>): nat
    decreases |keys|
  {
    if keys == [] then 0 else |Bucket(out, keys[0])| + BucketSizes(out, keys[1..])
  }

  lemma {:induction false} CardsOfSections(out: JobSearchOutput, keys: seq<string>)
    ensures CardCount(SectionsFor(out, keys)) == BucketSizes(out, keys)
    ensures SectionsFor(out, keys) == [] <==> BucketSizes(out, keys) == 0
    decreases |keys|
  {
    if keys != [] {
      CardsOfSections(out, keys[1..]);
      var rest := SectionsFor(out, keys[1..]);
      if |Bucket(out, keys[0])| > 0 {
        var h := Section(keys[0], Bucket(out, keys[0]));
        assert SectionsFor(out, keys) == [h] + rest;
        assert ([h] + rest)[0] == h && ([h] + rest)[1..] == rest;
      } else {
        assert SectionsFor(out, keys) == [] + rest == rest;
      }
    }
  }

  /** Each section is a key's non-empty bucket. */
  lemma {:induction false} SectionsAreBuckets(out: JobSearchOutput, keys: seq<string>)
    ensures forall i :: 0 <= i < |SectionsFor(out, keys)| ==>
              SectionsFor(out, keys)[i].category in keys
              && SectionsFor(out, keys)[i].cards == Bucket(out, SectionsFor(out, keys)[i].category)
              && |SectionsFor(out, keys)[i].cards| > 0
    decreases |keys|
  {
    if keys != [] {
      SectionsAreBuckets(out, keys[1..]);
      var rest := SectionsFor(out, keys[1..]);
      var all := SectionsFor(out, keys);
      if |Bucket(out, keys[0])| > 0 {
        var h := Section(keys[0], Bucket(out, keys[0]));
        assert all == [h] + rest;
        forall i | 0 < i < |all| ensures all[i] == rest[i - 1] {
        }
      } else {
        assert all == [] + rest == rest;
      }
    }
  }

  /** Every key with a non-empty bucket has its section. */
  lemma {:induction false} BucketsHaveSections(out: JobSearchOutput, keys: seq<string>)
    ensures forall k :: k in keys && |Bucket(out, k)| > 0 ==> Section(k, Bucket(out, k)) in SectionsFor(out, keys)
    decreases |keys|
  {
    if keys != [] {
      BucketsHaveSections(out, keys[1..]);
      var rest := SectionsFor(out, keys[1..]);
      var all := SectionsFor(out, keys);
      if |Bucket(out, keys[0])| > 0 {
        assert all == [Section(keys[0], Bucket(out, keys[0]))] + rest;
      } else {
        assert all == [] + rest == rest;
      }
      forall k | k in keys && |Bucket(out, k)| > 0 ensures Section(k, Bucket(out, k)) in all {
        if k != keys[0] {
          assert k in keys[1..];
        }
      }
    }
  }

  /** Distinct keys give sections of distinct categories. */
  lemma {:induction false} SectionsDistinct(out: JobSearchOutput, keys: seq<string>)
    requires forall i, j :: 0 <= i < j < |keys| ==> keys[i] != keys[j]
    ensures forall i, j :: 0 <= i < j < |SectionsFor(out, keys)| ==>
              SectionsFor(out, keys)[i].category != SectionsFor(out, keys)[j].category
    decreases |keys|
  {
    if keys != [] {
      SectionsDistinct(out, keys[1..]);
      SectionsAreBuckets(out, keys[1..]);
      var rest := SectionsFor(out, keys[1..]);
      var all := SectionsFor(out, keys);
      if |Bucket(out, keys[0])| > 0 {
        assert all == [Section(keys[0], Bucket(out, keys[0]))] + rest;
        assert keys[0] !in keys[1..] by {
          forall m | 0 <= m < |keys[1..]| ensures keys[1..][m] != keys[0] {
            assert keys[1..][m] == keys[m + 1];
          }
        }
        forall i, j | 0 <= i < j < |all| ensures all[i].category != all[j].category {
          assert all[j] == rest[j - 1];
          if i > 0 {
            assert all[i] == rest[i - 1];
          }
        }
      } else {
        assert all == [] + rest == rest;
      }
    }
  }

  /**
   * The count in the summary is the number of cards rendered; "No jobs
   * found" shows exactly when nothing else does, which is when the count
   * is 0.
   */
  lemma CountMatchesCards(out: JobSearchOutput)
    ensures CardCount(Sections(out)) == JobCount(out)
    ensures NoJobsFound(out) <==> Sections(out) == []
    ensures NoJobsFound(out) <==> JobCount(out) == 0
  {
    CardsOfSections(out, Buckets);
    assert Buckets[1..][1..][1..] == [];
  }

  /** Each bucket's section appears exactly when the bucket is non-empty, with that bucket's jobs, and at most once. */
  lemma SectionPerBucket(out: JobSearchOutput, category: string)
    requires category in Buckets
    ensures SectionShown(out, category) <==> |Bucket(out, category)| > 0
    ensures forall i :: 0 <= i < |Sections(out)| && Sections(out)[i].category == category ==>
              Sections(out)[i].cards == Bucket(out, category)
    ensures forall i, j :: 0 <= i < j < |Sections(out)| ==> Sections(out)[i].category != Sections(out)[j].category
  {
    SectionsAreBuckets(out, Buckets);
    BucketsHaveSections(out, Buckets);
    SectionsDistinct(out, Buckets);
    var s := Sections(out);
    if |Bucket(out, category)| > 0 {
      var k :| 0 <= k < |s| && s[k] == Section(category, Bucket(out, category));
      assert s[k].category == category;
    }
  }

  /** The label on a card of the given category. */
  function CategoryLabel(category: string): string {
    if category == "passionRoles" then "Passion Match"
    else if category == "strengthRoles" then "Strength Match"
    else "Growth Opportunity"
  }

  /** The three buckets get three different labels; any other key falls to the last. */
  lemma LabelsDistinct(category: string)
    ensures CategoryLabel("passionRoles") != CategoryLabel("strengthRoles")
    ensures CategoryLabel("strengthRoles") != CategoryLabel("growthRoles")
    ensures CategoryLabel("passionRoles") != CategoryLabel("growthRoles")
    ensures category != "passionRoles" && category != "strengthRoles" ==> CategoryLabel(category) == "Growth Opportunity"
  {
    assert CategoryLabel("passionRoles")[0] == 'P';
    assert CategoryLabel("strengthRoles")[0] == 'S';
    assert CategoryLabel("growthRoles")[0] == 'G';
  }

  // ---------------------------------------------------------------------
  // Saved jobs

  /** The saved set after a toggle of `url`. */
  function Toggled(saved: set<string>, url: string): (r: set<string>)
    ensures url in r <==> url !in saved
    ensures forall u :: u != url ==> (u in r <==> u in saved)
  {
    if url in saved then saved - {url} else saved + {url}
  }

  /** The page's `savedJobs` state. */
  class SavedJobs {
    var savedJobs: set<string>

    constructor()
      ensures savedJobs == {}
    {
      savedJobs := {};
    }

    /** `isSaved` on a job card: saved state is per url. */
    predicate IsSaved(job: JobDetails)
      reads this
    {
      job.url in savedJobs
    }

    /** `toggleSavedJob(jobUrl)`: a copy of the set, changed in place, then installed. */
    method ToggleSavedJob(jobUrl: string)
      modifies this
      ensures savedJobs == Toggled(old(savedJobs), jobUrl)
    {
      var newSavedJobs := savedJobs;
      if jobUrl in newSavedJobs {
        newSavedJobs := newSavedJobs - {jobUrl};
      } else {
        newSavedJobs := newSavedJobs + {jobUrl};
      }
      savedJobs := newSavedJobs;
    }
  }

  /** Toggling the same url twice restores the saved set. */
  lemma ToggleTwice(saved: set<string>, url: string)
    ensures Toggled(Toggled(saved, url), url) == saved
  {
  }

  /** Toggles of different urls do not interfere: either order gives the same set. */
  lemma TogglesCommute(saved: set<string>, u: string, v: string)
    ensures Toggled(Toggled(saved, u), v) == Toggled(Toggled(saved, v), u)
  {
  }

  /**
   * Two jobs the backend repaired because neither had a valid url both
   * carry the placeholder, so the heart on one also saves the other.
   */
  lemma PlaceholderJobsShareSavedState(fm: Formats, saved: set<string>, j1: Json, j2: Json)
    requires !j1.JNull? && !j2.JNull?
    requires forall j :: j == j1 || j == j2 ==>
               !(Prop(j, "url").Some? && Prop(j, "url").value.JStr? && IsValidUrl(fm, Prop(j, "url").value.s))
    ensures FixJob(fm, j1).Ok? && FixJob(fm, j2).Ok?
    ensures var u1 := FixJob(fm, j1).value.fields["url"].s;
            var u2 := FixJob(fm, j2).value.fields["url"].s;
            u1 == u2 == PlaceholderUrl && (u2 in Toggled(saved, u1) <==> u2 !in saved)
  {
    assert j1 == j1 || j1 == j2;
    assert j2 == j1 || j2 == j2;
  }
}
