/**
 * The profile page's local edits: adding and removing work experience
 * and education entries, and recording an uploaded picture or resume.
 * Each builds a new profile from `{ ...profile }` and installs it.
 */
module ProfilePage {
  import opened Wrappers
  import opened Js

  datatype WorkExperience = WorkExperience(id: Option<string>, role: string, company: string, startDate: string,
                                           endDate: Option<string>, description: Option<string>)

  datatype Education = Education(id: Option<string>, institution: string, degree: string,
                                 fieldOfStudy: Option<string>, graduationDate: string)

  /**
   * A `UserProfile`: the fields these edits touch, and the others
   * (name, skills, preferences, ...) together in `rest`.
   */
  datatype Profile = Profile(workExperience: Option<seq<WorkExperience>>, education: Option<seq<Education>>,
                             profilePictureUrl: Option<string>, resumePath: Option<string>,
                             rest: map<string, Json>)

  /** `{ ...profile }`: a copy, and the empty object while the profile is still null. */
  function Spread(profile: Option<Profile>): (p: Profile)
    ensures profile.Some? ==> p == profile.value
    ensures profile.None? ==> p.workExperience.None? && p.education.None? && p.profilePictureUrl.None?
                              && p.resumePath.None? && p.rest == map[]
  {
    if profile.Some? then profile.value else Profile(None, None, None, None, map[])
  }

  /** `list || []`. */
  function OrEmpty<T>(list: Option<seq<T>>): (r: seq<T>)
    ensures list.Some? ==> r == list.value
    ensures list.None? ==> r == []
  {
    if list.Some? then list.value else []
  }

  // ---------------------------------------------------------------------
  // Removing by id

  /** `filter(entry => entry.id !== id)`: an entry without an id is never removed. */
  function DropId<T(!new)>(entries: seq<T>, idOf: T -> Option<string>, id: string): (r: seq<T>)
    ensures |r| <= |entries|
    ensures forall e :: e in r <==> e in entries && idOf(e) != Some(id)
  {
    if entries == [] then []
    else (if idOf(entries[0]) != Some(id) then [entries[0]] else []) + DropId(entries[1..], idOf, id)
  }

  /** The filter keeps order: it works on each part of a concatenation separately. */
  lemma {:induction false} DropIdAppend<T(!new)>(xs: seq<T>, ys: seq<T>, idOf: T -> Option<string>, id: string)
    ensures DropId(xs + ys, idOf, id) == DropId(xs, idOf, id) + DropId(ys, idOf, id)
    decreases |xs|
  {
    if xs == [] {
      assert xs + ys == ys;
    } else {
      assert (xs + ys)[0] == xs[0] && (xs + ys)[1..] == xs[1..] + ys;
      DropIdAppend(xs[1..], ys, idOf, id);
    }
  }

  /** A list without the id comes back unchanged. */
  lemma {:induction false} DropIdAbsent<T(!new)>(entries: seq<T>, idOf: T -> Option<string>, id: string)
    requires forall i :: 0 <= i < |entries| ==> idOf(entries[i]) != Some(id)
    ensures DropId(entries, idOf, id) == entries
    decreases |entries|
  {
    if entries != [] {
      DropIdAbsent(entries[1..], idOf, id);
      assert entries == [entries[0]] + entries[1..];
    }
  }

  function WorkId(e: WorkExperience): Option<string> { e.id }
  function EducationId(e: Education): Option<string> { e.id }

  // ---------------------------------------------------------------------
  // Work experience

  /** The blank entry `addWorkExperience` appends; its id is `Date.now().toString()`. */
  function BlankExperience(now: nat): WorkExperience {
    WorkExperience(Some(NatToString(now)), "", "", "", Some(""), Some(""))
  }

  /** `addWorkExperience()` at time `now`. */
  function AddWorkExperience(profile: Option<Profile>, now: nat): (p: Profile)
    ensures p.workExperience == Some(OrEmpty(Spread(profile).workExperience) + [BlankExperience(now)])
    ensures p.(workExperience := Spread(profile).workExperience) == Spread(profile)
  {
    var old_ := Spread(profile);
    old_.(workExperience := Some(OrEmpty(old_.workExperience) + [BlankExperience(now)]))
  }

  /** `removeWorkExperience(id)`. */
  function RemoveWorkExperience(profile: Option<Profile>, id: string): (p: Profile)
    ensures p.workExperience.Some?
    ensures forall e :: e in p.workExperience.value <==>
              e in OrEmpty(Spread(profile).workExperience) && e.id != Some(id)
    ensures p.(workExperience := Spread(profile).workExperience) == Spread(profile)
  {
    var old_ := Spread(profile);
    old_.(workExperience := Some(DropId(OrEmpty(old_.workExperience), WorkId, id)))
  }

  /**
   * The appended entry is the blank one, and the entries before it are
   * the old list (an absent list counts as empty).
   */
  lemma AddedExperienceIsBlank(profile: Option<Profile>, now: nat)
    ensures var list := AddWorkExperience(profile, now).workExperience.value;
            var before := OrEmpty(Spread(profile).workExperience);
            |list| == |before| + 1 && list[..|before|] == before
            && list[|before|].role == "" && list[|before|].company == "" && list[|before|].startDate == ""
            && list[|before|].endDate == Some("") && list[|before|].description == Some("")
  {
    var before := OrEmpty(Spread(profile).workExperience);
    assert (before + [BlankExperience(now)])[..|before|] == before;
  }

  /** Removing an id keeps the other entries in their order. */
  lemma RemoveKeepsOrder(profile: Option<Profile>, id: string, i: nat)
    requires var list := OrEmpty(Spread(profile).workExperience);
             i <= |list| && forall j :: i <= j < |list| ==> list[j].id != Some(id)
    ensures var list := OrEmpty(Spread(profile).workExperience);
            RemoveWorkExperience(profile, id).workExperience.value
            == DropId(list[..i], WorkId, id) + list[i..]
  {
    var list := OrEmpty(Spread(profile).workExperience);
    assert list == list[..i] + list[i..];
    DropIdAppend(list[..i], list[i..], WorkId, id);
    DropIdAbsent(list[i..], WorkId, id);
  }

  /**
   * Adding an entry and then removing it by its id gives back the
   * original list, when no existing entry had that id.
   */
  lemma AddThenRemoveWork(profile: Option<Profile>, now: nat)
    requires forall e :: e in OrEmpty(Spread(profile).workExperience) ==> e.id != Some(NatToString(now))
    ensures RemoveWorkExperience(Some(AddWorkExperience(profile, now)), NatToString(now))
            == Spread(profile).(workExperience := Some(OrEmpty(Spread(profile).workExperience)))
  {
    var before := OrEmpty(Spread(profile).workExperience);
    var id := NatToString(now);
    DropIdAppend(before, [BlankExperience(now)], WorkId, id);
    forall i | 0 <= i < |before| ensures WorkId(before[i]) != Some(id) {
      assert before[i] in before;
    }
    DropIdAbsent(before, WorkId, id);
    assert DropId([BlankExperience(now)], WorkId, id) == [];
    var added := AddWorkExperience(profile, now);
    assert OrEmpty(Spread(Some(added)).workExperience) == before + [BlankExperience(now)];
    assert DropId(before + [BlankExperience(now)], WorkId, id) == before + [] == before;
    assert RemoveWorkExperience(Some(added), id) == added.(workExperience := Some(before));
  }

  // ---------------------------------------------------------------------
  // Education

  /** The blank entry `addEducation` appends. */
  function BlankEducation(now: nat): Education {
    Education(Some(NatToString(now)), "", "", Some(""), "")
  }

  /** `addEducation()` at time `now`. */
  function AddEducation(profile: Option<Profile>, now: nat): (p: Profile)
    ensures p.education == Some(OrEmpty(Spread(profile).education) + [BlankEducation(now)])
    ensures p.(education := Spread(profile).education) == Spread(profile)
  {
    var old_ := Spread(profile);
    old_.(education := Some(OrEmpty(old_.education) + [BlankEducation(now)]))
  }

  /** `removeEducation(id)`. */
  function RemoveEducation(profile: Option<Profile>, id: string): (p: Profile)
    ensures p.education.Some?
    ensures forall e :: e in p.education.value <==> e in OrEmpty(Spread(profile).education) && e.id != Some(id)
    ensures p.(education := Spread(profile).education) == Spread(profile)
  {
    var old_ := Spread(profile);
    old_.(education := Some(DropId(OrEmpty(old_.education), EducationId, id)))
  }

  lemma AddedEducationIsBlank(profile: Option<Profile>, now: nat)
    ensures var list := AddEducation(profile, now).education.value;
            var before := OrEmpty(Spread(profile).education);
            |list| == |before| + 1 && list[..|before|] == before
            && list[|before|].institution == "" && list[|before|].degree == ""
            && list[|before|].fieldOfStudy == Some("") && list[|before|].graduationDate == ""
  {
    var before := OrEmpty(Spread(profile).education);
    assert (before + [BlankEducation(now)])[..|before|] == before;
  }

  lemma AddThenRemoveEducation(profile: Option<Profile>, now: nat)
    requires forall e :: e in OrEmpty(Spread(profile).education) ==> e.id != Some(NatToString(now))
    ensures RemoveEducation(Some(AddEducation(profile, now)), NatToString(now))
            == Spread(profile).(education := Some(OrEmpty(Spread(profile).education)))
  {
    var before := OrEmpty(Spread(profile).education);
    var id := NatToString(now);
    DropIdAppend(before, [BlankEducation(now)], EducationId, id);
    forall i | 0 <= i < |before| ensures EducationId(before[i]) != Some(id) {
      assert before[i] in before;
    }
    DropIdAbsent(before, EducationId, id);
    assert DropId([BlankEducation(now)], EducationId, id) == [];
    var added := AddEducation(profile, now);
    assert OrEmpty(Spread(Some(added)).education) == before + [BlankEducation(now)];
    assert DropId(before + [BlankEducation(now)], EducationId, id) == before + [] == before;
    assert RemoveEducation(Some(added), id) == added.(education := Some(before));
  }

  // ---------------------------------------------------------------------
  // Uploads

  datatype UploadKind = Picture | Resume

  /** The upload endpoints' reply: the stored location under the key of its kind. */
  datatype UploadResponse = UploadResponse(profilePictureUrl: Option<string>, resumePath: Option<string>)

  /**
   * The state change in `handleFileUpload` once the upload returned: a
   * copy of the profile with the one field assigned.
   */
  method RecordUpload(profile: Option<Profile>, kind: UploadKind, response: UploadResponse)
    returns (updatedProfile: Profile)
    ensures kind == Picture ==>
              updatedProfile == Spread(profile).(profilePictureUrl := response.profilePictureUrl)
    ensures kind == Resume ==>
              updatedProfile == Spread(profile).(resumePath := response.resumePath)
  {
    updatedProfile := Spread(profile);
    if kind == Picture {
      updatedProfile := updatedProfile.(profilePictureUrl := response.profilePictureUrl);
    } else {
      updatedProfile := updatedProfile.(resumePath := response.resumePath);
    }
  }

  /** `handleFileUpload(file, kind)`: a failed upload leaves the profile as it was. */
  method HandleFileUpload(profile: Option<Profile>, kind: UploadKind, response: Result<UploadResponse>)
    returns (next: Option<Profile>)
    ensures response.Err? ==> next == profile
    ensures response.Ok? ==> next.Some?
    ensures response.Ok? && kind == Picture ==>
              next.value.profilePictureUrl == response.value.profilePictureUrl
              && next.value.(profilePictureUrl := Spread(profile).profilePictureUrl) == Spread(profile)
    ensures response.Ok? && kind == Resume ==>
              next.value.resumePath == response.value.resumePath
              && next.value.(resumePath := Spread(profile).resumePath) == Spread(profile)
  {
    if response.Err? {
      return profile;
    }
    var updatedProfile := RecordUpload(profile, kind, response.value);
    next := Some(updatedProfile);
  }
}
