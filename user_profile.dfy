/**
 * The profile page of `src/pages/UserProfile.tsx`: the saved profile, the temporary copy
 * the edit mode works on, and the handlers that save, cancel, toggle a favourite and add
 * list entries.
 */
module UserProfile {
  import opened Text

  datatype Country = Country(name: string, year: string, favorite: bool)

  datatype SocialMedia = SocialMedia(instagram: string, twitter: string, travelBlog: string)

  /** The preference percentages of the profile. */
  datatype Preferences = Preferences(accommodation: int, food: int, activities: int, shopping: int, relaxation: int)

  datatype Profile = Profile(name: string, bio: string, avatar: string, location: string, joined: string,
                             travelStyle: seq<string>, visitedCountries: seq<Country>, bucketList: seq<string>,
                             socialMedia: SocialMedia, preferredClimate: string, preferredAccommodation: string,
                             travelSeason: string, languages: seq<string>, travelPreferences: Preferences)

  /** `editMode`, `profile` and `tempProfile`. */
  datatype ProfileState = ProfileState(editMode: bool, profile: Profile, temp: Profile)

  /** The first render: not editing, and the temporary copy equal to the profile. */
  function Initial(p: Profile): ProfileState
  {
    ProfileState(false, p, p)
  }

  /** The countries on screen: the temporary copy while editing, the profile otherwise. */
  function ShownCountries(s: ProfileState): seq<Country>
  {
    if s.editMode then s.temp.visitedCountries else s.profile.visitedCountries
  }

  // ------------------------------------------------------------ favourites

  /** The `map` of `handleToggleFavorite`: flip `favorite` on every country of that name. */
  function FlipFavorite(cs: seq<Country>, name: string): (r: seq<Country>)
    ensures |r| == |cs|
  {
    seq(|cs|, i requires 0 <= i < |cs| => if cs[i].name == name then cs[i].(favorite := !cs[i].favorite) else cs[i])
  }

  /** Every country of that name, and no other, has its favourite flag flipped; twice restores the list. */
  lemma FlipFavoriteSpec(cs: seq<Country>, name: string)
    ensures forall i :: 0 <= i < |cs| && cs[i].name == name ==>
      FlipFavorite(cs, name)[i] == cs[i].(favorite := !cs[i].favorite)
    ensures forall i :: 0 <= i < |cs| && cs[i].name != name ==> FlipFavorite(cs, name)[i] == cs[i]
    ensures FlipFavorite(FlipFavorite(cs, name), name) == cs
  {
  }

  /** `handleToggleFavorite`: on the temporary copy while editing, on the profile itself otherwise. */
  function AfterToggleFavorite(s: ProfileState, name: string): (r: ProfileState)
    ensures r.editMode == s.editMode
    ensures s.editMode ==> r.profile == s.profile
    ensures !s.editMode ==> r.temp == s.temp
  {
    if s.editMode then
      s.(temp := s.temp.(visitedCountries := FlipFavorite(s.temp.visitedCountries, name)))
    else
      s.(profile := s.profile.(visitedCountries := FlipFavorite(s.profile.visitedCountries, name)))
  }

  /** While editing only the temporary copy changes; otherwise only the profile. */
  lemma ToggleFavoriteTarget(s: ProfileState, name: string)
    ensures var t := AfterToggleFavorite(s, name);
      t.editMode == s.editMode
      && (s.editMode ==> t.profile == s.profile
                         && t.temp == s.temp.(visitedCountries := FlipFavorite(s.temp.visitedCountries, name)))
      && (!s.editMode ==> t.temp == s.temp
                          && t.profile == s.profile.(visitedCountries := FlipFavorite(s.profile.visitedCountries, name)))
    ensures ShownCountries(AfterToggleFavorite(s, name)) == FlipFavorite(ShownCountries(s), name)
  {
  }

  // ------------------------------------------------------------ saving and cancelling

  /** `handleSaveProfile`. */
  function AfterSave(s: ProfileState): (r: ProfileState)
    ensures r.profile == s.temp && r.temp == s.temp && !r.editMode
  {
    s.(profile := s.temp, editMode := false)
  }

  /** The Cancel button. */
  function AfterCancel(s: ProfileState): (r: ProfileState)
    ensures r.profile == s.profile && r.temp == s.profile && !r.editMode
  {
    s.(editMode := false, temp := s.profile)
  }

  /** Saving makes the temporary copy the profile and leaves edit mode; cancelling drops the copy. */
  lemma SaveAndCancel(s: ProfileState)
    ensures AfterSave(s).profile == s.temp && !AfterSave(s).editMode && AfterSave(s).temp == s.temp
    ensures AfterCancel(s).profile == s.profile && AfterCancel(s).temp == s.profile && !AfterCancel(s).editMode
    ensures AfterSave(AfterSave(s)) == AfterSave(s) && AfterCancel(AfterCancel(s)) == AfterCancel(s)
  {
  }

  /** Edits on the copy followed by Cancel leave the profile as it was. */
  lemma CancelDiscardsEdits(s: ProfileState, edited: Profile)
    ensures AfterCancel(s.(temp := edited)) == AfterCancel(s)
    ensures AfterCancel(s.(temp := edited)).profile == s.profile
  {
  }

  // ------------------------------------------------------------ entering edit mode

  /** The Edit Profile button as written: it only switches edit mode on. */
  function EnterEditAsWritten(s: ProfileState): (r: ProfileState)
    ensures r.editMode && r.profile == s.profile && r.temp == s.temp
  {
    s.(editMode := true)
  }

  /** The Edit Profile button as intended: edit a fresh copy of the current profile. */
  function EnterEditMode(s: ProfileState): (r: ProfileState)
    ensures r.editMode && r.profile == s.profile && r.temp == s.profile
  {
    s.(editMode := true, temp := s.profile)
  }

  /** With the intended button, Edit then Save without edits keeps the profile, and Edit shows the current countries. */
  lemma EditSaveKeepsProfile(s: ProfileState)
    ensures AfterSave(EnterEditMode(s)).profile == s.profile
    ensures ShownCountries(EnterEditMode(s)) == s.profile.visitedCountries
  {
  }

  /**
   * As written, a favourite toggled outside edit mode is lost by Edit then Save: the
   * temporary copy still holds the older list.
   */
  lemma EditSaveLosesFavorite(p: Profile)
    requires |p.visitedCountries| > 0
    ensures var s := AfterToggleFavorite(Initial(p), p.visitedCountries[0].name);
      && s.profile != p
      && AfterSave(EnterEditAsWritten(s)).profile == p
  {
    var s := AfterToggleFavorite(Initial(p), p.visitedCountries[0].name);
    assert s.profile.visitedCountries[0].favorite != p.visitedCountries[0].favorite;
  }

  // ------------------------------------------------------------ adding entries

  /** `handleAddCountry`; the current year is a parameter. */
  function AfterAddCountry(s: ProfileState, year: nat): (r: ProfileState)
    ensures r.profile == s.profile && r.editMode == s.editMode
    ensures |r.temp.visitedCountries| == |s.temp.visitedCountries| + 1 && !r.temp.visitedCountries[0].favorite
  {
    var c := Country("New Country", NatToString(year), false);
    s.(temp := s.temp.(visitedCountries := [c] + s.temp.visitedCountries))
  }

  /** `handleAddBucketListItem`. */
  function AfterAddBucketItem(s: ProfileState): (r: ProfileState)
    ensures r.profile == s.profile && r.editMode == s.editMode
    ensures |r.temp.bucketList| == |s.temp.bucketList| + 1
  {
    s.(temp := s.temp.(bucketList := s.temp.bucketList + ["New bucket list item"]))
  }

  /** The Add button of the travel styles. */
  function AfterAddStyle(s: ProfileState): (r: ProfileState)
    ensures r.profile == s.profile && r.editMode == s.editMode
    ensures |r.temp.travelStyle| == |s.temp.travelStyle| + 1
  {
    s.(temp := s.temp.(travelStyle := s.temp.travelStyle + ["New Style"]))
  }

  /** The Add button of the languages. */
  function AfterAddLanguage(s: ProfileState): (r: ProfileState)
    ensures r.profile == s.profile && r.editMode == s.editMode
    ensures |r.temp.languages| == |s.temp.languages| + 1
  {
    s.(temp := s.temp.(languages := s.temp.languages + ["New Language"]))
  }

  /** A new country comes first, unfavourited, dated with the year's digits; nothing else changes. */
  lemma AddCountryPrepends(s: ProfileState, year: nat)
    ensures var t := AfterAddCountry(s, year);
      && t.temp.visitedCountries[0] == Country("New Country", NatToString(year), false)
      && t.temp.visitedCountries[1..] == s.temp.visitedCountries
      && DigitsValue(t.temp.visitedCountries[0].year) == year
      && t.temp.(visitedCountries := s.temp.visitedCountries) == s.temp
      && t.profile == s.profile && t.editMode == s.editMode
  {
    DigitsValueOfNatToString(year);
  }

  /** Each Add button appends exactly one placeholder to its list of the temporary copy and changes nothing else. */
  lemma AddAppendsOne(s: ProfileState)
    ensures var t := AfterAddBucketItem(s);
      |t.temp.bucketList| == |s.temp.bucketList| + 1 && t.temp.bucketList[..|s.temp.bucketList|] == s.temp.bucketList
      && t.temp.bucketList[|s.temp.bucketList|] == "New bucket list item"
      && t.temp.(bucketList := s.temp.bucketList) == s.temp && t.profile == s.profile
    ensures var t := AfterAddStyle(s);
      |t.temp.travelStyle| == |s.temp.travelStyle| + 1 && t.temp.travelStyle[..|s.temp.travelStyle|] == s.temp.travelStyle
      && t.temp.travelStyle[|s.temp.travelStyle|] == "New Style"
      && t.temp.(travelStyle := s.temp.travelStyle) == s.temp && t.profile == s.profile
    ensures var t := AfterAddLanguage(s);
      |t.temp.languages| == |s.temp.languages| + 1 && t.temp.languages[..|s.temp.languages|] == s.temp.languages
      && t.temp.languages[|s.temp.languages|] == "New Language"
      && t.temp.(languages := s.temp.languages) == s.temp && t.profile == s.profile
  {
  }

  /** Adding entries and cancelling leaves the saved profile as it was. */
  lemma AddThenCancel(s: ProfileState, year: nat)
    ensures AfterCancel(AfterAddCountry(s, year)).profile == s.profile
    ensures AfterCancel(AfterAddLanguage(AfterAddStyle(AfterAddBucketItem(s)))) == AfterCancel(s)
  {
  }

  // ------------------------------------------------------------ the page

  class ProfilePage {
    var editMode: bool
    var profile: Profile
    var tempProfile: Profile

    function State(): ProfileState
      reads this
    {
      ProfileState(editMode, profile, tempProfile)
    }

    constructor (p: Profile)
      ensures State() == Initial(p)
    {
      editMode, profile, tempProfile := false, p, p;
    }

    /** The Edit Profile button, with the temporary copy refreshed from the profile. */
    method StartEditing()
      modifies this
      ensures State() == EnterEditMode(old(State()))
    {
      tempProfile := profile;
      editMode := true;
    }

    method SaveProfile()
      modifies this
      ensures State() == AfterSave(old(State()))
    {
      profile := tempProfile;
      editMode := false;
    }

    method Cancel()
      modifies this
      ensures State() == AfterCancel(old(State()))
    {
      editMode := false;
      tempProfile := profile;
    }

    method ToggleFavorite(name: string)
      modifies this
      ensures State() == AfterToggleFavorite(old(State()), name)
    {
      if editMode {
        tempProfile := tempProfile.(visitedCountries := FlipFavorite(tempProfile.visitedCountries, name));
      } else {
        profile := profile.(visitedCountries := FlipFavorite(profile.visitedCountries, name));
      }
    }

    method AddCountry(year: nat)
      modifies this
      ensures State() == AfterAddCountry(old(State()), year)
    {
      var c := Country("New Country", NatToString(year), false);
      tempProfile := tempProfile.(visitedCountries := [c] + tempProfile.visitedCountries);
    }

    method AddBucketListItem()
      modifies this
      ensures State() == AfterAddBucketItem(old(State()))
    {
      tempProfile := tempProfile.(bucketList := tempProfile.bucketList + ["New bucket list item"]);
    }

    method AddStyle()
      modifies this
      ensures State() == AfterAddStyle(old(State()))
    {
      tempProfile := tempProfile.(travelStyle := tempProfile.travelStyle + ["New Style"]);
    }

    method AddLanguage()
      modifies this
      ensures State() == AfterAddLanguage(old(State()))
    {
      tempProfile := tempProfile.(languages := tempProfile.languages + ["New Language"]);
    }
  }
}
