/** The profile page: a profile loaded from defaults, the favourite ids and a
    saved profile object; an edit/save/cancel cycle over a working copy that a
    save writes back to storage; and two achievements unlocked by thresholds. */
module ProfilePage {
  import opened Common
  import opened Records

  const DefaultProfile: Profile := Profile(
    "kipasku", "kipas1@gmail.com", "+62 812-3456-7890", "Jakarta Selatan, Indonesia",
    "/placeholder.svg?height=120&width=120", "Januari 2024", 12, 3,
    "Pecinta kucing yang senang berbagi fakta menarik tentang hewan kesayangan. Sudah mengadopsi beberapa kucing dan aktif dalam komunitas pecinta hewan.")

  // ---------------------------------------------------------------------------
  // Stored profile objects

  /** `{ ...p, ...patch }`: every field the stored object has replaces the profile's. */
  function ApplyPatch(p: Profile, patch: ProfilePatch): (r: Profile)
    ensures r.name == (if patch.name.Some? then patch.name.value else p.name)
    ensures r.email == (if patch.email.Some? then patch.email.value else p.email)
    ensures r.phone == (if patch.phone.Some? then patch.phone.value else p.phone)
    ensures r.address == (if patch.address.Some? then patch.address.value else p.address)
    ensures r.avatar == (if patch.avatar.Some? then patch.avatar.value else p.avatar)
    ensures r.joinDate == (if patch.joinDate.Some? then patch.joinDate.value else p.joinDate)
    ensures r.favoriteCount == (if patch.favoriteCount.Some? then patch.favoriteCount.value else p.favoriteCount)
    ensures r.adoptionCount == (if patch.adoptionCount.Some? then patch.adoptionCount.value else p.adoptionCount)
    ensures r.bio == (if patch.bio.Some? then patch.bio.value else p.bio)
  {
    Profile(
      if patch.name.Some? then patch.name.value else p.name,
      if patch.email.Some? then patch.email.value else p.email,
      if patch.phone.Some? then patch.phone.value else p.phone,
      if patch.address.Some? then patch.address.value else p.address,
      if patch.avatar.Some? then patch.avatar.value else p.avatar,
      if patch.joinDate.Some? then patch.joinDate.value else p.joinDate,
      if patch.favoriteCount.Some? then patch.favoriteCount.value else p.favoriteCount,
      if patch.adoptionCount.Some? then patch.adoptionCount.value else p.adoptionCount,
      if patch.bio.Some? then patch.bio.value else p.bio)
  }

  /** `JSON.stringify` of a whole profile: an object with every field. */
  function FullPatch(p: Profile): (patch: ProfilePatch)
    ensures patch.name.Some? && patch.email.Some? && patch.phone.Some? && patch.address.Some?
    ensures patch.avatar.Some? && patch.joinDate.Some? && patch.favoriteCount.Some?
    ensures patch.adoptionCount.Some? && patch.bio.Some?
  {
    ProfilePatch(Some(p.name), Some(p.email), Some(p.phone), Some(p.address), Some(p.avatar),
                 Some(p.joinDate), Some(p.favoriteCount), Some(p.adoptionCount), Some(p.bio))
  }

  /** An object holding every field replaces the whole profile. */
  lemma FullPatchReplaces(p: Profile, q: Profile)
    ensures ApplyPatch(p, FullPatch(q)) == q
  {
  }

  /** An empty stored object changes nothing. */
  lemma EmptyPatchKeeps(p: Profile)
    ensures ApplyPatch(p, ProfilePatch(None, None, None, None, None, None, None, None, None)) == p
  {
  }

  // ---------------------------------------------------------------------------
  // The mount effect

  /** The favourites step: a readable id list sets the count to its length;
      an absent or unreadable value leaves the profile as it was. */
  function CountFavorites(p: Profile, entries: map<string, Value>): (r: Profile)
    ensures StoredIds(entries).Some? ==> r == p.(favoriteCount := |StoredIds(entries).value|)
    ensures StoredIds(entries).None? ==> r == p
  {
    match StoredIds(entries)
    case Some(ids) => p.(favoriteCount := |ids|)
    case None => p
  }

  /** The saved-profile step: a readable stored object is spread over the profile. */
  function MergeSaved(p: Profile, entries: map<string, Value>): (r: Profile)
    ensures ProfileKey in entries && entries[ProfileKey].ProfileValue? ==> r == ApplyPatch(p, entries[ProfileKey].patch)
    ensures !(ProfileKey in entries && entries[ProfileKey].ProfileValue?) ==> r == p
  {
    if ProfileKey in entries && entries[ProfileKey].ProfileValue? then ApplyPatch(p, entries[ProfileKey].patch) else p
  }

  /** The mount effect as written: the count from the favourites first, then
      the saved object over it. */
  function LoadAsWritten(p: Profile, entries: map<string, Value>): Profile
  {
    MergeSaved(CountFavorites(p, entries), entries)
  }

  /** As written, a saved object that carries a count (every object a save
      writes does) hides the live favourites count. */
  lemma {:induction false} SavedCountHidesFavorites(p: Profile, entries: map<string, Value>)
    requires ProfileKey in entries && entries[ProfileKey].ProfileValue?
    requires entries[ProfileKey].patch.favoriteCount.Some?
    ensures LoadAsWritten(p, entries).favoriteCount == entries[ProfileKey].patch.favoriteCount.value
  {
  }

  /** The concrete case: ten favourites stored after a save that recorded a
      count of 0 show 0, and "Cat Lover" stays locked. */
  lemma StaleCountExample()
    ensures var ids := seq(10, i => "fact-" + IntToString(i));
            var entries := map[FavoritesKey := IdList(ids), ProfileKey := ProfileValue(FullPatch(DefaultProfile.(favoriteCount := 0)))];
            |ids| == 10 && LoadAsWritten(DefaultProfile, entries).favoriteCount == 0
            && !Unlocked(CatLover, LoadAsWritten(DefaultProfile, entries))
  {
    var ids := seq(10, i => "fact-" + IntToString(i));
    var entries := map[FavoritesKey := IdList(ids), ProfileKey := ProfileValue(FullPatch(DefaultProfile.(favoriteCount := 0)))];
    assert FavoritesKey != ProfileKey;
    SavedCountHidesFavorites(DefaultProfile, entries);
  }

  /** The mount effect as intended: the saved object first, then the count of
      the stored favourites, so the count always reflects the favourites. */
  function LoadProfile(p: Profile, entries: map<string, Value>): Profile
  {
    CountFavorites(MergeSaved(p, entries), entries)
  }

  /** The loaded count is the number of stored favourites whenever they are
      readable, and every other field is what the saved object says or what
      was there before. */
  lemma LoadCountsFavorites(p: Profile, entries: map<string, Value>)
    ensures StoredIds(entries).Some? ==> LoadProfile(p, entries).favoriteCount == |StoredIds(entries).value|
    ensures StoredIds(entries).None? ==> LoadProfile(p, entries) == MergeSaved(p, entries)
    ensures LoadProfile(p, entries).(favoriteCount := 0) == MergeSaved(p, entries).(favoriteCount := 0)
  {
  }

  /** The two orders agree whenever the saved object carries no count or the
      favourites are unreadable. */
  lemma OrdersAgree(p: Profile, entries: map<string, Value>)
    requires !(ProfileKey in entries && entries[ProfileKey].ProfileValue? && entries[ProfileKey].patch.favoriteCount.Some?)
             || StoredIds(entries).None?
    ensures LoadAsWritten(p, entries) == LoadProfile(p, entries)
  {
  }

  /** A saved profile comes back on the next load, with the count of the
      favourites stored by then. */
  lemma {:induction false} SaveThenLoad(p: Profile, q: Profile, entries: map<string, Value>)
    requires StoredIds(entries).Some?
    ensures LoadProfile(p, entries[ProfileKey := ProfileValue(FullPatch(q))])
            == q.(favoriteCount := |StoredIds(entries).value|)
  {
    var saved := entries[ProfileKey := ProfileValue(FullPatch(q))];
    assert FavoritesKey != ProfileKey;
    assert StoredIds(saved) == StoredIds(entries);
    FullPatchReplaces(p, q);
  }

  // ---------------------------------------------------------------------------
  // Achievements

  datatype AchievementId = CatLover | Adopter

  /** The count an achievement is measured on. */
  function Progress(a: AchievementId, p: Profile): int
  {
    match a
    case CatLover => p.favoriteCount
    case Adopter => p.adoptionCount
  }

  function Requirement(a: AchievementId): (n: int)
    ensures n >= 1
  {
    match a
    case CatLover => 10
    case Adopter => 1
  }

  predicate Unlocked(a: AchievementId, p: Profile)
  {
    Progress(a, p) >= Requirement(a)
  }

  /** "Cat Lover" needs ten favourites, "Adopter" one adoption. */
  lemma UnlockThresholds(p: Profile)
    ensures Unlocked(CatLover, p) <==> p.favoriteCount >= 10
    ensures Unlocked(Adopter, p) <==> p.adoptionCount >= 1
  {
  }

  /** The "n lagi" text of a locked achievement; an unlocked one shows none. */
  function Remaining(a: AchievementId, p: Profile): (r: Option<int>)
    ensures r.Some? <==> !Unlocked(a, p)
    ensures r.Some? ==> r.value >= 1 && Progress(a, p) + r.value == Requirement(a)
  {
    if Unlocked(a, p) then None else Some(Requirement(a) - Progress(a, p))
  }

  /** The achievement's description line: the achievement's progress followed
      by its own word. */
  function Description(a: AchievementId, p: Profile): (text: string)
    ensures a == CatLover ==> |text| >= 10 && text[|text| - 9..] == "+ favorit"
    ensures a == Adopter ==> |text| >= 17 && text[|text| - 16..] == " adopsi berhasil"
  {
    match a
    case CatLover => IntToString(p.favoriteCount) + "+ favorit"
    case Adopter => IntToString(p.adoptionCount) + " adopsi berhasil"
  }

  /** The line names its achievement and tells its exact progress. */
  lemma DescriptionInjective(a: AchievementId, p: Profile, b: AchievementId, q: Profile)
    requires Description(a, p) == Description(b, q)
    ensures a == b && Progress(a, p) == Progress(b, q)
  {
    var t := Description(a, p);
    DescriptionLastChar(a, p);
    DescriptionLastChar(b, q);
    if a == b {
      var k := if a == CatLover then 9 else 16;
      assert IntToString(Progress(a, p)) == t[..|t| - k];
      assert IntToString(Progress(b, q)) == t[..|t| - k];
      IntToStringInjective(Progress(a, p), Progress(b, q));
    }
  }

  /** The two description lines end in different letters. */
  lemma DescriptionLastChar(a: AchievementId, p: Profile)
    ensures var t := Description(a, p); t[|t| - 1] == (if a == CatLover then 't' else 'l')
  {
  }

  // ---------------------------------------------------------------------------
  // The page

  /** The fields of the working copy that have an input. */
  datatype ProfileField = NameField | EmailField | PhoneField | AddressField | BioField

  class ProfileView {
    var profile: Profile
    var editedProfile: Profile
    var isEditing: bool
    const store: Store

    constructor (store: Store)
      ensures this.store == store && profile == DefaultProfile && editedProfile == DefaultProfile && !isEditing
    {
      this.store := store;
      profile := DefaultProfile;
      editedProfile := DefaultProfile;
      isEditing := false;
    }

    /** The mount effect (in its intended order); the working copy keeps its
        initial value until the next edit. */
    method Load()
      modifies this
      ensures profile == LoadProfile(old(profile), store.entries)
      ensures editedProfile == old(editedProfile) && isEditing == old(isEditing)
    {
      var loaded := profile;
      if ProfileKey in store.entries {
        var saved := store.entries[ProfileKey];
        if saved.ProfileValue? {
          loaded := ApplyPatch(loaded, saved.patch);
        }
      }
      if FavoritesKey in store.entries {
        var favorites := store.entries[FavoritesKey];
        if favorites.IdList? {
          loaded := loaded.(favoriteCount := |favorites.ids|);
        }
      }
      profile := loaded;
    }

    /** `handleEdit`: the working copy starts from the shown profile. */
    method Edit()
      modifies this
      ensures isEditing && editedProfile == profile && profile == old(profile)
    {
      isEditing := true;
      editedProfile := profile;
    }

    /** An input of the edit mode changes one field of the working copy. */
    method EditField(field: ProfileField, value: string)
      modifies this
      ensures editedProfile == match field
                               case NameField => old(editedProfile).(name := value)
                               case EmailField => old(editedProfile).(email := value)
                               case PhoneField => old(editedProfile).(phone := value)
                               case AddressField => old(editedProfile).(address := value)
                               case BioField => old(editedProfile).(bio := value)
      ensures profile == old(profile) && isEditing == old(isEditing)
    {
      match field {
        case NameField => editedProfile := editedProfile.(name := value);
        case EmailField => editedProfile := editedProfile.(email := value);
        case PhoneField => editedProfile := editedProfile.(phone := value);
        case AddressField => editedProfile := editedProfile.(address := value);
        case BioField => editedProfile := editedProfile.(bio := value);
      }
    }

    /** `handleSave`: the working copy becomes the profile and is written, whole,
        under the profile key; no other key changes. */
    method Save()
      modifies this, store
      ensures profile == old(editedProfile) && editedProfile == old(editedProfile) && !isEditing
      ensures store.entries == old(store.entries)[ProfileKey := ProfileValue(FullPatch(old(editedProfile)))]
    {
      profile := editedProfile;
      isEditing := false;
      store.SetItem(ProfileKey, ProfileValue(FullPatch(editedProfile)));
    }

    /** `handleCancel`: the working copy is thrown away. */
    method Cancel()
      modifies this
      ensures editedProfile == profile && profile == old(profile) && !isEditing
    {
      editedProfile := profile;
      isEditing := false;
    }

    /** Edit followed by cancel leaves the profile and storage as they were. */
    method EditThenCancel()
      modifies this
      ensures profile == old(profile) && editedProfile == old(profile) && !isEditing
      ensures store.entries == old(store.entries)
    {
      Edit();
      Cancel();
    }

    /** Edit followed by an immediate save stores the shown profile unchanged. */
    method EditThenSave()
      modifies this, store
      ensures profile == old(profile) && !isEditing
      ensures store.entries == old(store.entries)[ProfileKey := ProfileValue(FullPatch(old(profile)))]
    {
      Edit();
      Save();
    }
  }
}
