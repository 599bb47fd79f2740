/** The registration screen (client/Registration.tsx): church selection,
    form validation, construction of the registered profile and the upsert
    into the local CRM list used by the admin console. */
module Registration {
  import opened Wrappers
  import opened Seqs
  import opened CoreTypes
  import opened Storage

  /** The form state; every field starts empty. */
  datatype RegistrationForm = RegistrationForm(
    name: string,
    age: string,
    church: string,
    customChurch: string,
    role: string,
    whatsapp: string,
    avatarUrl: string)

  /** The dropdown entry that reveals the free-text church field. */
  const NewChurchOption: string := "Nova Igreja"

  /** The church that is stored: the free text for "Nova Igreja", else the selection. */
  function EffectiveChurch(f: RegistrationForm): string {
    if f.church == NewChurchOption then f.customChurch else f.church
  }

  lemma EffectiveChurchChoice(f: RegistrationForm)
    ensures f.church == NewChurchOption ==> EffectiveChurch(f) == f.customChurch
    ensures f.church != NewChurchOption ==> EffectiveChurch(f) == f.church
  {
  }

  /** The two alerts that abort a submission. */
  datatype RegistrationError = IncompleteForm | MissingPhoto

  /** None when the form is accepted. The text fields are checked before the photo. */
  function Validate(f: RegistrationForm): (r: Option<RegistrationError>)
    ensures r == None <==> (f.name != "" && f.age != "" && EffectiveChurch(f) != ""
                            && f.role != "" && f.whatsapp != "" && f.avatarUrl != "")
    ensures r == Some(MissingPhoto) ==> f.avatarUrl == ""
    ensures r == Some(MissingPhoto) ==> (f.name != "" && f.age != "" && EffectiveChurch(f) != ""
                                         && f.role != "" && f.whatsapp != "")
  {
    if f.name == "" || f.age == "" || EffectiveChurch(f) == "" || f.role == "" || f.whatsapp == "" then
      Some(IncompleteForm)
    else if f.avatarUrl == "" then Some(MissingPhoto)
    else None
  }

  /** `{ ...cached, ...formData, church, id, isRegistered: true, registrationDate }`. */
  function NewProfile(cached: UserProfile, f: RegistrationForm, id: string, now: string): UserProfile {
    UserProfile(id, f.name, f.age, EffectiveChurch(f), f.role, f.whatsapp, true, f.avatarUrl, now)
  }

  /** The form and the explicit fields overwrite every field of the cached
      record, so the profile does not depend on it; it is registered,
      dated `now`, never the guest sentinel when `id` is not. */
  lemma NewProfileFromForm(c1: UserProfile, c2: UserProfile, f: RegistrationForm, id: string, now: string)
    ensures NewProfile(c1, f, id, now) == NewProfile(c2, f, id, now)
    ensures var p := NewProfile(c1, f, id, now);
      p.isRegistered && p.registrationDate == now && p.church == EffectiveChurch(f)
      && p.name == f.name && p.age == f.age && p.role == f.role && p.whatsapp == f.whatsapp
      && p.avatarUrl == f.avatarUrl && p.id == id
  {
  }

  /** The CRM list after registering `u`: entries with other ids, in their
      order, then `u`. */
  function UpsertCrm(all: seq<UserProfile>, u: UserProfile): seq<UserProfile> {
    Filter(all, (x: UserProfile) => x.id != u.id) + [u]
  }

  /** Everything with another id survives in order, and `u` ends up in
      the list exactly once, at the end. */
  lemma UpsertCrmSpec(all: seq<UserProfile>, u: UserProfile)
    ensures var r := UpsertCrm(all, u);
      r[|r| - 1] == u
      && IsSubsequence(r[..|r| - 1], all)
      && Filter(r, (x: UserProfile) => x.id == u.id) == [u]
      && (forall x :: x in all && x.id != u.id ==> x in r)
      && (forall x :: multiset(r[..|r| - 1])[x] == if x.id != u.id then multiset(all)[x] else 0)
  {
    var others := Filter(all, (x: UserProfile) => x.id != u.id);
    var r := others + [u];
    assert r[..|r| - 1] == others;
    FilterIsSubsequence(all, (x: UserProfile) => x.id != u.id);
    FilterAppend(others, [u], (x: UserProfile) => x.id == u.id);
    FilterKeepsNone(others, (x: UserProfile) => x.id == u.id);
    assert Filter([u], (x: UserProfile) => x.id == u.id) == [u];
    forall x ensures multiset(r[..|r| - 1])[x] == if x.id != u.id then multiset(all)[x] else 0 {
      FilterMultiset(all, (y: UserProfile) => y.id != u.id, x);
    }
    forall x | x in all && x.id != u.id
      ensures x in r
    {
      FilterMembership(all, (y: UserProfile) => y.id != u.id, x);
    }
  }

  /** `handleSubmit`: on a rejected form nothing is written and the screen
      stays; otherwise the cached user becomes the new profile, the CRM list
      is upserted, and `onComplete` runs (`completed`). `nowId` and `nowIso`
      are `Date.now().toString()` and `new Date().toISOString()`. */
  method HandleSubmit(cache: LocalCache, f: RegistrationForm, nowId: string, nowIso: string)
    returns (completed: bool)
    modifies cache
    ensures completed == (Validate(f) == None)
    ensures !completed ==> cache.Snapshot() == old(cache.Snapshot())
    ensures completed ==>
      var p := NewProfile(old(cache.user), f, nowId, nowIso);
      cache.Snapshot() == old(cache.Snapshot()).(user := p, crmUsers := UpsertCrm(old(cache.crmUsers), p))
  {
    if Validate(f).Some? {
      completed := false;
      return;
    }
    var newUser := NewProfile(cache.user, f, nowId, nowIso);
    cache.SaveUser(newUser);
    var allUsers := cache.crmUsers;
    var filteredUsers := Filter(allUsers, (x: UserProfile) => x.id != newUser.id);
    filteredUsers := filteredUsers + [newUser];
    cache.SetCrmUsers(filteredUsers);
    completed := true;
  }
}
