/** The two persistence tiers the client talks to, as abstract state:
    the browser-local cache (the application's CoreStorage wrapper plus the
    raw `admin_crm_users` key) and the remote document store (the `users`
    collection and the single `config/app` document). */
module Storage {
  import opened Wrappers
  import opened Seqs
  import opened CoreTypes

  /** Everything the local cache holds, one value per logical key. */
  datatype CacheState = CacheState(
    user: UserProfile,
    config: AdminConfig,
    theme: Theme,
    studies: seq<StudyResult>,
    notes: seq<PersonalNote>,
    feedbacks: seq<Feedback>,
    crmUsers: seq<UserProfile>)

  predicate HasNoteId(notes: seq<PersonalNote>, id: string) {
    exists k :: 0 <= k < |notes| && notes[k].id == id
  }

  /** The note list after saving `n`: an entry with the same id is replaced
      in place, otherwise `n` is appended. */
  function UpsertNote(notes: seq<PersonalNote>, n: PersonalNote): (r: seq<PersonalNote>)
    ensures n in r
    ensures HasNoteId(notes, n.id) ==> |r| == |notes|
    ensures !HasNoteId(notes, n.id) ==> r == notes + [n]
    ensures forall k :: 0 <= k < |notes| && notes[k].id != n.id ==> notes[k] in r
    ensures HasNoteId(notes, n.id) ==>
      forall k :: 0 <= k < |notes| ==> r[k] == (if notes[k].id == n.id then n else notes[k])
  {
    if HasNoteId(notes, n.id) then
      var r := seq(|notes|, k requires 0 <= k < |notes| => if notes[k].id == n.id then n else notes[k]);
      var k :| 0 <= k < |notes| && notes[k].id == n.id;
      assert r[k] == n;
      assert forall j :: 0 <= j < |notes| && notes[j].id != n.id ==> r[j] == notes[j];
      r
    else notes + [n]
  }

  class LocalCache {
    var user: UserProfile
    var config: AdminConfig
    var theme: Theme
    var studies: seq<StudyResult>
    var notes: seq<PersonalNote>
    var feedbacks: seq<Feedback>
    var crmUsers: seq<UserProfile>

    function Snapshot(): CacheState
      reads this
    {
      CacheState(user, config, theme, studies, notes, feedbacks, crmUsers)
    }

    constructor (initial: CacheState)
      ensures Snapshot() == initial
    {
      user, config, theme := initial.user, initial.config, initial.theme;
      studies, notes, feedbacks, crmUsers := initial.studies, initial.notes, initial.feedbacks, initial.crmUsers;
    }

    method SaveUser(u: UserProfile)
      modifies this
      ensures Snapshot() == old(Snapshot()).(user := u)
    {
      user := u;
    }

    method SaveConfig(c: AdminConfig)
      modifies this
      ensures Snapshot() == old(Snapshot()).(config := c)
    {
      config := c;
    }

    method SaveTheme(t: Theme)
      modifies this
      ensures Snapshot() == old(Snapshot()).(theme := t)
    {
      theme := t;
    }

    /** Appends one saved study. */
    method SaveStudy(s: StudyResult)
      modifies this
      ensures Snapshot() == old(Snapshot()).(studies := old(studies) + [s])
    {
      studies := studies + [s];
    }

    /** Overwrites the whole `app_studies` key. */
    method SetStudies(list: seq<StudyResult>)
      modifies this
      ensures Snapshot() == old(Snapshot()).(studies := list)
    {
      studies := list;
    }

    method SaveNote(n: PersonalNote)
      modifies this
      ensures Snapshot() == old(Snapshot()).(notes := UpsertNote(old(notes), n))
    {
      notes := UpsertNote(notes, n);
    }

    method DeleteNote(id: string)
      modifies this
      ensures Snapshot() == old(Snapshot()).(notes := Filter(old(notes), (n: PersonalNote) => n.id != id))
    {
      notes := Filter(notes, (n: PersonalNote) => n.id != id);
    }

    /** Appends one feedback entry. */
    method SaveFeedback(f: Feedback)
      modifies this
      ensures Snapshot() == old(Snapshot()).(feedbacks := old(feedbacks) + [f])
    {
      feedbacks := feedbacks + [f];
    }

    /** Overwrites the whole `admin_crm_users` key. */
    method SetCrmUsers(list: seq<UserProfile>)
      modifies this
      ensures Snapshot() == old(Snapshot()).(crmUsers := list)
    {
      crmUsers := list;
    }
  }

  /** A write the client sent to the remote store, whether or not it succeeded. */
  datatype RemoteWrite = UserWrite(userId: string, profile: UserProfile) | ConfigWrite(config: AdminConfig)

  class RemoteStore {
    /** The `users` collection, keyed by identity id. */
    var users: map<string, UserProfile>
    /** The `config/app` document, absent until first written. */
    var config: Option<AdminConfig>
    /** Every write issued, in order. */
    var writes: seq<RemoteWrite>

    constructor (users: map<string, UserProfile>, config: Option<AdminConfig>)
      ensures this.users == users && this.config == config && writes == []
    {
      this.users, this.config, writes := users, config, [];
    }

    /** `saveUserProfile(id, profile)`; `succeeds` is the network's answer. */
    method SaveUserProfile(id: string, profile: UserProfile, succeeds: bool) returns (ok: bool)
      modifies this
      ensures ok == succeeds
      ensures writes == old(writes) + [UserWrite(id, profile)]
      ensures users == if succeeds then old(users)[id := profile] else old(users)
      ensures config == old(config)
    {
      writes := writes + [UserWrite(id, profile)];
      if succeeds {
        users := users[id := profile];
      }
      ok := succeeds;
    }

    /** `saveAdminConfig(config)`; `succeeds` is the network's answer. */
    method SaveAdminConfig(c: AdminConfig, succeeds: bool) returns (ok: bool)
      modifies this
      ensures ok == succeeds
      ensures writes == old(writes) + [ConfigWrite(c)]
      ensures config == if succeeds then Some(c) else old(config)
      ensures users == old(users)
    {
      writes := writes + [ConfigWrite(c)];
      if succeeds {
        config := Some(c);
      }
      ok := succeeds;
    }

    /** `getAdminConfig()`: the `config/app` document, or the seed
        configuration when none exists, so it never resolves to nothing.
        `reachable` is the network's answer; an unreachable store rejects.
        Reading changes nothing. */
    method GetAdminConfig(reachable: bool) returns (r: Attempt<AdminConfig>)
      ensures !reachable <==> r.Threw?
      ensures r.Done? && config.Some? ==> r.value == config.value
      ensures r.Done? && config.None? ==> r.value == InitialAdminConfig
    {
      if !reachable {
        return Threw;
      }
      r := Done(config.GetOr(InitialAdminConfig));
    }

    /** A reading that reports a missing document as nothing, which is what
        the store's local fallback expects of `getAdminConfig`. */
    method FindAdminConfig(reachable: bool) returns (r: Attempt<Option<AdminConfig>>)
      ensures !reachable <==> r.Threw?
      ensures r.Done? ==> r.value == config
    {
      if !reachable {
        return Threw;
      }
      r := Done(config);
    }
  }

  /** A configuration that was written successfully is what the next
      reading returns, and the reading adds no write. */
  method SavedConfigIsRead(s: RemoteStore, c: AdminConfig) returns (back: Attempt<AdminConfig>)
    modifies s
    ensures back == Done(c)
    ensures s.users == old(s.users) && s.config == Some(c)
    ensures s.writes == old(s.writes) + [ConfigWrite(c)]
  {
    var ok := s.SaveAdminConfig(c, true);
    back := s.GetAdminConfig(true);
  }
}
