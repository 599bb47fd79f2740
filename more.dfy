/** The "more" menu (client/More.tsx): which sub-section is open, the
    shared library/books redirect, and the notes and feedback forms. */
module More {
  import opened Wrappers
  import opened CoreTypes
  import opened Storage
  import opened Registration

  /** `initialSection || null`: an absent or empty prop starts at the menu. */
  function InitialSection(prop: Option<string>): (r: Option<string>)
    ensures r.Some? <==> prop.Some? && prop.value != ""
    ensures r.Some? ==> r == prop
  {
    if prop.Some? && prop.value != "" then prop else None
  }

  /** The effect on a later prop change: a non-empty prop is followed,
      anything else leaves the open section as it is. */
  function FollowSection(current: Option<string>, prop: Option<string>): (r: Option<string>)
    ensures prop.Some? && prop.value != "" ==> r == prop
    ensures !(prop.Some? && prop.value != "") ==> r == current
  {
    if prop.Some? && prop.value != "" then prop else current
  }

  /** The mount value and the prop-change effect agree: following the prop
      the menu was mounted with changes nothing, following the same prop
      again changes nothing, and a prop that would open a section at mount
      also wins over whatever section is open. */
  lemma SectionFollowsProp(current: Option<string>, prop: Option<string>)
    ensures FollowSection(InitialSection(prop), prop) == InitialSection(prop)
    ensures FollowSection(FollowSection(current, prop), prop) == FollowSection(current, prop)
    ensures InitialSection(prop).Some? ==> FollowSection(current, prop) == InitialSection(prop)
    ensures InitialSection(prop).None? ==> FollowSection(current, prop) == current
  {
  }

  /** What the menu renders. */
  datatype MorePane =
    | CommunityPane
    | NotesPane
    | FeedbackPane
    | DevotionalPane
    | LibraryRedirect(url: string)  // opens the link and returns to the menu
    | LibraryMaintenance
    | MainMenu

  /** The section dispatch; LIBRARY and BOOKS share one branch, and any
      other or no section shows the menu. */
  function Dispatch(section: Option<string>, config: AdminConfig): MorePane {
    if section == Some("COMMUNITY") then CommunityPane
    else if section == Some("NOTES") then NotesPane
    else if section == Some("FEEDBACK") then FeedbackPane
    else if section == Some("DEVOTIONAL") then DevotionalPane
    else if section == Some("LIBRARY") || section == Some("BOOKS") then
      (if config.libraryDriveUrl != "" then LibraryRedirect(config.libraryDriveUrl) else LibraryMaintenance)
    else MainMenu
  }

  /** LIBRARY and BOOKS behave identically: a configured link is opened,
      an empty one shows the maintenance notice. */
  lemma LibraryAndBooksAgree(config: AdminConfig)
    ensures Dispatch(Some("LIBRARY"), config) == Dispatch(Some("BOOKS"), config)
    ensures Dispatch(Some("BOOKS"), config)
         == if config.libraryDriveUrl != "" then LibraryRedirect(config.libraryDriveUrl) else LibraryMaintenance
  {
  }

  /** No section, or one the menu does not know, shows the menu. */
  lemma UnknownSectionShowsMenu(section: Option<string>, config: AdminConfig)
    requires section.Some? ==> section.value !in {"COMMUNITY", "NOTES", "FEEDBACK", "DEVOTIONAL", "LIBRARY", "BOOKS"}
    ensures Dispatch(section, config) == MainMenu
  {
  }

  class MoreMenu {
    var activeSection: Option<string>

    constructor (initialSection: Option<string>)
      ensures activeSection == InitialSection(initialSection)
    {
      activeSection := InitialSection(initialSection);
    }

    /** The effect hook on `[initialSection]`. */
    method OnInitialSectionChanged(prop: Option<string>)
      modifies this
      ensures activeSection == FollowSection(old(activeSection), prop)
    {
      if prop.Some? && prop.value != "" {
        activeSection := prop;
      }
    }

    method Select(section: string)
      modifies this
      ensures activeSection == Some(section)
    {
      activeSection := Some(section);
    }

    /** `goBack`. */
    method GoBack()
      modifies this
      ensures activeSection == None
    {
      activeSection := None;
    }

    /** One render: the pane shown, and the library redirect resetting
        the section to the menu. */
    method Render(config: AdminConfig) returns (pane: MorePane)
      modifies this
      ensures pane == Dispatch(old(activeSection), config)
      ensures activeSection == if pane.LibraryRedirect? then None else old(activeSection)
    {
      pane := Dispatch(activeSection, config);
      if pane.LibraryRedirect? {
        activeSection := None;
      }
    }
  }

  /** The notes section: the list and the note being edited, if any. */
  class NotesSection {
    var notes: seq<PersonalNote>
    var editor: Option<PersonalNote>

    constructor (cache: LocalCache)
      ensures notes == cache.notes && editor == None
    {
      notes := cache.notes;
      editor := None;
    }

    /** The "+" button: a fresh, empty note with id `Date.now()`. */
    method NewNote(nowId: string)
      modifies this
      ensures editor == Some(PersonalNote(nowId, "", "", "")) && notes == old(notes)
    {
      editor := Some(PersonalNote(nowId, "", "", ""));
    }

    method Open(n: PersonalNote)
      modifies this
      ensures editor == Some(n) && notes == old(notes)
    {
      editor := Some(n);
    }

    method EditTitle(title: string)
      modifies this
      ensures editor == if old(editor).Some? then Some(old(editor).value.(title := title)) else None
      ensures notes == old(notes)
    {
      if editor.Some? {
        editor := Some(editor.value.(title := title));
      }
    }

    method EditContent(content: string)
      modifies this
      ensures editor == if old(editor).Some? then Some(old(editor).value.(content := content)) else None
      ensures notes == old(notes)
    {
      if editor.Some? {
        editor := Some(editor.value.(content := content));
      }
    }

    /** The editor's back button: the note is discarded unsaved. */
    method CloseEditor()
      modifies this
      ensures editor == None && notes == old(notes)
    {
      editor := None;
    }

    /** `save`: without a title nothing is written and the editor stays
        open; otherwise the note is stored with `updatedAt = now`, the list
        is reloaded from the cache and the editor closes. */
    method Save(cache: LocalCache, now: string) returns (saved: bool)
      modifies this, cache
      ensures saved == (old(editor).Some? && old(editor).value.title != "")
      ensures !saved ==> editor == old(editor) && notes == old(notes) && cache.Snapshot() == old(cache.Snapshot())
      ensures saved ==>
        var n := old(editor).value.(updatedAt := now);
        cache.Snapshot() == old(cache.Snapshot()).(notes := UpsertNote(old(cache.notes), n))
        && notes == cache.notes && n in notes && editor == None
    {
      if editor.None? || editor.value.title == "" {
        saved := false;
        return;
      }
      cache.SaveNote(editor.value.(updatedAt := now));
      notes := cache.notes;
      editor := None;
      saved := true;
    }

    /** `del`: on confirmation the note is removed and the list reloaded. */
    method Delete(cache: LocalCache, id: string, confirmed: bool)
      modifies this, cache
      ensures !confirmed ==> notes == old(notes) && cache.Snapshot() == old(cache.Snapshot())
      ensures confirmed ==> (notes == cache.notes
        && cache.Snapshot() == old(cache.Snapshot()).(notes := Seqs.Filter(old(cache.notes), (n: PersonalNote) => n.id != id)))
      ensures editor == old(editor)
    {
      if confirmed {
        cache.DeleteNote(id);
        notes := cache.notes;
      }
    }
  }

  /** The feedback record `send` stores, built from the cached user. */
  function FeedbackFor(cached: UserProfile, text: string, nowId: string, now: string): (f: Feedback)
    ensures f.userId == cached.id && f.userName == cached.name && f.message == text
  {
    Feedback(nowId, cached.id, cached.name, text, now)
  }

  /** Feedback sent once registration has stored its profile is attributed
      to that profile: the id it was given and the name typed in the form,
      whatever the cache held before. */
  lemma FeedbackAfterRegistration(cached: UserProfile, f: RegistrationForm, id: string, now: string,
                                  text: string, nowId: string, sentAt: string)
    ensures var fb := FeedbackFor(NewProfile(cached, f, id, now), text, nowId, sentAt);
      fb.userId == id && fb.userName == f.name && fb.message == text
  {
  }

  class FeedbackSection {
    var text: string

    constructor ()
      ensures text == ""
    {
      text := "";
    }

    method SetText(t: string)
      modifies this
      ensures text == t
    {
      text := t;
    }

    /** `send`: an empty message writes nothing; otherwise the feedback is
        appended, the text cleared and the section left (`sent`). */
    method Send(cache: LocalCache, nowId: string, now: string) returns (sent: bool)
      modifies this, cache
      ensures sent == (old(text) != "")
      ensures !sent ==> text == old(text) && cache.Snapshot() == old(cache.Snapshot())
      ensures sent ==> (text == ""
        && cache.Snapshot() == old(cache.Snapshot()).(feedbacks := old(cache.feedbacks) + [FeedbackFor(old(cache.user), old(text), nowId, now)]))
    {
      if text == "" {
        sent := false;
        return;
      }
      var user := cache.user;
      cache.SaveFeedback(FeedbackFor(user, text, nowId, now));
      text := "";
      sent := true;
    }
  }
}
