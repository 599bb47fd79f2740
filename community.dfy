/** The community feed (client/Community.tsx): shared studies fetched once
    from the remote store, one card per study, and the WhatsApp share text.
    The fetch outcome and the URL encoder are parameters. */
module Community {
  import opened Wrappers
  import opened Text

  /** A shared study as the feed reads it; the optional fields may be
      missing from the stored document. */
  datatype SharedStudy = SharedStudy(
    id: string,
    reference: string,
    content: string,
    userName: string,
    userAvatar: Option<string>,
    theology: string,
    timestamp: Option<string>,  // the stored date, already formatted
    likes: Option<int>)

  const DefaultAvatar: string := "https://api.dicebear.com/7.x/avataaars/svg?seed=Felix"
  const ShareLimit: nat := 100
  const ShareHeading: string := "*Estudo Exegético:* "
  const ShareFooter: string := "...\n\nLeia mais no App Exegese Pura & Simples"

  /** The text `handleShareWhatsApp` sends: the reference, the first 100
      characters of the study and the invitation. */
  function ShareText(study: SharedStudy): string {
    ShareHeading + study.reference + "\n\n" + Take(study.content, ShareLimit) + ShareFooter
  }

  /** The share text opens with the heading and the reference, carries the
      start of the study and no more than 100 of its characters, and closes
      with the invitation; a short study is shared whole. */
  lemma ShareTextShape(study: SharedStudy)
    ensures StartsWith(ShareText(study), ShareHeading + study.reference)
    ensures Contains(ShareText(study), Take(study.content, ShareLimit))
    ensures |ShareText(study)| <= |ShareHeading| + |study.reference| + 2 + ShareLimit + |ShareFooter|
    ensures |study.content| <= ShareLimit ==> Contains(ShareText(study), study.content)
    ensures StartsWith(study.content, Take(study.content, ShareLimit))
  {
    var t := ShareText(study);
    var head := ShareHeading + study.reference;
    assert t[..|head|] == head;
    ContainsInfix(head + "\n\n", Take(study.content, ShareLimit), ShareFooter);
  }

  /** The link `window.open` receives; `encode` is `encodeURIComponent`. */
  function ShareUrl(study: SharedStudy, encode: string -> string): (r: string)
    ensures StartsWith(r, "https://wa.me/?text=")
  {
    "https://wa.me/?text=" + encode(ShareText(study))
  }

  /** One card of the feed. */
  datatype Card = Card(
    avatar: string, userName: string, theology: string, dateLabel: string,
    reference: string, preview: string, likes: int)

  /** `study.userAvatar || DEFAULT`, `timestamp?.toDate ? … : 'Agora'`,
      `content.replace(/[#*]/g, '')` and `study.likes || 0`. */
  function CardFor(study: SharedStudy): (c: Card)
    ensures c.avatar == if study.userAvatar.Some? && study.userAvatar.value != "" then study.userAvatar.value else DefaultAvatar
    ensures c.avatar != ""
    ensures c.dateLabel == if study.timestamp.Some? then study.timestamp.value else "Agora"
    ensures c.likes == if study.likes.Some? then study.likes.value else 0
    ensures c.preview == Strip(study.content, {'#', '*'})
    ensures forall k :: 0 <= k < |c.preview| ==> c.preview[k] != '#' && c.preview[k] != '*'
  {
    Card(
      if study.userAvatar.Some? && study.userAvatar.value != "" then study.userAvatar.value else DefaultAvatar,
      study.userName, study.theology,
      if study.timestamp.Some? then study.timestamp.value else "Agora",
      study.reference, Strip(study.content, {'#', '*'}),
      if study.likes.Some? then study.likes.value else 0)
  }

  /** A study shared with its marks already removed shows the same card
      as the raw one. */
  lemma CardIgnoresPrestrippedContent(study: SharedStudy)
    ensures CardFor(study.(content := Strip(study.content, {'#', '*'}))) == CardFor(study)
  {
    StripIdempotent(study.content, {'#', '*'});
  }

  /** What the feed shows. */
  datatype FeedScreen = Syncing | NothingShared | Cards(cards: seq<Card>)

  function Screen(loading: bool, studies: seq<SharedStudy>): (r: FeedScreen)
    ensures loading <==> r == Syncing
    ensures !loading && studies == [] <==> r == NothingShared
    ensures r.Cards? ==> (|r.cards| == |studies| > 0
      && forall k :: 0 <= k < |studies| ==> r.cards[k] == CardFor(studies[k]))
  {
    if loading then Syncing
    else if studies == [] then NothingShared
    else Cards(seq(|studies|, k requires 0 <= k < |studies| => CardFor(studies[k])))
  }

  class CommunityFeed {
    var studies: seq<SharedStudy>
    var loading: bool

    constructor ()
      ensures studies == [] && loading
    {
      studies := [];
      loading := true;
    }

    /** `fetchStudies`: a successful fetch replaces the list, a failed one
        keeps it; either way loading ends (`finally`). */
    method FinishFetch(fetched: Attempt<seq<SharedStudy>>)
      modifies this
      ensures !loading
      ensures studies == if fetched.Done? then fetched.value else old(studies)
    {
      if fetched.Done? {
        studies := fetched.value;
      }
      loading := false;
    }
  }

  /** Mounting the feed and fetching once: a failed fetch shows the empty
      feed, a successful one a card per study in the order fetched. */
  method MountAndFetch(fetched: Attempt<seq<SharedStudy>>) returns (feed: CommunityFeed, screen: FeedScreen)
    ensures fresh(feed)
    ensures fetched.Threw? ==> screen == NothingShared
    ensures fetched.Done? ==> screen == Screen(false, fetched.value)
  {
    feed := new CommunityFeed();
    assert Screen(feed.loading, feed.studies) == Syncing;
    feed.FinishFetch(fetched);
    screen := Screen(feed.loading, feed.studies);
  }
}
