/**
 * The results step (components/ResultsDisplay.tsx): the editable copy of the
 * generated suggestions, caption editing, the hashtag line and share text,
 * the copied-flag map keyed by `${type}-${index}`, and the choice of share
 * route per platform. Clipboard, share sheet, new windows, alerts and timers
 * are not performed: the view reports what it would hand to them.
 */
module ResultsDisplay {
  import opened Types
  import opened JsString

  // ---------------------------------------------------------------------
  // Caption editing

  /** `ss` with only the caption of card `i` replaced by `c`. */
  function WithCaption(ss: seq<PostSuggestion>, i: nat, c: string): (r: seq<PostSuggestion>)
    requires i < |ss|
    ensures |r| == |ss|
    ensures r[i].caption == c && r[i].imageSuggestion == ss[i].imageSuggestion && r[i].hashtags == ss[i].hashtags
    ensures forall k :: 0 <= k < |r| && k != i ==> r[k] == ss[k]
  {
    ss[i := ss[i].(caption := c)]
  }

  // ---------------------------------------------------------------------
  // Hashtag line and share text

  /** `hashtags.map(h => `#${h}`)`: each tag with a '#' in front, in order. */
  function Hashtagged(tags: seq<string>): (r: seq<string>)
    ensures |r| == |tags|
    ensures forall k :: 0 <= k < |r| ==> r[k] == "#" + tags[k]
  {
    if tags == [] then [] else ["#" + tags[0]] + Hashtagged(tags[1..])
  }

  /** The hashtag line a card shows and its Copy button copies: the '#'-tags joined by spaces. */
  function HashtagLine(tags: seq<string>): (line: string)
    ensures line == "" <==> tags == []
    ensures tags != [] ==> line[0] == '#'
  {
    Join(Hashtagged(tags), ' ')
  }

  /**
   * When no tag holds a space, splitting the line at spaces gives back the
   * '#'-tags one by one, so the line carries exactly one token per tag.
   */
  lemma {:induction false} HashtagLineSplits(tags: seq<string>)
    requires tags != []
    requires forall k :: 0 <= k < |tags| ==> ' ' !in tags[k]
    ensures Split(HashtagLine(tags), ' ') == Hashtagged(tags)
    ensures |Split(HashtagLine(tags), ' ')| == |tags|
  {
    var r := Hashtagged(tags);
    forall k | 0 <= k < |r|
      ensures ' ' !in r[k]
    {
      assert r[k] == "#" + tags[k];
    }
    SplitJoin(r, ' ');
  }

  /** The text `handleShare` shares: the caption, a blank line, then the hashtag line. */
  function ShareText(s: PostSuggestion): (text: string)
    ensures |text| == |s.caption| + 2 + |HashtagLine(s.hashtags)|
    ensures text[..|s.caption|] == s.caption
    ensures text[|s.caption|] == '\n' && text[|s.caption| + 1] == '\n'
    ensures text[|s.caption| + 2..] == HashtagLine(s.hashtags)
  {
    s.caption + "\n\n" + HashtagLine(s.hashtags)
  }

  // ---------------------------------------------------------------------
  // Copied flags

  /** Which of a card's two Copy buttons: the `type` argument of `handleCopyToClipboard`. */
  datatype CopyKind = CaptionCopy | HashtagsCopy

  function KindName(kind: CopyKind): (name: string)
    ensures |name| > 0 && '-' !in name
  {
    match kind
    case CaptionCopy => "caption"
    case HashtagsCopy => "hashtags"
  }

  /**
   * The key `${type}-${index}` under which a copy's flag is stored. It reads
   * back: the type's name is what precedes the first '-', the printed index
   * what follows it.
   */
  function CopyKey(kind: CopyKind, index: int): (key: string)
    ensures |KindName(kind)| < |key| && key[..|KindName(kind)|] == KindName(kind)
    ensures key[|KindName(kind)|] == '-'
    ensures key[|KindName(kind)| + 1..] == IntToString(index)
  {
    KindName(kind) + ['-'] + IntToString(index)
  }

  /** Distinct (kind, index) pairs, negative indices included, have distinct keys. */
  lemma {:induction false} CopyKeyInjective(k1: CopyKind, i1: int, k2: CopyKind, i2: int)
    requires CopyKey(k1, i1) == CopyKey(k2, i2)
    ensures k1 == k2 && i1 == i2
  {
    var key := CopyKey(k1, i1);
    assert key == KindName(k1) + ['-'] + key[|KindName(k1)| + 1..];
    assert key == KindName(k2) + ['-'] + key[|KindName(k2)| + 1..];
    IndexOfAfterPrefix(KindName(k1), '-', IntToString(i1));
    IndexOfAfterPrefix(KindName(k2), '-', IntToString(i2));
    assert |KindName(k1)| == |KindName(k2)|;
    IntToStringInjective(i1, i2);
  }

  /** Whether a card's Copy button reads "Copied!": its key holds `true` (a missing key reads as unset). */
  predicate ShowsCopied(copied: map<string, bool>, kind: CopyKind, index: nat): (shown: bool)
    ensures CopyKey(kind, index) !in copied ==> !shown
    ensures CopyKey(kind, index) in copied ==> (shown <==> copied[CopyKey(kind, index)])
  {
    var key := CopyKey(kind, index);
    key in copied && copied[key]
  }

  /** Writing one key's flag changes the label of that button and of no other. */
  lemma {:induction false} FlagTouchesOnlyItsButton(copied: map<string, bool>, kind: CopyKind, index: int, v: bool,
                                                    other: CopyKind, otherIndex: nat)
    requires other != kind || otherIndex != index
    ensures ShowsCopied(copied[CopyKey(kind, index) := v], other, otherIndex) == ShowsCopied(copied, other, otherIndex)
  {
    if CopyKey(kind, index) == CopyKey(other, otherIndex) {
      CopyKeyInjective(kind, index, other, otherIndex);
    }
  }

  /**
   * The share fallback copies under `caption--1` (index -1), a key no card
   * renders: it never turns any card's Copy button into "Copied!".
   */
  lemma {:induction false} ShareFlagIsInvisible(copied: map<string, bool>, v: bool, kind: CopyKind, index: nat)
    ensures ShowsCopied(copied[CopyKey(CaptionCopy, -1) := v], kind, index) == ShowsCopied(copied, kind, index)
  {
    FlagTouchesOnlyItsButton(copied, CaptionCopy, -1, v, kind, index);
  }

  // ---------------------------------------------------------------------
  // Sharing

  /** How the browser's `navigator.share` went: absent, resolved, or rejected. */
  datatype NativeShare = Unsupported | Completed | Rejected

  /** The one thing `handleShare` ends up doing with the text. */
  datatype ShareAction =
    | ShareSheet(title: string, text: string)
    | OpenTweetIntent(text: string)
    | OpenFacebookSharer(text: string)
    | CopyAndOpenLinkedIn(text: string, notice: string)
    | CopyOnly(text: string, notice: string)

  /** The action writes the text to the clipboard (under the flag key `caption--1`). */
  predicate Copies(a: ShareAction) {
    a.CopyAndOpenLinkedIn? || a.CopyOnly?
  }

  /** The action opens a page of the network in a new window. */
  predicate OpensPage(a: ShareAction) {
    a.OpenTweetIntent? || a.OpenFacebookSharer? || a.CopyAndOpenLinkedIn?
  }

  const LinkedInNotice := "Post content copied! We'll open LinkedIn for you to create a new post."

  const CopyNoticeHead := "Content for your "
  const CopyNoticeTail := " post has been copied! Open the app to create a new post."

  function CopyNotice(p: Platform): string {
    CopyNoticeHead + PlatformName(p) + CopyNoticeTail
  }

  const ShareTitleHead := "Social post for "

  function ShareTitle(p: Platform): string {
    ShareTitleHead + PlatformName(p)
  }

  /**
   * The platform switch after the share sheet is absent or fails: an intent
   * page for Twitter and Facebook, copy-then-open for LinkedIn, copy only
   * for the rest.
   */
  function Fallback(p: Platform, text: string): (a: ShareAction)
    ensures !a.ShareSheet? && a.text == text
    ensures Copies(a) <==> p == LinkedIn || p == Instagram || p == TikTok
    ensures OpensPage(a) <==> p == Twitter || p == Facebook || p == LinkedIn
    ensures a.CopyOnly? ==> a.notice == CopyNotice(p)
    ensures a.OpenTweetIntent? <==> p == Twitter
    ensures a.OpenFacebookSharer? <==> p == Facebook
    ensures a.CopyAndOpenLinkedIn? ==> a.notice == LinkedInNotice
  {
    match p
    case Twitter => OpenTweetIntent(text)
    case Facebook => OpenFacebookSharer(text)
    case LinkedIn => CopyAndOpenLinkedIn(text, LinkedInNotice)
    case _ => CopyOnly(text, CopyNotice(p))
  }

  /** `handleShare`'s outcome: the share sheet when it completes, the platform fallback otherwise. */
  function ShareOutcome(p: Platform, text: string, native: NativeShare): (a: ShareAction)
    ensures a.ShareSheet? <==> native == Completed
    ensures a.text == text
    ensures a.ShareSheet? ==> a.title == ShareTitle(p)
    ensures !a.ShareSheet? ==> a == Fallback(p, text)
  {
    if native == Completed then ShareSheet(ShareTitle(p), text) else Fallback(p, text)
  }

  // ---------------------------------------------------------------------
  // The component's state

  /**
   * `ResultsDisplay`'s own state: the editable suggestions, the caption in
   * edit mode, and the copied flags. The expiry timers each copy starts are
   * a ghost multiset of the keys they will clear.
   */
  class ResultsView {
    const platform: Platform
    var editable: seq<PostSuggestion>
    var editingIndex: Option<int>
    var copied: map<string, bool>
    ghost var timers: multiset<string>

    constructor (platform: Platform)
      ensures this.platform == platform
      ensures editable == [] && editingIndex == None && copied == map[] && timers == multiset{}
    {
      this.platform := platform;
      editable := [];
      editingIndex := None;
      copied := map[];
      timers := multiset{};
    }

    /** The effect run when the `suggestions` prop changes: the editable copy is replaced, edits discarded. */
    method ReceiveSuggestions(suggestions: seq<PostSuggestion>)
      modifies this
      ensures editable == suggestions
      ensures editingIndex == old(editingIndex) && copied == old(copied) && timers == old(timers)
    {
      editable := suggestions;
    }

    /** `handleCaptionChange` from card `index`'s textarea. */
    method CaptionChange(index: nat, value: string)
      requires index < |editable|
      modifies this
      ensures editable == WithCaption(old(editable), index, value)
      ensures editingIndex == old(editingIndex) && copied == old(copied) && timers == old(timers)
    {
      editable := editable[index := editable[index].(caption := value)];
    }

    /**
     * `handleCopyToClipboard`: returns the text written to the clipboard, sets
     * the flag for `${kind}-${index}` and starts the timer that will clear it.
     */
    method CopyToClipboard(text: string, kind: CopyKind, index: int) returns (written: string)
      modifies this
      ensures written == text
      ensures copied == old(copied)[CopyKey(kind, index) := true]
      ensures timers == old(timers) + multiset{CopyKey(kind, index)}
      ensures editable == old(editable) && editingIndex == old(editingIndex)
    {
      var key := CopyKey(kind, index);
      copied := copied[key := true];
      timers := timers + multiset{key};
      written := text;
    }

    /** A copy's timer firing two seconds later: only its own key is set back to `false`. */
    method CopyExpired(key: string)
      requires key in timers
      modifies this
      ensures copied == old(copied)[key := false]
      ensures timers == old(timers) - multiset{key}
      ensures editable == old(editable) && editingIndex == old(editingIndex)
    {
      copied := copied[key := false];
      timers := timers - multiset{key};
    }

    /** Card `index`'s caption Copy button: copies the caption as currently edited. */
    method CopyCaption(index: nat) returns (written: string)
      requires index < |editable|
      modifies this
      ensures editable == old(editable) && editingIndex == old(editingIndex)
      ensures written == editable[index].caption
      ensures ShowsCopied(copied, CaptionCopy, index)
      ensures copied == old(copied)[CopyKey(CaptionCopy, index) := true]
      ensures timers == old(timers) + multiset{CopyKey(CaptionCopy, index)}
    {
      written := CopyToClipboard(editable[index].caption, CaptionCopy, index);
    }

    /** Card `index`'s hashtag Copy button: copies the line the card shows, the tail of its share text. */
    method CopyHashtags(index: nat) returns (written: string)
      requires index < |editable|
      modifies this
      ensures editable == old(editable) && editingIndex == old(editingIndex)
      ensures written == HashtagLine(editable[index].hashtags)
      ensures written == ShareText(editable[index])[|editable[index].caption| + 2..]
      ensures ShowsCopied(copied, HashtagsCopy, index)
      ensures copied == old(copied)[CopyKey(HashtagsCopy, index) := true]
      ensures timers == old(timers) + multiset{CopyKey(HashtagsCopy, index)}
    {
      written := CopyToClipboard(HashtagLine(editable[index].hashtags), HashtagsCopy, index);
    }

    /** Clicking card `index`'s caption puts it, and only it, in edit mode. */
    method StartEditing(index: nat)
      modifies this
      ensures editingIndex == Some(index)
      ensures editable == old(editable) && copied == old(copied) && timers == old(timers)
    {
      editingIndex := Some(index);
    }

    /** The textarea losing focus: no caption is in edit mode. */
    method StopEditing()
      modifies this
      ensures editingIndex == None
      ensures editable == old(editable) && copied == old(copied) && timers == old(timers)
    {
      editingIndex := None;
    }

    /**
     * `handleShare` for card `index`: shares the card's current text; the
     * copying fallbacks set the flag `caption--1`, which no card displays.
     */
    method Share(index: nat, native: NativeShare) returns (action: ShareAction)
      requires index < |editable|
      modifies this
      ensures editable == old(editable) && editingIndex == old(editingIndex)
      ensures action == ShareOutcome(platform, ShareText(editable[index]), native)
      ensures Copies(action) ==> copied == old(copied)[CopyKey(CaptionCopy, -1) := true]
                                 && timers == old(timers) + multiset{CopyKey(CaptionCopy, -1)}
      ensures !Copies(action) ==> copied == old(copied) && timers == old(timers)
    {
      var text := ShareText(editable[index]);
      if native == Completed {
        return ShareSheet(ShareTitle(platform), text);
      }
      match platform
      case Twitter =>
        action := OpenTweetIntent(text);
      case Facebook =>
        action := OpenFacebookSharer(text);
      case LinkedIn =>
        var _ := CopyToClipboard(text, CaptionCopy, -1);
        action := CopyAndOpenLinkedIn(text, LinkedInNotice);
      case _ =>
        var _ := CopyToClipboard(text, CaptionCopy, -1);
        action := CopyOnly(text, CopyNotice(platform));
    }
  }
}
