/** The value types shared by the wizard's components (types.ts). */
module Types {

  datatype Option<+T> = None | Some(value: T)

  /** The five supported networks; each enum member's string value is its own name. */
  datatype Platform = Instagram | Twitter | Facebook | LinkedIn | TikTok

  /** The wizard's six steps, in the order the enum declares them. */
  datatype AppStep =
    | SELECT_PLATFORM
    | ENTER_HANDLE
    | CONFIRM_HANDLE
    | ENTER_TOPIC
    | GENERATING
    | SHOW_RESULTS

  /** One generated post: hashtags are stored without their leading '#'. */
  datatype PostSuggestion = PostSuggestion(caption: string, imageSuggestion: string, hashtags: seq<string>)

  /** The string value of a `Platform` enum member, as template literals print it. */
  function PlatformName(p: Platform): (name: string)
    ensures |name| > 0
  {
    match p
    case Instagram => "Instagram"
    case Twitter => "Twitter"
    case Facebook => "Facebook"
    case LinkedIn => "LinkedIn"
    case TikTok => "TikTok"
  }

  /** Distinct platforms print as distinct strings. */
  lemma PlatformNameInjective(p: Platform, q: Platform)
    requires PlatformName(p) == PlatformName(q)
    ensures p == q
  {
    assert PlatformName(p)[0] == PlatformName(q)[0];
    if PlatformName(p)[0] == 'T' {
      assert PlatformName(p)[1] == PlatformName(q)[1];
    }
  }
}
