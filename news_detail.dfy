/**
 * The news-detail screen's choice of body text and of which optional parts
 * it shows, taken out of the layout code as pure functions.
 */
module NewsDetail {
  import opened Wrappers

  /** `Character.isSpaceChar`: the space (Zs), line (Zl) and paragraph (Zp) separators. */
  predicate IsSpaceChar(c: char) {
    || c == ' ' || c == '\U{00A0}' || c == '\U{1680}'
    || '\U{2000}' <= c <= '\U{200A}'
    || c == '\U{2028}' || c == '\U{2029}'
    || c == '\U{202F}' || c == '\U{205F}' || c == '\U{3000}'
  }

  /** The three non-breaking separators, which `Character.isWhitespace` excludes. */
  predicate IsNonBreakingSpace(c: char) {
    c == '\U{00A0}' || c == '\U{2007}' || c == '\U{202F}'
  }

  /**
   * `Character.isWhitespace`: a separator that is not non-breaking, or one of
   * the controls U+0009 to U+000D and U+001C to U+001F.
   */
  predicate IsJavaWhitespace(c: char) {
    || (IsSpaceChar(c) && !IsNonBreakingSpace(c))
    || '\t' <= c <= '\r'
    || '\U{001C}' <= c <= '\U{001F}'
  }

  /**
   * Kotlin's `Char.isWhitespace()` on the JVM, written out as one table: the
   * controls U+0009 to U+000D and U+001C to U+001F, and every separator.
   */
  predicate IsWhitespace(c: char): (r: bool)
    // Kotlin defines it as `Character.isWhitespace(c) || Character.isSpaceChar(c)`
    ensures r <==> IsJavaWhitespace(c) || IsSpaceChar(c)
    // so, unlike `Character.isWhitespace`, it accepts the non-breaking spaces
    ensures IsNonBreakingSpace(c) ==> r
    ensures r ==> c <= '\U{3000}'
  {
    || c == ' '
    || '\t' <= c <= '\r'
    || '\U{001C}' <= c <= '\U{001F}'
    || c == '\U{00A0}'
    || c == '\U{1680}'
    || '\U{2000}' <= c <= '\U{200A}'
    || c == '\U{2028}' || c == '\U{2029}'
    || c == '\U{202F}' || c == '\U{205F}' || c == '\U{3000}'
  }

  /** `String.isBlank()`: checked character by character from the front. */
  predicate IsBlank(s: string): (r: bool)
    ensures r <==> forall i :: 0 <= i < |s| ==> IsWhitespace(s[i])
    ensures s == [] ==> r
  {
    s == [] || (IsWhitespace(s[0]) && IsBlank(s[1..]))
  }

  /** `String?.isNullOrBlank()`. */
  predicate IsNullOrBlank(s: Option<string>): (r: bool)
    ensures r <==> s.None? || forall i :: 0 <= i < |s.value| ==> IsWhitespace(s.value[i])
    ensures s == Some([]) ==> r
  {
    match s
    case None => true
    case Some(t) => IsBlank(t)
  }

  const NO_CONTENT := "내용이 없습니다."

  lemma NoContentIsNotBlank()
    ensures !IsBlank(NO_CONTENT)
  {
    assert !IsWhitespace(NO_CONTENT[0]);
  }

  /** The body text: content, else description, else link, else the no-content text. */
  function BodyText(content: Option<string>, description: Option<string>, link: Option<string>): (r: string)
    ensures !IsBlank(r)
    ensures !IsNullOrBlank(content) ==> r == content.value
  {
    NoContentIsNotBlank();
    if !IsNullOrBlank(content) then content.value
    else if !IsNullOrBlank(description) then description.value
    else if !IsNullOrBlank(link) then link.value
    else NO_CONTENT
  }

  /** The image is shown exactly when its URL is present and holds a character that is not whitespace. */
  predicate ShowImage(imageUrl: Option<string>): (r: bool)
    ensures r <==> imageUrl.Some? && exists i :: 0 <= i < |imageUrl.value| && !IsWhitespace(imageUrl.value[i])
  {
    !IsNullOrBlank(imageUrl)
  }

  /** The "full article" button is shown exactly when the link is present and holds a character that is not whitespace. */
  predicate ShowFullArticleButton(link: Option<string>): (r: bool)
    ensures r <==> link.Some? && exists i :: 0 <= i < |link.value| && !IsWhitespace(link.value[i])
  {
    !IsNullOrBlank(link)
  }

  /** The first candidate that is present and not blank, else the fallback. */
  function FirstNonBlank(candidates: seq<Option<string>>, fallback: string): (r: string)
    ensures r == fallback || exists k :: 0 <= k < |candidates| && candidates[k] == Some(r)
    ensures !IsBlank(fallback) ==> !IsBlank(r)
  {
    if candidates == [] then fallback
    else if !IsNullOrBlank(candidates[0]) then candidates[0].value
    else FirstNonBlank(candidates[1..], fallback)
  }

  /** FirstNonBlank picks the earliest usable candidate: every one before it is absent or blank. */
  lemma {:induction false} FirstNonBlankIsEarliest(candidates: seq<Option<string>>, fallback: string, k: nat)
    requires k < |candidates| && !IsNullOrBlank(candidates[k])
    requires forall j :: 0 <= j < k ==> IsNullOrBlank(candidates[j])
    ensures FirstNonBlank(candidates, fallback) == candidates[k].value
  {
    if k > 0 {
      FirstNonBlankIsEarliest(candidates[1..], fallback, k - 1);
    }
  }

  /** When every candidate is absent or blank, the fallback is chosen. */
  lemma {:induction false} FirstNonBlankFallback(candidates: seq<Option<string>>, fallback: string)
    requires forall j :: 0 <= j < |candidates| ==> IsNullOrBlank(candidates[j])
    ensures FirstNonBlank(candidates, fallback) == fallback
  {
    if candidates != [] {
      FirstNonBlankFallback(candidates[1..], fallback);
    }
  }

  /** The body text is the first usable one of content, description and link, in that order. */
  lemma BodyTextPriority(content: Option<string>, description: Option<string>, link: Option<string>)
    ensures BodyText(content, description, link) == FirstNonBlank([content, description, link], NO_CONTENT)
  {
    var cs := [content, description, link];
    if !IsNullOrBlank(content) {
      FirstNonBlankIsEarliest(cs, NO_CONTENT, 0);
    } else if !IsNullOrBlank(description) {
      FirstNonBlankIsEarliest(cs, NO_CONTENT, 1);
    } else if !IsNullOrBlank(link) {
      FirstNonBlankIsEarliest(cs, NO_CONTENT, 2);
    } else {
      FirstNonBlankFallback(cs, NO_CONTENT);
    }
  }

  /** Without a usable link the button is hidden and the body never falls back to the link. */
  lemma HiddenLinkIsNotBody(content: Option<string>, description: Option<string>, link: Option<string>)
    requires !ShowFullArticleButton(link)
    ensures BodyText(content, description, link) == BodyText(content, description, None)
  {
  }

  /** With a usable link and nothing else to show, the body is the link and the button is shown. */
  lemma LinkAsBody(content: Option<string>, description: Option<string>, link: Option<string>)
    requires IsNullOrBlank(content) && IsNullOrBlank(description) && ShowFullArticleButton(link)
    ensures BodyText(content, description, link) == link.value
  {
  }
}
