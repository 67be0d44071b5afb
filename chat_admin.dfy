/** The message list of the admin site shows a preview of each message's content. */
module ChatAdmin {

  const PreviewLength: nat := 50
  const Ellipsis: string := "..."

  function Min(a: nat, b: nat): nat {
    if a <= b then a else b
  }

  /** `MessageAdmin.content_preview`: short content unchanged, long content cut
      to its first 50 characters followed by "...". */
  function ContentPreview(content: string): (r: string)
    ensures |content| <= PreviewLength ==> r == content
    ensures |r| <= PreviewLength + |Ellipsis|
    ensures |r| >= Min(|content|, PreviewLength)
    ensures r[..Min(|content|, PreviewLength)] == content[..Min(|content|, PreviewLength)]
  {
    if |content| > PreviewLength then content[..PreviewLength] + Ellipsis else content
  }

  /** Previewing a preview changes nothing. */
  lemma PreviewIdempotent(content: string)
    ensures ContentPreview(ContentPreview(content)) == ContentPreview(content)
  {
    if |content| > PreviewLength {
      var p := ContentPreview(content);
      assert p[..PreviewLength] == content[..PreviewLength];
    }
  }

  /** A long content is never shown whole: its preview ends in the ellipsis. */
  lemma LongContentIsCut(content: string)
    requires |content| > PreviewLength
    ensures |ContentPreview(content)| == PreviewLength + |Ellipsis|
    ensures ContentPreview(content)[PreviewLength..] == Ellipsis
  {
  }
}
