/** The choice a result tab makes between a loading skeleton, an empty placeholder and the text. */
module ResultPane {

  datatype View = Skeleton | Placeholder | Text(content: string)

  /** A pane has content when its string is non-empty (the empty string is falsy). */
  predicate HasContent(content: string)
  {
    |content| > 0
  }

  /** The three conditions the pane renders under, one per block of the pane's markup. */
  predicate ShowsSkeleton(content: string, isLoading: bool) { isLoading }
  predicate ShowsPlaceholder(content: string, isLoading: bool) { !isLoading && !HasContent(content) }
  predicate ShowsText(content: string, isLoading: bool) { !isLoading && HasContent(content) }

  /** What the pane shows: the loading flag wins over the content, and only non-empty content
      is ever shown as text. */
  function ViewOf(content: string, isLoading: bool): (v: View)
    ensures v == Skeleton <==> ShowsSkeleton(content, isLoading)
    ensures v == Placeholder <==> ShowsPlaceholder(content, isLoading)
    ensures v.Text? <==> ShowsText(content, isLoading)
    ensures v.Text? ==> v.content == content && content != ""
  {
    if isLoading then Skeleton
    else if HasContent(content) then Text(content)
    else Placeholder
  }

  /** Exactly one of the three blocks is rendered, whatever the content and the flag. */
  lemma ExactlyOneBlock(content: string, isLoading: bool)
    ensures ShowsSkeleton(content, isLoading) || ShowsPlaceholder(content, isLoading) || ShowsText(content, isLoading)
    ensures !(ShowsSkeleton(content, isLoading) && ShowsPlaceholder(content, isLoading))
    ensures !(ShowsSkeleton(content, isLoading) && ShowsText(content, isLoading))
    ensures !(ShowsPlaceholder(content, isLoading) && ShowsText(content, isLoading))
  {
  }
}
