/** The choice `renderContent` in components/PromptPreview.tsx makes of what to show. */
module Preview {
  import opened Wrappers

  /** What the result panel shows. */
  datatype Content = Spinner | ErrorDisplay(message: string) | ResponseText(text: string) | Placeholder

  /** A string used as a condition is true unless it is empty; `null` is false. */
  predicate Present(error: Option<string>) {
    error.Some? && error.value != ""
  }

  /**
   * Loading wins over everything, then a non-empty error, then a non-empty
   * response; with none of them the placeholder is shown. The text shown is
   * the error or the response exactly as given.
   */
  function RenderContent(response: string, isLoading: bool, error: Option<string>): (c: Content)
    ensures c.Spinner? <==> isLoading
    ensures c.ErrorDisplay? <==> !isLoading && Present(error)
    ensures c.ErrorDisplay? ==> c.message == error.value
    ensures c.ResponseText? <==> !isLoading && !Present(error) && response != ""
    ensures c.ResponseText? ==> c.text == response
    ensures c.Placeholder? <==> !isLoading && !Present(error) && response == ""
  {
    if isLoading then Spinner
    else if Present(error) then ErrorDisplay(error.value)
    else if response != "" then ResponseText(response)
    else Placeholder
  }
}
