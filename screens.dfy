/** The rendering order the list views share: a loading indicator first,
    then the error, then the empty-list message, then the list. */
module Screens {
  import opened Js

  datatype Screen<T> = Loading | ErrorMessage(text: string) | EmptyMessage | ListOf(items: seq<T>)

  function ListScreen<T>(loading: bool, error: string, items: seq<T>): Screen<T> {
    if loading then Loading
    else if Truthy(error) then ErrorMessage(error)
    else if items == [] then EmptyMessage
    else ListOf(items)
  }

  /** The list is shown exactly when nothing is loading, there is no error
      and the list is not empty, and then it is shown whole; an error is
      shown only once loading has finished. */
  lemma ListShownIff<T>(loading: bool, error: string, items: seq<T>)
    ensures ListScreen(loading, error, items).ListOf? <==> !loading && !Truthy(error) && items != []
    ensures ListScreen(loading, error, items).ListOf? ==> ListScreen(loading, error, items).items == items
    ensures ListScreen(loading, error, items).ErrorMessage? <==> !loading && Truthy(error)
    ensures ListScreen(loading, error, items).EmptyMessage? <==> !loading && !Truthy(error) && items == []
  {
  }
}
