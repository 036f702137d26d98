/**
 * The shapes a list endpoint may answer with, and the content-only normalisation the role
 * and permission pages share.
 */
module Responses {
  import opened Wrappers

  /** A response field as the pages test it: falsy, an array, or a truthy value that is not an array. */
  datatype Field<T> = Falsy | Items(items: seq<T>) | NotAList

  /**
   * A response body: a bare array, or an object whose fields may be missing. A missing or
   * non-numeric count is None.
   */
  datatype Body<T> =
    | ArrayBody(items: seq<T>)
    | ObjectBody(content: Field<T>, orders: Field<T>, totalPages: Option<int>, totalElements: Option<int>, totalItems: Option<int>)

  /**
   * What a response leaves in a page's list state: nothing changed, a list with its totals,
   * or a value that is not a list, which the table cannot render.
   */
  datatype Outcome<T> =
    | Unchanged
    | Loaded(items: seq<T>, totalPages: Option<int>, totalElements: Option<int>)
    | Unusable

  /**
   * The role and permission pages: only a truthy `content` updates the list, with the
   * `totalPages` and `totalItems` counts; any other response leaves the page as it was.
   */
  function ContentOnly<T>(body: Body<T>): (r: Outcome<T>)
    ensures r.Loaded? <==> body.ObjectBody? && body.content.Items?
    ensures r.Loaded? ==> r.items == body.content.items && r.totalPages == body.totalPages && r.totalElements == body.totalItems
    ensures r.Unusable? <==> body.ObjectBody? && body.content.NotAList?
  {
    match body
    case ArrayBody(_) => Unchanged
    case ObjectBody(content, _, totalPages, _, totalItems) =>
      match content
      case Items(items) => Loaded(items, totalPages, totalItems)
      case NotAList => Unusable
      case Falsy => Unchanged
  }

  /** A bare array, or an object without `content`, leaves the role and permission lists as they were. */
  lemma ContentOnlyIgnoresOtherShapes<T>(body: Body<T>)
    requires body.ArrayBody? || body.content.Falsy?
    ensures ContentOnly(body).Unchanged?
  {
  }
}
