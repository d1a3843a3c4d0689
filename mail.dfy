/** The normalised message shared by the messages route and the dashboard. */
module Mail {
  import opened Wrappers

  /**
   * A message as the list view sees it. `receivedAt` is the instant the
   * route's ISO string denotes, in milliseconds since the epoch; `category`
   * is absent until the route has merged the classifications.
   */
  datatype Message = Message(
    id: string,
    subject: string,
    snippet: string,
    from: string,
    receivedAt: int,
    labels: seq<string>,
    unread: bool,
    bodyText: Option<string>,
    category: Option<string>)

  function Ids(ms: seq<Message>): (r: seq<string>)
    ensures |r| == |ms| && forall k :: 0 <= k < |ms| ==> r[k] == ms[k].id
  {
    seq(|ms|, k requires 0 <= k < |ms| => ms[k].id)
  }
}
