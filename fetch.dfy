/**
 * `fetchAsset`: one GET to the upstream target, accepted only with status
 * 200. The network is not modelled: what the upstream services answer to
 * each target is a function given from outside, and a transport failure
 * (DNS, refused connection, the client's 10-second timeout) is one of its
 * possible answers.
 */
module Fetch {
  import opened Multimaps
  import opened Upstream

  type Bytes = seq<bv8>

  /** The part of an upstream `http.Response` the proxy reads. */
  datatype Reply = Reply(status: int, header: Multimap, body: Bytes)

  /** What `client.Get` returns: an error, or a response. */
  datatype FetchResult = TransportError | Replied(reply: Reply)

  /** The upstream services' answer to a GET of each target. */
  type Responder = Target -> FetchResult

  const StatusOK: int := 200

  datatype FetchError = TransportFailed | UnexpectedStatus(code: int)

  /** What `fetchAsset` returns: the accepted reply, or the error. */
  datatype Fetched = Accepted(reply: Reply) | Rejected(error: FetchError)

  /**
   * The status check of `fetchAsset`: a reply is accepted exactly when the
   * transport succeeded and the status is 200; it is then passed on as it is.
   */
  function CheckStatus(f: FetchResult): (r: Fetched)
    ensures r.Accepted? <==> f.Replied? && f.reply.status == StatusOK
    ensures r.Accepted? ==> r.reply == f.reply
    ensures f.TransportError? ==> r == Rejected(TransportFailed)
    ensures f.Replied? && f.reply.status != StatusOK ==> r == Rejected(UnexpectedStatus(f.reply.status))
  {
    match f
    case TransportError => Rejected(TransportFailed)
    case Replied(reply) =>
      if reply.status != StatusOK then Rejected(UnexpectedStatus(reply.status)) else Accepted(reply)
  }

  /**
   * The upstream side of the requests, seen from one request:
   * `fetchAsset` makes a new `http.Client` per call, and only
   * net/http's default transport is shared between calls. The object
   * records the targets asked for and whether the body of the last reply
   * is still open.
   */
  class Client {
    const responder: Responder
    var requested: seq<Target>
    var bodyOpen: bool

    constructor (responder: Responder)
      ensures this.responder == responder && requested == [] && !bodyOpen
    {
      this.responder := responder;
      requested := [];
      bodyOpen := false;
    }

    /** `client.Get(target)`: a reply comes with an open body. */
    method Get(target: Target) returns (f: FetchResult)
      requires !bodyOpen
      modifies this
      ensures f == responder(target)
      ensures requested == old(requested) + [target]
      ensures bodyOpen <==> f.Replied?
    {
      f := responder(target);
      requested := requested + [target];
      bodyOpen := f.Replied?;
    }

    /** `resp.Body.Close()`. */
    method CloseBody()
      modifies this
      ensures !bodyOpen && requested == old(requested)
    {
      bodyOpen := false;
    }
  }

  /**
   * `fetchAsset(fullURL)`: one GET; a reply whose status is not 200 has its
   * body closed before the error is returned, an accepted one is handed to
   * the caller still open.
   */
  method FetchAsset(client: Client, target: Target) returns (r: Fetched)
    requires !client.bodyOpen
    modifies client
    ensures r == CheckStatus(client.responder(target))
    ensures client.requested == old(client.requested) + [target]
    ensures client.bodyOpen <==> r.Accepted?
  {
    var f := client.Get(target);
    if f.TransportError? {
      return Rejected(TransportFailed);
    }
    if f.reply.status != StatusOK {
      client.CloseBody();
      return Rejected(UnexpectedStatus(f.reply.status));
    }
    return Accepted(f.reply);
  }
}
