/** The asynchronous contract of the image source, sequentialised: every
    request runs once on the processing queue and posts exactly one result,
    present or absent, to the main queue. Requests may finish in any order;
    the order in which they complete is a parameter. */
module Delivery {
  import opened Wrappers
  import opened Geometry
  import opened Platform
  import opened UrlImageSource

  /** The four public operations of the image source. */
  datatype Request =
    | FullResolutionImageRequest
    | FullResolutionImageDataRequest
    | ImageSizeRequest
    | ImageFittingSizeRequest(size: TargetSize)

  /** The value a completion handler receives. */
  datatype Response<T> =
    | ImageResponse(image: Option<T>)
    | DataResponse(data: Option<Bytes>)
    | SizeResponse(size: Option<Size>)

  /** The work a request does on the processing queue. Every request is
      answered with the kind of value its handler takes, computed by that
      request's own operation. */
  function Perform<Src, Img, T>(p: Platform<Src, Img>, url: Url, make: Img -> Option<T>, request: Request): (r: Response<T>)
    ensures r.ImageResponse? <==> request.FullResolutionImageRequest? || request.ImageFittingSizeRequest?
    ensures r.DataResponse? <==> request.FullResolutionImageDataRequest?
    ensures r.SizeResponse? <==> request.ImageSizeRequest?
    ensures request.FullResolutionImageRequest? ==> r.image == FullResolutionImage(p, url, make)
    ensures request.FullResolutionImageDataRequest? ==> r.data == FullResolutionImageData(p, url)
    ensures request.ImageSizeRequest? ==> r.size == ImageSize(p, url)
    ensures request.ImageFittingSizeRequest? ==> r.image == ImageFittingSize(p, url, request.size, make)
  {
    match request
    case FullResolutionImageRequest => ImageResponse(FullResolutionImage(p, url, make))
    case FullResolutionImageDataRequest => DataResponse(FullResolutionImageData(p, url))
    case ImageSizeRequest => SizeResponse(ImageSize(p, url))
    case ImageFittingSizeRequest(size) => ImageResponse(ImageFittingSize(p, url, size, make))
  }

  /** One call of a completion handler on the main queue: which request
      it answers, and with what. */
  datatype Completion<T> = Completion(request: nat, response: Response<T>)

  /** A possible completion order of `n` concurrent requests: each request
      index exactly once, in any order. */
  predicate IsCompletionOrder(order: seq<nat>, n: nat)
  {
    && |order| == n
    && (forall k :: 0 <= k < |order| ==> order[k] < n)
    && (forall i, j :: 0 <= i < j < |order| ==> order[i] != order[j])
  }

  /** Whether the handler of request `id` was called. */
  predicate Answered<T>(log: seq<Completion<T>>, id: nat)
  {
    exists k :: 0 <= k < |log| && log[k].request == id
  }

  /** Runs the requests, completing them in `order`, and returns the calls
      made on the main queue: one per request, each carrying the result of
      its own request, and no handler called twice or left uncalled. */
  method Deliver<Src, Img, T>(p: Platform<Src, Img>, url: Url, make: Img -> Option<T>,
                             requests: seq<Request>, order: seq<nat>)
    returns (log: seq<Completion<T>>)
    requires IsCompletionOrder(order, |requests|)
    ensures |log| == |requests|
    ensures forall k :: 0 <= k < |log| ==>
      log[k].request == order[k] && log[k].response == Perform(p, url, make, requests[order[k]])
    ensures forall i, j :: 0 <= i < j < |log| ==> log[i].request != log[j].request
    ensures forall id :: 0 <= id < |requests| ==> Answered(log, id)
  {
    log := [];
    var i := 0;
    while i < |order|
      invariant 0 <= i <= |order|
      invariant |log| == i
      invariant forall k :: 0 <= k < i ==> log[k] == Completion(order[k], Perform(p, url, make, requests[order[k]]))
    {
      var id := order[i];
      var c := Completion(id, Perform(p, url, make, requests[id]));
      log := log + [c];
      i := i + 1;
    }
    forall id | 0 <= id < |requests|
      ensures Answered(log, id)
    {
      CompletionOrderCoversAll(order, |requests|, id);
      var k :| 0 <= k < |order| && order[k] == id;
      assert log[k].request == id;
    }
  }

  /** Every request appears in a completion order: `n` distinct indices
      below `n` are all of them. */
  lemma CompletionOrderCoversAll(order: seq<nat>, n: nat, id: nat)
    requires IsCompletionOrder(order, n)
    requires id < n
    ensures id in order
  {
    var seen := Elements(order);
    DistinctElementsCount(order);
    if id !in order {
      var others := Below(n) - {id};
      assert seen <= others;
      SubsetCount(seen, others);
      assert false;
    }
  }

  /** The indices below `n`. */
  function Below(n: nat): (r: set<nat>)
    ensures forall x: nat :: x in r <==> x < n
    ensures |r| == n
  {
    if n == 0 then {} else Below(n - 1) + {n - 1}
  }

  /** The entries of a sequence, as a set. */
  function Elements(xs: seq<nat>): set<nat>
  {
    set x | x in xs
  }

  /** A sequence without repetitions has as many distinct entries as
      entries. */
  lemma {:induction false} DistinctElementsCount(xs: seq<nat>)
    requires forall i, j :: 0 <= i < j < |xs| ==> xs[i] != xs[j]
    ensures |Elements(xs)| == |xs|
  {
    if |xs| > 0 {
      var rest := xs[1..];
      DistinctElementsCount(rest);
      assert xs[0] !in rest;
      assert Elements(xs) == {xs[0]} + Elements(rest);
    }
  }

  lemma SubsetCount(a: set<nat>, b: set<nat>)
    requires a <= b
    ensures |a| <= |b|
  {
    assert b == a + (b - a);
  }
}
