/**
  The writer combinator of the HTTP client: Combine builds a combined API
  version writer over an array of writers, and its Write applies every one of
  them, in array order, to the same outgoing request.
 */
module ApiVersionWriter {
  import opened Wrappers

  /** The identity of a constituent writer; what it writes is not modelled. */
  type WriterId = nat

  /** The API version being written, passed through unchanged. */
  type ApiVersion = string

  /** One call of a constituent writer's Write on the outgoing request. */
  datatype WriteEvent = Wrote(writer: WriterId, version: ApiVersion)

  /** The calls that writing with the writers, one after another, makes. */
  function Trace(writers: seq<WriterId>, version: ApiVersion): (events: seq<WriteEvent>)
    ensures |events| == |writers|
  {
    if writers == [] then [] else [Wrote(writers[0], version)] + Trace(writers[1..], version)
  }

  /** Each writer is called exactly once, at its own position, with the same version. */
  lemma {:induction false} TraceInOrder(writers: seq<WriterId>, version: ApiVersion)
    ensures forall i :: 0 <= i < |writers| ==> Trace(writers, version)[i] == Wrote(writers[i], version)
  {
    if writers != [] {
      TraceInOrder(writers[1..], version);
    }
  }

  /** Writing with xs + ys is writing with xs and then with ys. */
  lemma {:induction false} TraceAppend(xs: seq<WriterId>, ys: seq<WriterId>, version: ApiVersion)
    ensures Trace(xs + ys, version) == Trace(xs, version) + Trace(ys, version)
  {
    if xs != [] {
      assert (xs + ys)[1..] == xs[1..] + ys;
      TraceAppend(xs[1..], ys, version);
    } else {
      assert xs + ys == ys;
    }
  }

  /** The outgoing request message, observed through the writer calls made on it. */
  class OutgoingRequest {
    var trace: seq<WriteEvent>

    constructor ()
      ensures trace == []
    {
      trace := [];
    }
  }

  /** A constituent writer's Write: one call recorded on the request. */
  method WriteWith(writer: WriterId, request: OutgoingRequest, version: ApiVersion)
    modifies request
    ensures request.trace == old(request.trace) + [Wrote(writer, version)]
  {
    request.trace := request.trace + [Wrote(writer, version)];
  }

  class CombinedApiVersionWriter {
    const apiVersionWriters: array<WriterId>

    constructor (apiVersionWriters: array<WriterId>)
      ensures this.apiVersionWriters == apiVersionWriters
    {
      this.apiVersionWriters := apiVersionWriters;
    }

    /** Calls every writer of the array, in order, on the same request and version. */
    method Write(request: OutgoingRequest, apiVersion: ApiVersion)
      modifies request
      ensures request.trace == old(request.trace) + Trace(apiVersionWriters[..], apiVersion)
    {
      for i := 0 to apiVersionWriters.Length
        invariant request.trace == old(request.trace) + Trace(apiVersionWriters[..i], apiVersion)
      {
        WriteWith(apiVersionWriters[i], request, apiVersion);
        assert apiVersionWriters[..i + 1] == apiVersionWriters[..i] + [apiVersionWriters[i]];
        TraceAppend(apiVersionWriters[..i], [apiVersionWriters[i]], apiVersion);
      }
      assert apiVersionWriters[..apiVersionWriters.Length] == apiVersionWriters[..];
    }
  }

  /** System.Array.Copy on two distinct arrays: count elements from source[sourceIndex..]. */
  method ArrayCopy(source: array<WriterId>, sourceIndex: nat, destination: array<WriterId>, destinationIndex: nat, count: nat)
    requires source != destination
    requires sourceIndex + count <= source.Length && destinationIndex + count <= destination.Length
    modifies destination
    ensures destination[..] == old(destination[..destinationIndex]) + source[sourceIndex..sourceIndex + count]
                               + old(destination[destinationIndex + count..])
  {
    for k := 0 to count
      invariant destination[..destinationIndex] == old(destination[..destinationIndex])
      invariant destination[destinationIndex..destinationIndex + k] == source[sourceIndex..sourceIndex + k]
      invariant destination[destinationIndex + k..] == old(destination[destinationIndex + k..])
    {
      destination[destinationIndex + k] := source[sourceIndex + k];
      assert destination[destinationIndex..destinationIndex + k + 1]
          == destination[destinationIndex..destinationIndex + k] + [source[sourceIndex + k]];
      assert source[sourceIndex..sourceIndex + k + 1] == source[sourceIndex..sourceIndex + k] + [source[sourceIndex + k]];
    }
    assert destination[..] == destination[..destinationIndex] + destination[destinationIndex..destinationIndex + count]
                              + destination[destinationIndex + count..];
  }

  /**
    Combine(apiVersionWriter, params otherApiVersionwriters): a null primary
    writer is refused; otherwise the combined writer's array is the primary
    writer followed by the other writers in order (a null or empty params array
    adds none).
   */
  method Combine(apiVersionWriter: Option<WriterId>, otherApiVersionwriters: array?<WriterId>)
    returns (r: Result<CombinedApiVersionWriter, ArgumentError>)
    ensures apiVersionWriter.None? ==> r == Failure(ArgumentNull("apiVersionWriter"))
    ensures apiVersionWriter.Some? ==>
              && r.Success? && fresh(r.value) && fresh(r.value.apiVersionWriters)
              && r.value.apiVersionWriters[..]
                 == [apiVersionWriter.value] + (if otherApiVersionwriters == null then [] else otherApiVersionwriters[..])
  {
    if apiVersionWriter.None? {
      return Failure(ArgumentNull("apiVersionWriter"));
    }
    var apiVersionWriters: array<WriterId>;
    if otherApiVersionwriters == null || otherApiVersionwriters.Length == 0 {
      apiVersionWriters := new WriterId[1];
      apiVersionWriters[0] := apiVersionWriter.value;
    } else {
      var count := otherApiVersionwriters.Length;
      apiVersionWriters := new WriterId[count + 1];
      apiVersionWriters[0] := apiVersionWriter.value;
      ArrayCopy(otherApiVersionwriters, 0, apiVersionWriters, 1, count);
      assert otherApiVersionwriters[0..count] == otherApiVersionwriters[..];
    }
    var combined := new CombinedApiVersionWriter(apiVersionWriters);
    return Success(combined);
  }

  /**
    Combine(IEnumerable apiVersionWriters): the sequence is copied to an array;
    a null or empty sequence is refused.
   */
  method CombineSequence(apiVersionWriters: Option<seq<WriterId>>)
    returns (r: Result<CombinedApiVersionWriter, ArgumentError>)
    ensures (apiVersionWriters.None? || apiVersionWriters.value == [])
            <==> r == Failure(ZeroApiVersionWriters("apiVersionWriters"))
    ensures apiVersionWriters.Some? && apiVersionWriters.value != [] ==>
              && r.Success? && fresh(r.value) && fresh(r.value.apiVersionWriters)
              && r.value.apiVersionWriters[..] == apiVersionWriters.value
  {
    if apiVersionWriters.None? {
      return Failure(ZeroApiVersionWriters("apiVersionWriters"));
    }
    var source := apiVersionWriters.value;
    var writers := new WriterId[|source|](i requires 0 <= i < |source| => source[i]);
    if writers.Length == 0 {
      return Failure(ZeroApiVersionWriters("apiVersionWriters"));
    }
    var combined := new CombinedApiVersionWriter(writers);
    return Success(combined);
  }
}
