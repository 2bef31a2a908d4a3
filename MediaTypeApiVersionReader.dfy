/**
  The media-type API version reader: it reads the version parameter of the
  Content-Type header and of the Accept header and merges the two into at most
  two raw version tokens.
 */
module MediaTypeApiVersionReader {
  import opened Wrappers
  import opened OrdinalIgnoreCase

  /**
    What the reader sees of a request: the version that ReadContentTypeHeader
    yields for the Content-Type header and the one that ReadAcceptHeader yields
    for the Accept header; None when the header is missing or carries no version.
   */
  datatype HttpRequest = HttpRequest(contentTypeVersion: Option<string>, acceptVersion: Option<string>)

  /** Every later token sorts strictly after every earlier one under the comparer. */
  predicate StrictlyAscending(tokens: seq<string>) {
    forall i, j :: 0 <= i < j < |tokens| ==> Compare(tokens[i], tokens[j]) < 0
  }

  /** No two tokens are equal ignoring case. */
  predicate DistinctIgnoringCase(tokens: seq<string>) {
    forall i, j :: 0 <= i < j < |tokens| ==> !EqualsIgnoreCase(tokens[i], tokens[j])
  }

  /** Every token is one of the two header versions, spelled as that header spelled it. */
  predicate TakenFrom(tokens: seq<string>, version: Option<string>, otherVersion: Option<string>) {
    forall t :: t in tokens ==> Some(t) == version || Some(t) == otherVersion
  }

  /**
    The merge rule of Read, given the Content-Type version and the Accept
    version. The conditionals follow the source: an absent Accept version gives
    the Content-Type version alone (or nothing); otherwise an absent or
    case-insensitively equal Content-Type version gives the Accept version alone;
    otherwise both, in ascending comparer order.
   */
  function MergeVersions(version: Option<string>, otherVersion: Option<string>): (tokens: seq<string>)
    ensures |tokens| <= 2
    ensures TakenFrom(tokens, version, otherVersion)
    ensures StrictlyAscending(tokens) && DistinctIgnoringCase(tokens)
    ensures tokens == [] <==> version.None? && otherVersion.None?
    ensures version.Some? && otherVersion.None? ==> tokens == [version.value]
    ensures version.None? && otherVersion.Some? ==> tokens == [otherVersion.value]
    ensures && version.Some? && otherVersion.Some?
            && EqualsIgnoreCase(version.value, otherVersion.value)
            ==> tokens == [otherVersion.value]
    ensures && version.Some? && otherVersion.Some?
            && !EqualsIgnoreCase(version.value, otherVersion.value)
            ==> |tokens| == 2 && multiset(tokens) == multiset{version.value, otherVersion.value}
  {
    match otherVersion
    case None => if version.None? then [] else [version.value]
    case Some(other) =>
      if version.None? || EqualsIgnoreCase(version.value, other) then [other]
      else
        CompareAntisymmetric(version.value, other);
        if Compare(version.value, other) <= 0 then [version.value, other] else [other, version.value]
  }

  /** Read: a null request is refused before any header is looked at. */
  function Read(request: Option<HttpRequest>): (r: Result<seq<string>, ArgumentError>)
    ensures request.None? <==> r == Failure(ArgumentNull("request"))
    ensures request.Some? ==> r == Success(MergeVersions(request.value.contentTypeVersion, request.value.acceptVersion))
  {
    match request
    case None => Failure(ArgumentNull("request"))
    case Some(headers) => Success(MergeVersions(headers.contentTypeVersion, headers.acceptVersion))
  }

  /** Two versions that differ ignoring case give the same tokens whichever header carried which. */
  lemma MergeIndependentOfHeader(a: string, b: string)
    requires !EqualsIgnoreCase(a, b)
    ensures MergeVersions(Some(a), Some(b)) == MergeVersions(Some(b), Some(a))
  {
    CompareAntisymmetric(a, b);
  }

  /**
    Two versions equal ignoring case but spelled differently: the Accept spelling
    wins, so swapping the headers changes the token.
   */
  lemma MergeKeepsAcceptSpelling(a: string, b: string)
    requires EqualsIgnoreCase(a, b) && a != b
    ensures MergeVersions(Some(a), Some(b)) == [b]
    ensures MergeVersions(Some(b), Some(a)) == [a]
    ensures MergeVersions(Some(a), Some(b)) != MergeVersions(Some(b), Some(a))
  {
  }
}
