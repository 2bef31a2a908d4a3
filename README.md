# API version negotiation: media-type reader merge rule and writer combinator

This project models two pieces of the API versioning library in Dafny and proves properties about them.

- **The media-type API version reader** (`MediaTypeApiVersionReader.Read`). It takes the version parameter found in the `Content-Type` header and the one found in the `Accept` header and returns zero, one or two raw version tokens:
  - two versions equal under `StringComparer.OrdinalIgnoreCase` collapse to the `Accept` spelling;
  - two different versions come back in ascending comparer order.

  The model is pure: a function over two optional strings, with lemmas about it.
- **The client-side writer combinator** (`ApiVersionWriter.Combine`, both overloads, and `CombinedApiVersionWriter.Write`).
  - `Combine` allocates the array of writers and fills it.
  - `Write` loops over that array and calls each writer on the same outgoing request.
  - The outgoing request is represented by the trace of writer calls made on it.

Modules:

- `Wrappers`: `Option` stands for a nullable reference. `Result` stands for "a value or the exception thrown". `ArgumentError` holds the argument exceptions.
- `OrdinalIgnoreCase`: the string comparer. Both strings are upper-cased (ASCII letters only) and then compared lexicographically by Unicode code point.
- `MediaTypeApiVersionReader`: the merge rule and `Read`.
- `ApiVersionWriter`: writer identities, the trace, the combined writer class, and both `Combine` operations.

C# overloading has no Dafny counterpart, so `Combine(IEnumerable<IApiVersionWriter>)` is named `CombineSequence`.

## Model

| member | source | states |
|---|---|---|
| `OrdinalIgnoreCase.CompareOrdinal` | src/AspNetCore/WebApi/src/Asp.Versioning.Http/MediaTypeApiVersionReader.cs:38 | the ordinal comparison gives a sign in -1..1, and the empty string never sorts after another string |
| `OrdinalIgnoreCase.CompareOrdinalPrefix` | src/AspNetCore/WebApi/src/Asp.Versioning.Http/MediaTypeApiVersionReader.cs:38 | a proper prefix sorts strictly before the longer string |
| `OrdinalIgnoreCase.CompareOrdinalZero` | src/AspNetCore/WebApi/src/Asp.Versioning.Http/MediaTypeApiVersionReader.cs:38 | the ordinal comparison is zero exactly when the strings are equal |
| `OrdinalIgnoreCase.CompareOrdinalAntisymmetric` | src/AspNetCore/WebApi/src/Asp.Versioning.Http/MediaTypeApiVersionReader.cs:38 | swapping the arguments negates the ordinal comparison |
| `OrdinalIgnoreCase.CompareOrdinalTransitive` | src/AspNetCore/WebApi/src/Asp.Versioning.Http/MediaTypeApiVersionReader.cs:38 | the ordinal "sorts no later than" relation is transitive |
| `OrdinalIgnoreCase.EqualsIgnoreCase` | src/AspNetCore/WebApi/src/Asp.Versioning.Http/MediaTypeApiVersionReader.cs:31-33 | the comparer's `Equals`: identical strings are equal ignoring case, and strings equal ignoring case have the same length |
| `OrdinalIgnoreCase.Compare` | src/AspNetCore/WebApi/src/Asp.Versioning.Http/MediaTypeApiVersionReader.cs:31-38 | the case-insensitive comparison is zero exactly when the comparer's `Equals` holds, so the two operations the source uses agree |
| `OrdinalIgnoreCase.CompareAntisymmetric` | src/AspNetCore/WebApi/src/Asp.Versioning.Http/MediaTypeApiVersionReader.cs:38-40 | swapping the arguments negates the case-insensitive comparison |
| `OrdinalIgnoreCase.CompareTransitive` | src/AspNetCore/WebApi/src/Asp.Versioning.Http/MediaTypeApiVersionReader.cs:38-40 | the case-insensitive ordering is transitive, so "ascending" is a real order |
| `MediaTypeApiVersionReader.MergeVersions` | src/AspNetCore/WebApi/src/Asp.Versioning.Http/MediaTypeApiVersionReader.cs:23-40 | at most two tokens; each is one of the two header versions, spelled as that header spelled it; the tokens are strictly ascending and distinct ignoring case; the result is empty exactly when neither header has a version; it is `[contentTypeVersion]` when only Content-Type has one and `[acceptVersion]` when only Accept has one; it is `[acceptVersion]` when both are equal ignoring case; it holds both versions, exactly once each, when they differ |
| `MediaTypeApiVersionReader.Read` | src/AspNetCore/WebApi/src/Asp.Versioning.Http/MediaTypeApiVersionReader.cs:14-28 | a null request raises an argument-null error naming `request`, and only a null request does; any other request yields the merged tokens of its two headers |
| `MediaTypeApiVersionReader.MergeIndependentOfHeader` | src/AspNetCore/WebApi/src/Asp.Versioning.Http/MediaTypeApiVersionReader.cs:38-40 | for two versions that differ ignoring case, the output is the same whichever header carried which |
| `MediaTypeApiVersionReader.MergeKeepsAcceptSpelling` | src/AspNetCore/WebApi/src/Asp.Versioning.Http/MediaTypeApiVersionReader.cs:33-35 | for every two versions equal ignoring case but spelled differently, the output is the Accept spelling alone, so swapping the headers changes the output |
| `ApiVersionWriter.Trace` | src/Client/src/Asp.Versioning.Http.Client/ApiVersionWriter.cs:70-73 | writing with a sequence of writers makes one call per writer |
| `ApiVersionWriter.TraceInOrder` | src/Client/src/Asp.Versioning.Http.Client/ApiVersionWriter.cs:68-74 | call i is made by writer i, with the version given to the combined writer: each writer is called exactly once, in array order |
| `ApiVersionWriter.TraceAppend` | src/Client/src/Asp.Versioning.Http.Client/ApiVersionWriter.cs:68-74 | combining composes: writing with writers xs followed by ys gives the same calls as writing with xs and then with ys |
| `ApiVersionWriter.WriteWith` | src/Client/src/Asp.Versioning.Http.Client/ApiVersionWriter.cs:72 | one constituent writer's `Write` records exactly one call on the request |
| `ApiVersionWriter.CombinedApiVersionWriter.constructor` | src/Client/src/Asp.Versioning.Http.Client/ApiVersionWriter.cs:65-66 | the combined writer keeps the array it is given, without copying it |
| `ApiVersionWriter.CombinedApiVersionWriter.Write` | src/Client/src/Asp.Versioning.Http.Client/ApiVersionWriter.cs:68-74 | the request's trace is extended by exactly the trace of the writer array, on the same request and version |
| `ApiVersionWriter.ArrayCopy` | src/Client/src/Asp.Versioning.Http.Client/ApiVersionWriter.cs:37 | `Array.Copy` places `count` source elements at the destination index and leaves the rest of the destination unchanged |
| `ApiVersionWriter.Combine` | src/Client/src/Asp.Versioning.Http.Client/ApiVersionWriter.cs:17-41 | a null primary writer raises an argument-null error naming `apiVersionWriter`; otherwise a freshly allocated array holds the primary writer at index 0 and `others[i]` at index i+1, and only the primary writer when `others` is null or empty |
| `ApiVersionWriter.CombineSequence` | src/Client/src/Asp.Versioning.Http.Client/ApiVersionWriter.cs:49-59 | a null or empty sequence raises the zero-writers argument error naming `apiVersionWriters`, and only such a sequence does; otherwise a fresh array holds the sequence's writers, with the same length and order |

## Left out

- `ReadContentTypeHeader`, `ReadAcceptHeader` and `GetTypedHeaders` parse headers, and that code is not part of this model. Their results are modelled as the two `Option<string>` fields of `HttpRequest`. `None` means that the header is missing or carries no version.
- `OrdinalIgnoreCase.Compare` folds ASCII letters only. .NET's full Unicode upper-case mapping is not modelled.
- OrdinalIgnoreCase.CompareOrdinal: compares characters as Unicode code points, while .NET compares UTF-16 code units. The two orders differ for characters outside the Basic Multilingual Plane compared with characters from U+E000 to U+FFFF. For example, U+FF01 sorts after U+10000 in .NET (0xFF01 > 0xD800) but before it here.
- `OrdinalIgnoreCase.Compare` keeps only the sign of .NET's comparison result. The source only tests `<= 0` and equality, so the sign is enough.
- The concrete writers (query string, header, media type, URL segment) are not modelled. Neither is what they do to an `HttpRequestMessage`. Each writer is an opaque identity, and its `Write` is one recorded call.
- `CombinedApiVersionWriter.Write` does not expand a combined writer that is used as a constituent of another one: that writer is one opaque identity. `TraceAppend` states the flattening property instead.
- ArrayCopy: requires the source and destination to be different arrays, although .NET's `Array.Copy` also handles overlapping copies within one array. `Combine` always copies into a freshly allocated array, so this case never arises there.
- Null elements inside a writer array are not modelled. The source does not check them, and `Write` would throw a null-reference error at that index.
- A null request passed to `CombinedApiVersionWriter.Write` is passed on to the constituent writers. Their checks are not part of this model, so the request is non-null here.
- The `ApiVersion` value type, its parser and its ordering are not part of this model. The version being written is passed through as an opaque string.
- The reader combinator, the other readers, the version selector and sunset policies are not part of this model.
- The example applications are not modelled: hosting and OpenAPI configuration, a CRUD controller, and the OData model builder.
