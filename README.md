# localism cache core, modelled in Dafny

This project models the memoising file cache of `lib/cache.js` and the S3 argument checks of `lib/aws.js`.

- **File names.** `defaultFileNameGenerator` turns the arguments of a call into a file name:
  - no arguments give `no-parameters`;
  - one array gives `array-<length>`;
  - one object gives its first four members in key order, written `k=v` and joined with `&`;
  - one primitive gives `String(x)`;
  - several arguments give the per-argument names joined with `__`, with all whitespace removed.
- **Naming strategy.** `chooseFileNameGenerator` picks a uuid, a caller-supplied generator, or the default, in that order.
- **The cache.** `simpleCache` wraps an async `fn`.
  - On a hit it returns the stored file, passed through `transformFromFile` or parsed as JSON when it is JSON.
  - On a miss it calls `fn`, writes the response and returns it.
  - When `fn` is not a function it returns `null`.
- **S3 helpers.** `putFileOnS3` and `getFileFromS3` first validate the credentials and the bucket. They then fill in default endpoint settings on the caller's credentials object and start a transfer. The model stops at the transfer.

Files:

- `wrappers.dfy`: `Option` and `Result`.
- `jsvalues.dfy`: JavaScript values (primitives, arrays, plain objects), `String(x)` for primitives, truthiness, `_.isObject`, and which values survive JSON.
- `strings.dfy`: the `\s` character class and its removal, `Array.prototype.join`, and the `<` order on strings.
- `filenames.dfy`: `arrayName`, `objectName`, `defaultFileNameGenerator` and `chooseFileNameGenerator`, with their properties.
- `filename_examples.dfy`: the file names expected by every `defaultFileNameGenerator` test in test/cache.spec.js:11-102, proved about the model.
- `cache.dfy`: `simpleCache`. `Call` is the function that specifies one call. `CachedFunction.Invoke` does the same work step by step on a `FileStore` object that holds the cache directory as a map from path to text.
- `s3.dfy`: `validateS3Credentials`, `_.defaults` with `DEFAULT_S3_CREDENTIALS`, and the request and result shapes of `putFileOnS3` and `getFileFromS3`.

Inputs from outside the program are parameters:

- `uuid.v4()`: the argument `freshName` of a call.
- The wrapped `fn`, `transformFromFile` and a custom `fileNameGenerator`: function values in the options.
- The runtime's JSON: a `JsonCodec` record (`stringify`, `isJsonString`, `parse`). The round trip of JSON is the hypothesis `RoundTrips`, used only by the lemmas that need it.
- The outcome of an S3 transfer: the error that the upload callback or the download stream reports.

What `lib/cache.js` does not do:

- It has no remote store, no remote-first probing and no presence-check operation. It reads and writes only the local directory.
- A missing `fn` does not raise a configuration error. `simpleCache` returns `null`, after a console warning.

Consequences of the code that the lemmas make visible:

- Arrays are named by length only, so equal-length arrays share a cache file (`ArrayNameIgnoresContents`).
- An empty object yields the empty name (`SingleArgumentNames`).
- A string response that the JSON test accepts comes back parsed on the next call, not as the string `fn` returned (`StringResponseReadBack`).

## Model

| member | source | states |
|---|---|---|
| `JsValues.IntToString` | lib/cache.js:34 | `String(n)` starts with a minus sign exactly when `n` is negative; the digits that follow have no leading zero and denote the magnitude of `n` |
| `JsValues.PrimitiveToString` | lib/cache.js:34 | definition of `String(x)` for primitives: strings as they are, numbers by `IntToString`, `true`/`false`, `null`, `undefined` |
| `JsValues.IsObject` | lib/cache.js:66 | definition of `_.isObject` on the modelled values: arrays and objects; used by `FileContents` and `ContainerResponseRoundTrips` (the name generator's checks at lib/cache.js:15-25 match on arrays and objects directly) |
| `JsValues.Truthy` | lib/cache.js:43 | definition of JavaScript truthiness: `false`, `0`, `""`, `null` and `undefined` are falsy, arrays and objects truthy; used by `FileNamePrecedence`, `ValidateS3Credentials` and `PutFileOnS3` |
| `JsValues.DecimalRoundTrip` | lib/cache.js:7-8 | the decimal count written into `array-n` and `object-n` reads back as that count |
| `Strings.IsWhitespace` | lib/cache.js:37 | definition of the `\s` class: the ECMAScript WhiteSpace and LineTerminator characters; properties in `RemoveWhitespace` and its lemmas |
| `Strings.RemoveWhitespace` | lib/cache.js:37 | `replace(/\s/g, '')` leaves no whitespace, keeps every other character, and never lengthens the string |
| `Strings.RemoveWhitespaceAppend` | lib/cache.js:37 | stripping whitespace from a concatenation strips each part, which is why nested strips compose |
| `Strings.RemoveWhitespaceKeeps` | lib/cache.js:37 | a string without whitespace is left unchanged |
| `Strings.RemoveWhitespaceIdempotent` | lib/cache.js:37 | stripping twice equals stripping once |
| `Strings.SpaceRemoved` | lib/cache.js:37 | a space between two whitespace-free parts disappears |
| `Strings.Join` | lib/cache.js:30-31 | definition of `Array.prototype.join`: no parts give `""`, one part is itself, more put the separator between neighbours; properties in `JoinSeparatorCount` and `DefaultFileNameJoinsArguments` |
| `Strings.JoinSeparatorCount` | lib/cache.js:31 | joining parts that do not contain the one-character separator puts exactly one separator between neighbours |
| `Strings.KeyLe` | lib/cache.js:20 | definition of the `<=` order on strings that `sortBy` compares keys with: lexicographic on characters; properties in `KeyLeTotal`, `KeyLeTransitive` and `KeyLeAntisymmetric` |
| `Strings.KeyLeTotal` | lib/cache.js:20 | any two keys are comparable in the order `sortBy` uses |
| `Strings.KeyLeTransitive` | lib/cache.js:20 | the key order is transitive |
| `Strings.KeyLeAntisymmetric` | lib/cache.js:20 | keys that are ordered both ways are equal |
| `FileNames.ArrayName` | lib/cache.js:7 | the name is `array-` followed by decimal digits, with no leading zero, that read back as the array's length |
| `FileNames.ObjectName` | lib/cache.js:8 | the name is `object-` followed by decimal digits, with no leading zero, that read back as the object's number of keys |
| `FileNames.MemberValueText` | lib/cache.js:22-30 | definition: a nested array is written as its `arrayName`, a nested object as its `objectName`, `null` and `undefined` as `""` (as `join` writes them), any other primitive as `String(v)`; properties in `SingleArgumentNames` and the examples |
| `FileNames.MemberText` | lib/cache.js:30 | definition: `[k, v].join('=')`, the key, `=` and the member value's text |
| `FileNames.RetainedMembers` | lib/cache.js:19-21 | definition: `.sortBy(([k]) => k).slice(0, 4)`, the first four sorted members; properties in `ObjectFileNameKeepsSmallestKeys` |
| `FileNames.ObjectFileName` | lib/cache.js:18-32 | definition: the texts of the retained members joined with `&`; properties in `ObjectFileNameKeepsSmallestKeys` and `ObjectFileNameSegments` |
| `FileNames.SingleFileName` | lib/cache.js:13-35 | definition of the one-argument case: array name, object name or `String(x)`; properties in `SingleArgumentNames` |
| `FileNames.DefaultFileName` | lib/cache.js:10-39 | definition of `defaultFileNameGenerator` with its nested recursion on the tail; properties in `SingleArgumentNames` and `DefaultFileNameJoinsArguments` |
| `FileNames.FileNameFor` | lib/cache.js:41-50 | definition of the generator `chooseFileNameGenerator` returns; properties in `FileNamePrecedence` |
| `FileNames.InsertByKey` | lib/cache.js:20 | inserting a member gives a permutation of the old members plus the new one |
| `FileNames.SortByKey` | lib/cache.js:19-20 | `sortBy` over the object's pairs is a permutation of them |
| `FileNames.InsertByKeySorted` | lib/cache.js:20 | inserting into key-ordered members keeps them in key order |
| `FileNames.SortByKeySorted` | lib/cache.js:20 | the sorted pairs are in ascending key order |
| `FileNames.ObjectFileNameKeepsSmallestKeys` | lib/cache.js:18-21 | exactly `min(4, n)` members are kept, in key order, taken from the object; every dropped member has a key no smaller than every kept one, so truncation happens after sorting |
| `FileNames.SortedPrefixBeforeSuffix` | lib/cache.js:21 | cutting key-ordered members at any point leaves every key before the cut no larger than every key after it |
| `FileNames.ObjectFileNameSegments` | lib/cache.js:22-31 | an empty object gives `""`; when no rendered member contains `&`, the name has exactly `min(4, n) - 1` ampersands, so at most four segments |
| `FileNames.DefaultFileNameJoinsArguments` | lib/cache.js:36-37 | with two or more arguments the name is the per-argument names joined with `__` with all whitespace removed, and it contains no whitespace |
| `FileNames.SingleArgumentNames` | lib/cache.js:10-35 | zero arguments give `no-parameters`; one array gives `array-<length>`; one object gives its joined members; one primitive gives `String(x)` with whitespace kept; `undefined` gives `undefined`; `{}` gives `""` |
| `FileNames.ArrayNameIgnoresContents` | lib/cache.js:15-16 | arrays of equal length give the same name, and `[]` gives `array-0` |
| `FileNames.FileNamePrecedence` | lib/cache.js:41-50 | a truthy `uuidFileName` yields the fresh uuid whatever the arguments and generator; otherwise a custom generator's output is used unchanged; otherwise the default name |
| `FileNameExamples.PrimitiveNames` | test/cache.spec.js:12-20 | `no-parameters`, `someString`, `545` and `true` as pinned by the tests |
| `FileNameExamples.PrimitivesJoined` | test/cache.spec.js:22-24 | `(1, 'otherPrimitive', undefined, 22)` gives `1__otherPrimitive__undefined__22` |
| `FileNameExamples.ObjectNames` | test/cache.spec.js:26-32 | `{red, green, blue}` gives `blue=hello&green=55&red=true` |
| `FileNameExamples.NestedObjectName` | test/cache.spec.js:90-102 | six members give the first four by key, with a nested object as `object-2` and a nested array as `array-4` |
| `FileNames.SortByKeyOfOrdered` | lib/cache.js:20 | members already in key order are left in place by the sort |
| `FileNameExamples.FirstFourMembersName` | test/cache.spec.js:34-43 | the six-member object gives `a=true&a2=false&blue=hello&green=55`, its first four members by key |
| `FileNameExamples.TwoObjectsName` | test/cache.spec.js:45-58 | the six-member object and `{red, green, blue}` give `a=true&a2=false&blue=hello&green=55__blue=hello&green=55&red=true` |
| `FileNameExamples.ObjectStringObjectName` | test/cache.spec.js:60-74 | the six-member object, `'Lemmy Kilmister'` and `{red, green, blue}` give `a=true&a2=false&blue=hello&green=55__LemmyKilmister__blue=hello&green=55&red=true` |
| `FileNameExamples.WhitespaceRemovedWhenJoined` | test/cache.spec.js:76-84 | `([1,2,3,4,5], 'Lemmy Kilmister', {red, green, blue})` gives `array-5__LemmyKilmister__blue=hello&green=55&red=true` |
| `FileNameExamples.ArrayNames` | test/cache.spec.js:86-88 | `[]` gives `array-0` and a five-element array gives `array-5` |
| `Cache.Configure` | lib/cache.js:53-54 | no configuration exactly when `fn` is not a function; otherwise the options are kept, the directory defaults to `cache`, and a missing `uuidFileName` counts as falsy |
| `Cache.JoinPath` | lib/cache.js:56 | definition: `path.join(directory, name)` as the directory, `/` and the name, without normalisation |
| `Cache.CachePath` | lib/cache.js:56 | definition: the file of a call is the chosen name inside the configured directory; used by every `Cache` lemma |
| `Cache.FileContents` | lib/cache.js:66 | definition: arrays and objects are written as `JSON.stringify(response)`, anything else as `String(response)`; properties in `ContainerResponseRoundTrips` and `StringResponseReadBack` |
| `Cache.FromFile` | lib/cache.js:58-62 | definition: `transformFromFile(contents)` when it is a function, else the parsed JSON when the JSON test accepts the text, else the text; properties in `HitReadsStoredFile` |
| `Cache.Call` | lib/cache.js:55-68 | definition of one call: a hit reads the file without calling `fn`, a miss calls `fn` and writes a resolved response; properties in `HitReadsStoredFile`, `MissCallsFnAndWritesOnePath`, `SecondCallIsServedFromFile`, `ContainerResponseRoundTrips`, `StringResponseReadBack` and `UuidNamesAlwaysMiss` |
| `Cache.HitReadsStoredFile` | lib/cache.js:57-62 | on a hit `fn` is not called, no file changes, and the result is `transformFromFile(contents)`, else the parsed JSON, else the text |
| `Cache.MissCallsFnAndWritesOnePath` | lib/cache.js:63-67 | on a miss `fn` is called and its settlement returned unchanged, never transformed; a resolved response is written to the one cache path and every other file is untouched; a rejection writes nothing |
| `Cache.SecondCallIsServedFromFile` | lib/cache.js:56-62 | after a resolved miss, a second call with the same arguments hits the file the first wrote, does not call `fn` and changes nothing |
| `Cache.ContainerResponseRoundTrips` | lib/cache.js:62-66 | without `transformFromFile`, a JSON-safe array or object comes back from the file equal to what `fn` returned |
| `Cache.StringResponseReadBack` | lib/cache.js:62-66 | a string response is stored as it is; it comes back unchanged unless it is JSON text, in which case it comes back parsed |
| `Cache.UuidNamesAlwaysMiss` | lib/cache.js:43-44 | with uuid names, a fresh name misses and `fn` is called |
| `Cache.CachedFunction.Invoke` | lib/cache.js:55-68 | one call updates the files and the record of `fn` calls exactly as `Call` says, and returns its result |
| `Cache.SimpleCache` | lib/cache.js:53-74 | returns `null` exactly when `fn` is not a function; otherwise a new cached function over the given store that has not yet called `fn` |
| `Cache.CallTwice` | test/cache.spec.js:151-157 | two calls with equal arguments call `fn` once and return equal results; only the one cache file is written |
| `S3.ErrorMessage` | lib/aws.js:13-16 | definition: the two error messages `validateS3Credentials` throws, word for word |
| `S3.Get` | lib/aws.js:12 | definition of `_.get(obj, name)`: the property, or `undefined` when the object or the property is missing |
| `S3.HasCredentials` | lib/aws.js:12 | definition: `accessKeyId`, `secretAccessKey` and `region` are all truthy; properties in `ValidateS3Credentials` |
| `S3.ValidateS3Credentials` | lib/aws.js:11-18 | passes exactly when `accessKeyId`, `secretAccessKey`, `region` and the bucket are truthy; a missing or falsy credential gives the credentials error whatever the bucket; valid credentials with a falsy bucket give the bucket error |
| `S3.DefaultS3Credentials` | lib/aws.js:6-9 | definition: `s3BucketEndpoint` is `false` and `endpoint` is `https://s3.amazonaws.com` |
| `S3.Defaults` | lib/aws.js:22 | `_.defaults` keeps every property that is not `undefined`, fills in the missing or `undefined` ones that the defaults have, and leaves an `undefined` property the defaults lack as it is; the result has exactly the keys of both |
| `S3.ContentTypeOrDefault` | lib/aws.js:20 | the content type is never `undefined`: `text/plain` replaces `undefined`, and any other value, even a falsy one, is kept |
| `S3.DefaultsIdempotent` | lib/aws.js:6-9 | applying `DEFAULT_S3_CREDENTIALS` twice is the same as once |
| `S3.DefaultsKeepCredentials` | lib/aws.js:21-22 | merging the defaults never changes the outcome of validation |
| `S3.PutFileOnS3` | lib/aws.js:20-39 | validation comes first; on failure nothing changes and no upload starts; otherwise the caller's credentials get the defaults in place, the upload is started with `contentType` defaulting to `text/plain`, and the promise resolves with exactly `{bucket, key}` unless the upload reports a truthy error |
| `S3.GetFileFromS3` | lib/aws.js:41-57 | validation comes first; on failure nothing changes and no download starts; otherwise the defaults are merged in place, a download with concurrency 6 starts, and the result is `undefined` or the stream's error |

## Left out

- Real JSON text: `JSON.stringify`, `JSON.parse` and `isJsonString` (from deep-cuts, which is not part of this model) are abstract. The lemmas that need the round trip take it as the hypothesis `RoundTrips`.
- Real filesystem behaviour: `path.join` normalisation, `fs.mkdirp`, encodings and read or write errors. The cache directory is a map, and a path is the directory, `/` and the name. Under real `path.join`, the empty name that `{}` produces would address the directory itself; the model does not show this.
- Asynchrony: concurrent calls, interleaving between the existence check and the write, and the resulting cache stampede.
- uuid generation: the fresh name is a parameter, and nothing in the model makes it unique.
- Numbers are integers. Floating point, `NaN`, `-0` and exponent notation in `String(x)` are not modelled, and neither is the falsiness of `NaN`.
- Functions and other exotic objects as argument values (lodash's `_.isObject` also accepts functions).
- Objects are sequences of members. Outside the JSON hypothesis, the model does not require their keys to be distinct or in the order JavaScript enumerates them (array-index keys first, ascending). `JsonSafe`, which the round-trip hypothesis `RoundTrips` quantifies over, does require both, since `JSON.parse` could not give back anything else.
- The string order is lexicographic on Unicode scalar values. JavaScript compares UTF-16 code units, which orders characters outside the Basic Multilingual Plane differently.
- Non-object responses are written as `String(x)`, which is how older Node versions coerce `fs.writeFile` data. Newer versions reject numbers, booleans, `null` and `undefined`.
- A `transformFromFile` or `fileNameGenerator` that throws, and a custom generator that returns something other than a string.
- The S3 transfers: the `streaming-s3` upload and the `s3-download-stream` download, the `aws-sdk` client, and the network. Only the request handed to them and the settlement they report are modelled.
- The command-line front ends in `lib/cli/` and `lib/third-party/`: argument parsing, console output, and `./aws-filestore`, which is not part of this model.
- The `console.warn` of `simpleCache` when `fn` is missing.
