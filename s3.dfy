/**
 * The argument checks and credential defaults of lib/aws.js. The upload and
 * download streams are not modelled: what they report is a parameter.
 */
module S3 {
  import opened Wrappers
  import opened JsValues

  /** The two errors `validateS3Credentials` throws. */
  datatype ConfigError = MissingCredentials | MissingBucket

  function ErrorMessage(e: ConfigError): string
  {
    match e
    case MissingCredentials =>
      "You must pass in accessKeyId, secretAccessKey, and region properties with your s3 credentials."
    case MissingBucket =>
      "You must pass in an s3Bucket parameter to the simple cache in order to use the s3 cache feature."
  }

  /** `_.get(obj, name)`: the property, or `undefined` when the object or the property is missing. */
  function Get(obj: Option<map<string, Value>>, name: string): Value
  {
    if obj.Some? && name in obj.value then obj.value[name] else Prim(Undefined)
  }

  /** The three credential properties are all present and truthy. */
  predicate HasCredentials(creds: Option<map<string, Value>>)
  {
    Truthy(Get(creds, "accessKeyId")) && Truthy(Get(creds, "secretAccessKey")) && Truthy(Get(creds, "region"))
  }

  /**
   * `validateS3Credentials(s3Credentials, bucket)`: the credentials are
   * checked first, then the bucket; `None` means nothing was thrown.
   */
  function ValidateS3Credentials(creds: Option<map<string, Value>>, bucket: Value): (r: Option<ConfigError>)
    ensures r.None? <==> HasCredentials(creds) && Truthy(bucket)
    ensures r == Some(MissingCredentials) <==>
      !Truthy(Get(creds, "accessKeyId")) || !Truthy(Get(creds, "secretAccessKey")) || !Truthy(Get(creds, "region"))
    ensures r == Some(MissingBucket) <==> HasCredentials(creds) && !Truthy(bucket)
  {
    if !Truthy(Get(creds, "accessKeyId")) || !Truthy(Get(creds, "secretAccessKey")) || !Truthy(Get(creds, "region")) then
      Some(MissingCredentials)
    else if !Truthy(bucket) then
      Some(MissingBucket)
    else
      None
  }

  /** `DEFAULT_S3_CREDENTIALS`. */
  function DefaultS3Credentials(): map<string, Value>
  {
    map["s3BucketEndpoint" := Prim(Bool(false)), "endpoint" := Prim(Str("https://s3.amazonaws.com"))]
  }

  /**
   * `_.defaults(target, source)`: fill in the properties of `target` that
   * are missing or `undefined`; every other property of `target`, including
   * an `undefined` one that `source` does not have, is left as it is.
   */
  function Defaults(target: map<string, Value>, source: map<string, Value>): (m: map<string, Value>)
    ensures m.Keys == target.Keys + source.Keys
    ensures forall k :: k in target && target[k] != Prim(Undefined) ==> m[k] == target[k]
    ensures forall k :: k in source && (k !in target || target[k] == Prim(Undefined)) ==> m[k] == source[k]
    ensures forall k :: k in target && k !in source ==> m[k] == target[k]
  {
    map k | k in target.Keys + source.Keys ::
      if k in source && (k !in target || target[k] == Prim(Undefined)) then source[k] else target[k]
  }

  /** Applying the defaults a second time changes nothing. */
  lemma DefaultsIdempotent(target: map<string, Value>)
    ensures Defaults(Defaults(target, DefaultS3Credentials()), DefaultS3Credentials())
            == Defaults(target, DefaultS3Credentials())
  {
    var once := Defaults(target, DefaultS3Credentials());
    var twice := Defaults(once, DefaultS3Credentials());
    assert forall k :: k in DefaultS3Credentials() ==> DefaultS3Credentials()[k] != Prim(Undefined);
    assert twice.Keys == once.Keys;
    forall k | k in once ensures twice[k] == once[k] {
    }
  }

  /** The defaults never touch the credentials that validation looks at. */
  lemma DefaultsKeepCredentials(target: map<string, Value>, bucket: Value)
    ensures ValidateS3Credentials(Some(Defaults(target, DefaultS3Credentials())), bucket)
            == ValidateS3Credentials(Some(target), bucket)
  {
    var m := Defaults(target, DefaultS3Credentials());
    assert forall name :: name in {"accessKeyId", "secretAccessKey", "region"} ==>
      Get(Some(m), name) == Get(Some(target), name);
  }

  /** The caller's `s3Credentials` object, which `_.defaults` updates in place. */
  class Credentials {
    var props: map<string, Value>

    constructor (props: map<string, Value>)
      ensures this.props == props
    {
      this.props := props;
    }
  }

  /** The properties of a credentials argument; `null` reads as no object. */
  function PropsOf(creds: Credentials?): Option<map<string, Value>>
    reads creds
  {
    if creds == null then None else Some(creds.props)
  }

  /** Why `putFileOnS3` or `getFileFromS3` fails. */
  datatype S3Error = Invalid(error: ConfigError) | TransportFailed(reason: Value)

  /** What `putFileOnS3` hands to the upload stream. */
  datatype UploadRequest = UploadRequest(bucket: Value, key: Value, contentType: Value, credentials: map<string, Value>)

  /** What `putFileOnS3` resolves with. */
  datatype Uploaded = Uploaded(bucket: Value, key: Value)

  /** What `getFileFromS3` hands to the download stream. */
  datatype DownloadRequest = DownloadRequest(bucket: Value, key: Value, concurrency: nat, credentials: map<string, Value>)

  /** The default of `contentType`, used when it is `undefined`; any other value is kept, even a falsy one. */
  function ContentTypeOrDefault(contentType: Value): (r: Value)
    ensures contentType == Prim(Undefined) ==> r == Prim(Str("text/plain"))
    ensures contentType != Prim(Undefined) ==> r == contentType
  {
    if contentType == Prim(Undefined) then Prim(Str("text/plain")) else contentType
  }

  /**
   * `putFileOnS3`: validate, fill in the credential defaults, start the
   * upload. `uploadError` is what the upload reports to its callback; the
   * promise rejects when it is truthy and otherwise resolves with the
   * bucket and the key.
   */
  method PutFileOnS3(creds: Credentials?, bucket: Value, key: Value, contentType: Value, uploadError: Value)
    returns (r: Result<Uploaded, S3Error>, started: Option<UploadRequest>)
    modifies creds
    ensures var check := ValidateS3Credentials(old(PropsOf(creds)), bucket);
      && (check.Some? ==> r == Failure(Invalid(check.value)) && started.None? && PropsOf(creds) == old(PropsOf(creds)))
      && (check.None? ==>
          && creds != null
          && creds.props == Defaults(old(creds.props), DefaultS3Credentials())
          && started == Some(UploadRequest(bucket, key, ContentTypeOrDefault(contentType), creds.props))
          && r == (if Truthy(uploadError) then Failure(TransportFailed(uploadError)) else Success(Uploaded(bucket, key))))
  {
    var check := ValidateS3Credentials(PropsOf(creds), bucket);
    if check.Some? {
      return Failure(Invalid(check.value)), None;
    }
    creds.props := Defaults(creds.props, DefaultS3Credentials());
    started := Some(UploadRequest(bucket, key, ContentTypeOrDefault(contentType), creds.props));
    if Truthy(uploadError) {
      r := Failure(TransportFailed(uploadError));
    } else {
      r := Success(Uploaded(bucket, key));
    }
  }

  /**
   * `getFileFromS3`: validate, fill in the credential defaults, start the
   * download with six parallel parts. `downloadError` is the error the
   * download emits, if any; on `end` the promise resolves with `undefined`.
   */
  method GetFileFromS3(creds: Credentials?, bucket: Value, key: Value, downloadError: Option<Value>)
    returns (r: Result<Value, S3Error>, started: Option<DownloadRequest>)
    modifies creds
    ensures var check := ValidateS3Credentials(old(PropsOf(creds)), bucket);
      && (check.Some? ==> r == Failure(Invalid(check.value)) && started.None? && PropsOf(creds) == old(PropsOf(creds)))
      && (check.None? ==>
          && creds != null
          && creds.props == Defaults(old(creds.props), DefaultS3Credentials())
          && started == Some(DownloadRequest(bucket, key, 6, creds.props))
          && r == (if downloadError.Some? then Failure(TransportFailed(downloadError.value)) else Success(Prim(Undefined))))
  {
    var check := ValidateS3Credentials(PropsOf(creds), bucket);
    if check.Some? {
      return Failure(Invalid(check.value)), None;
    }
    creds.props := Defaults(creds.props, DefaultS3Credentials());
    started := Some(DownloadRequest(bucket, key, 6, creds.props));
    if downloadError.Some? {
      r := Failure(TransportFailed(downloadError.value));
    } else {
      r := Success(Prim(Undefined));
    }
  }
}
