/**
 * The decisions of `src/handlers/backblaze_handler.py`: the constructor's check of its
 * credentials, the public URL of a stored file, the MIME type chosen from a file name,
 * the upload-parameter check, and the early exits of `upload_image` and `get_file_url`.
 * The S3 service is an oracle: each call that reaches it is recorded, and its answer is
 * a parameter.
 */
module BackblazeHandler {
  import opened Base
  import opened Strings
  import opened Urls

  type byte = x: int | 0 <= x < 256

  const DefaultRegion: string := "us-east-005"
  const MimeJpeg: string := "image/jpeg"
  const MimePng: string := "image/png"
  const MimeDefault: string := "application/octet-stream"

  /** A configured handler: the values the constructor keeps. */
  datatype Handler = Handler(keyId: string, applicationKey: string, bucketName: string,
                             regionName: string, endpointUrl: string)

  /** An environment value is truthy when it is set and not empty. */
  predicate Present(v: Option<string>) { v.Some? && v.value != [] }

  /** The names of the falsy parameters, in the order key_id, application_key, bucket_name. */
  function MissingParameters(keyId: Option<string>, applicationKey: Option<string>,
                             bucketName: Option<string>): (missing: seq<string>)
    ensures |missing| <= 3
    ensures "key_id" in missing <==> !Present(keyId)
    ensures "application_key" in missing <==> !Present(applicationKey)
    ensures "bucket_name" in missing <==> !Present(bucketName)
  {
    (if Present(keyId) then [] else ["key_id"]) +
    (if Present(applicationKey) then [] else ["application_key"]) +
    (if Present(bucketName) then [] else ["bucket_name"])
  }

  /** The names come out in declaration order: key_id before application_key before bucket_name. */
  lemma MissingInOrder(keyId: Option<string>, applicationKey: Option<string>, bucketName: Option<string>)
    ensures var m := MissingParameters(keyId, applicationKey, bucketName);
            (!Present(keyId) ==> m[0] == "key_id") &&
            (!Present(bucketName) ==> m[|m| - 1] == "bucket_name") &&
            (!Present(keyId) && !Present(applicationKey) ==> m[1] == "application_key")
  {
  }

  /** `__init__`: a `ValueError` naming the missing parameters, or the configured handler.
      The region falls back to `us-east-005` only when the variable is unset. */
  function NewHandler(keyId: Option<string>, applicationKey: Option<string>,
                      regionEnv: Option<string>, bucketName: Option<string>): (r: Result<Handler, string>)
    ensures r.Err? <==> MissingParameters(keyId, applicationKey, bucketName) != []
    ensures r.Err? ==> r.error == "Missing required parameters: " +
                                   Join(MissingParameters(keyId, applicationKey, bucketName), ", ")
    ensures r.Ok? ==> r.value.keyId == keyId.value && r.value.applicationKey == applicationKey.value &&
                      r.value.bucketName == bucketName.value && r.value.bucketName != [] &&
                      r.value.regionName == GetOr(regionEnv, DefaultRegion) &&
                      r.value.endpointUrl == "https://s3." + r.value.regionName + ".backblazeb2.com"
  {
    var missing := MissingParameters(keyId, applicationKey, bucketName);
    if missing != [] then Err("Missing required parameters: " + Join(missing, ", "))
    else
      var region := GetOr(regionEnv, DefaultRegion);
      Ok(Handler(keyId.value, applicationKey.value, bucketName.value, region,
                 "https://s3." + region + ".backblazeb2.com"))
  }

  /** A constructed handler has all three credentials. */
  lemma NewHandlerComplete(keyId: Option<string>, applicationKey: Option<string>,
                           regionEnv: Option<string>, bucketName: Option<string>)
    ensures NewHandler(keyId, applicationKey, regionEnv, bucketName).Ok? <==>
            Present(keyId) && Present(applicationKey) && Present(bucketName)
  {
  }

  /** The bucket's virtual host, `{bucket}.s3.{region}.backblazeb2.com`. */
  function BucketHost(h: Handler): string {
    h.bucketName + ".s3." + h.regionName + ".backblazeb2.com"
  }

  /** `_generate_public_url`. */
  function PublicUrl(h: Handler, fileKey: string): string {
    "https://" + BucketHost(h) + "/" + fileKey
  }

  /** The public URL is a valid URL on the bucket's virtual host, and the key is its path. */
  lemma PublicUrlValid(h: Handler, fileKey: string)
    requires h.bucketName != [] && HostSafe(h.bucketName) && HostSafe(h.regionName)
    ensures var url := PublicUrl(h, fileKey);
            IsValidUrl(url) && Netloc(url) == BucketHost(h) && EndsWith(url, "/" + fileKey)
  {
    assert HostSafe(".s3.") by {
      forall i | 0 <= i < 4 ensures !IsNetlocEnd(".s3."[i]) {
        assert ".s3."[i] in ".s3";
      }
    }
    assert HostSafe(".backblazeb2.com") by {
      forall i | 0 <= i < |".backblazeb2.com"| ensures !IsNetlocEnd(".backblazeb2.com"[i]) {
        assert ".backblazeb2.com"[i] in ".backlzecom2";
      }
    }
    HostSafeConcat(h.bucketName, ".s3.");
    HostSafeConcat(h.bucketName + ".s3.", h.regionName);
    HostSafeConcat(h.bucketName + ".s3." + h.regionName, ".backblazeb2.com");
    var path := "/" + fileKey;
    HttpsUrl(BucketHost(h), path);
    var url := PublicUrl(h, fileKey);
    assert url == ("https://" + BucketHost(h)) + path;
    assert url[|url| - |path|..] == path;
  }

  /** Two keys give the same public URL only if they are the same key. */
  lemma PublicUrlInjective(h: Handler, k1: string, k2: string)
    requires PublicUrl(h, k1) == PublicUrl(h, k2)
    ensures k1 == k2
  {
    var p := "https://" + BucketHost(h) + "/";
    assert PublicUrl(h, k1) == p + k1 && PublicUrl(h, k2) == p + k2;
    assert k1 == (p + k1)[|p|..];
    assert k2 == (p + k2)[|p|..];
  }

  /** `_determine_mime_type`. */
  function MimeType(fileName: string): (mime: string)
    ensures mime in {MimeJpeg, MimePng, MimeDefault}
  {
    var lower := Lower(fileName);
    if EndsWith(lower, ".jpg") || EndsWith(lower, ".jpeg") then MimeJpeg
    else if EndsWith(lower, ".png") then MimePng
    else MimeDefault
  }

  /** The three cases of the MIME choice, each exactly. */
  lemma MimeTypeCases(fileName: string)
    ensures var lower := Lower(fileName);
            (MimeType(fileName) == MimeJpeg <==> EndsWith(lower, ".jpg") || EndsWith(lower, ".jpeg")) &&
            (MimeType(fileName) == MimePng <==>
               EndsWith(lower, ".png") && !EndsWith(lower, ".jpg") && !EndsWith(lower, ".jpeg")) &&
            (MimeType(fileName) == MimeDefault <==>
               !EndsWith(lower, ".jpg") && !EndsWith(lower, ".jpeg") && !EndsWith(lower, ".png"))
  {
  }

  /** The file names the image pipeline uploads, `ATC_<uuid>.jpg`, are sent as JPEG. */
  lemma GeneratedNamesAreJpeg(id: string)
    ensures MimeType("ATC_" + id + ".jpg") == MimeJpeg
  {
    var name := "ATC_" + id + ".jpg";
    var lower := Lower(name);
    assert lower[|lower| - 4..] == ".jpg" by {
      forall i | 0 <= i < 4 ensures lower[|lower| - 4 + i] == ".jpg"[i] {
        assert lower[|lower| - 4 + i] == LowerChar(name[|name| - 4 + i]);
      }
    }
  }

  /** `_validate_upload_parameters`. */
  predicate ValidUploadParameters(fileName: string, content: seq<byte>) {
    fileName != [] && content != []
  }

  /** The request `upload_image` sends to the bucket. */
  datatype PutObject = PutObject(bucket: string, key: string, body: seq<byte>, acl: string, contentType: string)

  /** How storage treated an upload: creating the S3 client raised (nothing is sent), the
      `put_object` raised, or it was accepted. */
  datatype StoreAnswer = ClientFailed | Refused | Accepted

  /** `upload_image`: invalid parameters return `None` without contacting storage; otherwise,
      once the client exists, one `put_object` is sent, and the public URL comes back when the
      store accepts it. Every raise inside the `try` is swallowed into `None`. */
  function UploadImage(h: Handler, fileName: string, content: seq<byte>, acl: string, store: StoreAnswer)
    : (r: (Option<string>, Option<PutObject>))
    ensures !ValidUploadParameters(fileName, content) ==> r.0.None? && r.1.None?
    ensures store == ClientFailed ==> r.1.None?
    ensures ValidUploadParameters(fileName, content) && store != ClientFailed ==>
              r.1 == Some(PutObject(h.bucketName, fileName, content, acl, MimeType(fileName)))
    ensures r.0.Some? <==> ValidUploadParameters(fileName, content) && store == Accepted
    ensures r.0.Some? ==> r.0.value == PublicUrl(h, fileName)
  {
    if !ValidUploadParameters(fileName, content) || store == ClientFailed then (None, None)
    else
      var request := PutObject(h.bucketName, fileName, content, acl, MimeType(fileName));
      (if store == Accepted then Some(PublicUrl(h, fileName)) else None, Some(request))
  }

  /** What `head_object` answered. */
  datatype HeadAnswer = Found | NoSuchKey | Failed

  /** `get_file_url`: a key that is already a valid URL comes back unchanged with no storage call;
      otherwise the key's public URL is returned when `head_object` finds it. The second
      component says whether storage was contacted. */
  function GetFileUrl(h: Handler, fileKey: string, head: HeadAnswer): (r: (Option<string>, bool))
    ensures IsValidUrl(fileKey) ==> r == (Some(fileKey), false)
    ensures !IsValidUrl(fileKey) ==> r.1 && (r.0.Some? <==> head == Found)
    ensures !IsValidUrl(fileKey) && r.0.Some? ==> r.0.value == PublicUrl(h, fileKey)
  {
    if IsValidUrl(fileKey) then (Some(fileKey), false)
    else if head == Found then (Some(PublicUrl(h, fileKey)), true)
    else (None, true)
  }

  /** Resolving a URL the handler produced is a fixed point: it comes back unchanged. */
  lemma GetFileUrlOfPublicUrl(h: Handler, fileKey: string, head: HeadAnswer)
    requires h.bucketName != [] && HostSafe(h.bucketName) && HostSafe(h.regionName)
    ensures GetFileUrl(h, PublicUrl(h, fileKey), head) == (Some(PublicUrl(h, fileKey)), false)
  {
    PublicUrlValid(h, fileKey);
  }
}
