/**
 * The image uploader: how it builds the API address from the configured base, the order in
 * which it checks the upload's reply, where the image address comes from (the reply, a
 * lookup, or the CDN fallback), and the state `uploadImage` and `handleRemoveImage` leave
 * behind. The environment variable, the network replies and the callbacks are inputs; the
 * callbacks' calls are recorded in the order they happen.
 */
module ImageUploader {
  import opened Wrappers
  import Strings

  /** The base `uploadImage` falls back to. */
  const DefaultBase := "http://localhost:3000"

  /** The base `handleRemoveImage` falls back to. */
  const DefaultDeleteBase := "http://localhost:3000/api"

  /** Where the fallback image addresses live. */
  const CdnPrefix := "https://res.cloudinary.com/dtlh7gy1p/image/upload/"

  /** `process.env.NEXT_PUBLIC_API_URL || "http://localhost:3000"` */
  function BaseUrl(env: Option<string>): string {
    if Strings.Truthy(env) then env.value else DefaultBase
  }

  /** `cleanBaseUrl`: one trailing slash is dropped, and no more. */
  function CleanBaseUrl(base: string): (clean: string)
    ensures Strings.EndsWith(base, "/") ==> clean + "/" == base
    ensures !Strings.EndsWith(base, "/") ==> clean == base
  {
    if Strings.EndsWith(base, "/") then base[..|base| - 1] else base
  }

  /** `apiUrl`: `/api` is added only when it occurs nowhere in the cleaned base. */
  function ApiUrl(clean: string): (api: string)
    ensures Strings.Includes(api, "/api")
    ensures Strings.Includes(clean, "/api") ==> api == clean
    ensures !Strings.Includes(clean, "/api") ==> api == clean + "/api"
  {
    if Strings.Includes(clean, "/api") then clean
    else
      Strings.IncludesSuffix(clean, "/api");
      clean + "/api"
  }

  /** The API address `uploadImage` works with. */
  function UploadApiUrl(env: Option<string>): string {
    ApiUrl(CleanBaseUrl(BaseUrl(env)))
  }

  /** Normalising an address that does not end in two slashes yields one without a trailing slash. */
  lemma {:induction false} NormalisedHasNoTrailingSlash(base: string)
    requires !Strings.EndsWith(base, "//")
    ensures !Strings.EndsWith(ApiUrl(CleanBaseUrl(base)), "/")
  {
    var clean := CleanBaseUrl(base);
    if !Strings.Includes(clean, "/api") {
      assert (clean + "/api")[|clean + "/api"| - 1] == 'i';
    }
  }

  /** The normalisation is idempotent on addresses that do not end in two slashes. */
  lemma {:induction false} NormaliseIdempotent(base: string)
    requires !Strings.EndsWith(base, "//")
    ensures ApiUrl(CleanBaseUrl(ApiUrl(CleanBaseUrl(base)))) == ApiUrl(CleanBaseUrl(base))
  {
    NormalisedHasNoTrailingSlash(base);
  }

  /** "/api" is searched anywhere, so a host whose name begins with "api" keeps the address without an `/api` path. */
  lemma HostNamedApi()
    ensures ApiUrl(CleanBaseUrl("https://api.shop")) == "https://api.shop"
  {
    var s := "https://api.shop";
    assert !Strings.EndsWith(s, "/");
    assert Strings.OccursAt(s, "/api", 7);
    Strings.IncludesAt(s, "/api");
  }

  /** A string lacking one of the characters of `sub` does not include `sub`. */
  lemma {:induction false} NotIncludedWithoutChar(s: string, sub: string, c: char)
    requires c in sub && c !in s
    ensures !Strings.Includes(s, sub)
    decreases |s|
  {
    if s != [] {
      NotIncludedWithoutChar(s[1..], sub, c);
    }
  }

  /** A base without a trailing slash and without an `i` gets `/api` appended. */
  lemma {:induction false} ApiAppended(base: string)
    requires !Strings.EndsWith(base, "/") && 'i' !in base
    ensures ApiUrl(CleanBaseUrl(base)) == base + "/api"
  {
    NotIncludedWithoutChar(base, "/api", 'i');
  }

  /** Without the environment variable `uploadImage` appends `/api` to its default base. */
  lemma DefaultUploadBase()
    ensures UploadApiUrl(None) == DefaultBase + "/api"
  {
    assert DefaultBase[|DefaultBase| - 1] == '0';
    assert 'i' !in DefaultBase;
    ApiAppended(DefaultBase);
  }

  /** Without the environment variable both handlers talk to `http://localhost:3000/api`. */
  lemma DefaultBasesAgree()
    ensures UploadApiUrl(None) == DeleteApiUrl(None) == DefaultDeleteBase
  {
    DefaultUploadBase();
    DeleteBaseExtendsUploadBase();
  }

  /** The delete handler's default is the upload handler's default followed by `/api`. */
  lemma DeleteBaseExtendsUploadBase()
    ensures DefaultBase + "/api" == DefaultDeleteBase
  {
  }

  /** With the environment variable set to a bare host, the two handlers talk to different addresses. */
  lemma ConfiguredBasesDiffer()
    ensures UploadApiUrl(Some("http://h")) == "http://h/api"
    ensures DeleteApiUrl(Some("http://h")) == "http://h"
  {
    var h := "http://h";
    assert h[|h| - 1] == 'h';
    assert 'i' !in h;
    ApiAppended(h);
  }

  /** The upload endpoint. */
  function UploadUrl(api: string): string {
    api + "/files/upload"
  }

  /** The endpoint that looks up the address of an uploaded file. */
  function LookupUrl(api: string, fileKey: string): string {
    api + "/files/url/" + fileKey
  }

  /** The address built by hand when the lookup fails. */
  function FallbackUrl(fileKey: string): string {
    CdnPrefix + fileKey
  }

  /**
   * The two requests of an upload go to different endpoints, and the lookup's address names
   * its file key: two keys never share a lookup address.
   */
  lemma LookupUrlDistinct(api: string, fileKey: string, otherKey: string)
    ensures LookupUrl(api, fileKey) != UploadUrl(api)
    ensures LookupUrl(api, fileKey) == LookupUrl(api, otherKey) ==> fileKey == otherKey
  {
    var lookup, upload := LookupUrl(api, fileKey), UploadUrl(api);
    assert lookup[|api| + 8] == 'r' && upload[|api| + 8] == 'p';
    if lookup == LookupUrl(api, otherKey) {
      var n := |api + "/files/url/"|;
      assert fileKey == lookup[n..] == LookupUrl(api, otherKey)[n..] == otherKey;
    }
  }

  /** `process.env.NEXT_PUBLIC_API_URL || "http://localhost:3000/api"`, used as it is. */
  function DeleteApiUrl(env: Option<string>): string {
    if Strings.Truthy(env) then env.value else DefaultDeleteBase
  }

  function DeleteUrl(env: Option<string>, imageKey: string): string {
    DeleteApiUrl(env) + "/files/" + imageKey
  }

  /** The parsed body of the upload's reply: the fields the uploader reads. */
  datatype UploadData = UploadData(fileKey: Option<string>, url: Option<string>)

  /**
   * The upload request: it threw (with an `Error`'s message, or something else), or it got a
   * reply whose text parsed as JSON or not.
   */
  datatype UploadReply =
    | UploadThrew(message: Option<string>)
    | Replied(body: string, data: Option<UploadData>, ok: bool, status: nat, statusText: string)

  /** The lookup request: it threw, it was refused, or it answered with maybe a `url`. */
  datatype LookupReply = LookupThrew | LookupRefused | LookupAnswered(url: Option<string>)

  const FormatErrorPrefix := "Error en formato de respuesta: "
  const UploadErrorPrefix := "Error al subir imagen: "
  const DeleteErrorPrefix := "Failed to delete image: "
  const DeleteErrorText := "Failed to delete image"
  const NoFileKeyText := "No se recibió fileKey en la respuesta"
  const NoUrlText := "No se pudo obtener la URL de la imagen"
  const UnknownUploadErrorText := "Error desconocido al subir imagen"

  /** The message of what an upload threw, or the text used when it was not an `Error`. */
  function ThrownMessage(message: Option<string>, fallback: string): string {
    if message.Some? then message.value else fallback
  }

  datatype Uploaded = Uploaded(url: string, fileKey: string)

  /** The address obtained by the lookup; only an answer can lack one. */
  function LookedUp(lookup: LookupReply, fileKey: string): (url: string)
    ensures lookup.LookupAnswered? ==> (url == "" <==> !Strings.Truthy(lookup.url))
    ensures lookup.LookupAnswered? && Strings.Truthy(lookup.url) ==> url == lookup.url.value
    ensures !lookup.LookupAnswered? ==> url == FallbackUrl(fileKey)
  {
    match lookup
    case LookupThrew => FallbackUrl(fileKey)
    case LookupRefused => FallbackUrl(fileKey)
    case LookupAnswered(url) => if Strings.Truthy(url) then url.value else ""
  }

  /** Whether the reply gets as far as a usable file key. */
  predicate HasFileKey(reply: UploadReply) {
    reply.Replied? && reply.data.Some? && reply.ok && Strings.Truthy(reply.data.value.fileKey)
  }

  /** The outcome of `uploadImage`'s `try` block: the uploaded image, or the message of what it threw. */
  function UploadOutcome(reply: UploadReply, lookup: LookupReply): Result<Uploaded, string>
  {
    match reply
    case UploadThrew(message) => Failure(ThrownMessage(message, UnknownUploadErrorText))
    case Replied(body, data, ok, status, statusText) =>
      if data.None? then Failure(FormatErrorPrefix + body)
      else if !ok then Failure(UploadErrorPrefix + Strings.NatToString(status) + " " + statusText)
      else if !Strings.Truthy(data.value.fileKey) then Failure(NoFileKeyText)
      else
        var key := data.value.fileKey.value;
        var url := if Strings.Truthy(data.value.url) then data.value.url.value else LookedUp(lookup, key);
        if url == "" then Failure(NoUrlText) else Success(Uploaded(url, key))
  }

  /**
   * The checks of `uploadImage` come in order: a reply that is not JSON fails before its
   * status is looked at, a refused upload fails before the file key is, and a missing file
   * key fails before any address is sought. The address is the reply's own when it has
   * one, otherwise the lookup's (or the fallback when the lookup fails); only an empty
   * address can fail an upload that got that far.
   */
  lemma UploadOutcomeOrder(reply: UploadReply, lookup: LookupReply)
    ensures var r := UploadOutcome(reply, lookup);
      && (reply.UploadThrew? ==> r == Failure(ThrownMessage(reply.message, UnknownUploadErrorText)))
      && (reply.Replied? && reply.data.None? ==> r == Failure(FormatErrorPrefix + reply.body))
      && (reply.Replied? && reply.data.Some? && !reply.ok ==>
            r == Failure(UploadErrorPrefix + Strings.NatToString(reply.status) + " " + reply.statusText))
      && (reply.Replied? && reply.data.Some? && reply.ok && !Strings.Truthy(reply.data.value.fileKey) ==>
            r == Failure(NoFileKeyText))
      && (r.Success? <==>
            HasFileKey(reply)
            && (Strings.Truthy(reply.data.value.url) || LookedUp(lookup, reply.data.value.fileKey.value) != ""))
      && (r.Success? ==> r.value.fileKey == reply.data.value.fileKey.value && r.value.url != "")
      && (r.Success? && Strings.Truthy(reply.data.value.url) ==> r.value.url == reply.data.value.url.value)
      && (r.Success? && !Strings.Truthy(reply.data.value.url) ==> r.value.url == LookedUp(lookup, r.value.fileKey))
      && (HasFileKey(reply) && r.Failure? ==> r.error == NoUrlText)
  {
  }

  /**
   * A lookup that throws or is refused never fails the upload: the fallback it falls back to
   * is the CDN prefix followed by the key, which is never empty.
   */
  lemma FailedLookupFallsBack(reply: UploadReply, lookup: LookupReply)
    requires HasFileKey(reply) && !Strings.Truthy(reply.data.value.url) && !lookup.LookupAnswered?
    ensures var key := reply.data.value.fileKey.value;
      && UploadOutcome(reply, lookup) == Success(Uploaded(FallbackUrl(key), key))
      && Strings.StartsWith(FallbackUrl(key), CdnPrefix)
      && FallbackUrl(key)[|CdnPrefix|..] == key
  {
    var key := reply.data.value.fileKey.value;
    assert |FallbackUrl(key)| >= |CdnPrefix| > 0;
  }

  /** The addresses `uploadImage` requests, in order: the upload, then the lookup if it is needed. */
  function UploadRequests(api: string, reply: UploadReply): seq<string> {
    if reply.UploadThrew? then [UploadUrl(api)]
    else if HasFileKey(reply) && !Strings.Truthy(reply.data.value.url) then
      [UploadUrl(api), LookupUrl(api, reply.data.value.fileKey.value)]
    else [UploadUrl(api)]
  }

  /**
   * The upload address is always requested first; the lookup address for the reply's file
   * key follows exactly when the reply has a file key but no address of its own.
   */
  lemma UploadRequestsOrder(api: string, reply: UploadReply)
    ensures var urls := UploadRequests(api, reply);
      && 1 <= |urls| <= 2 && urls[0] == UploadUrl(api)
      && (|urls| == 2 <==> HasFileKey(reply) && !Strings.Truthy(reply.data.value.url))
      && (|urls| == 2 ==> urls[1] == LookupUrl(api, reply.data.value.fileKey.value))
  {
  }

  /** The delete request: it threw (an `Error`'s message, or something else), was refused, or succeeded. */
  datatype DeleteReply = Deleted | DeleteRefused(status: nat, statusText: string) | DeleteThrew(message: Option<string>)

  /**
   * The image address of an accepted upload: the reply's own `url`, or else what a lookup
   * gives (the fallback when the lookup fails), together with the lookup requests made.
   */
  method ResolveImageUrl(api: string, fileKey: string, given: Option<string>, lookup: LookupReply)
    returns (imageUrl: string, requested: seq<string>)
    ensures imageUrl == if Strings.Truthy(given) then given.value else LookedUp(lookup, fileKey)
    ensures requested == if Strings.Truthy(given) then [] else [LookupUrl(api, fileKey)]
  {
    imageUrl := if given.Some? then given.value else "";
    requested := [];
    if imageUrl == "" {
      requested := [LookupUrl(api, fileKey)];
      match lookup {
        case LookupRefused => imageUrl := FallbackUrl(fileKey);
        case LookupAnswered(url) => imageUrl := if url.Some? then url.value else "";
        case LookupThrew => imageUrl := FallbackUrl(fileKey);
      }
    }
  }

  /**
   * The `try` block of `uploadImage`: the upload, the checks of its reply in order, and the
   * search for the image address. What it throws becomes a `Failure`.
   */
  method Upload(env: Option<string>, reply: UploadReply, lookup: LookupReply)
    returns (outcome: Result<Uploaded, string>, requested: seq<string>)
    ensures outcome == UploadOutcome(reply, lookup)
    ensures requested == UploadRequests(UploadApiUrl(env), reply)
  {
    var api := ApiUrl(CleanBaseUrl(BaseUrl(env)));
    outcome, requested := UploadTo(api, reply, lookup);
  }

  /** The rest of the `try` block, once the API address is known. */
  method UploadTo(api: string, reply: UploadReply, lookup: LookupReply)
    returns (outcome: Result<Uploaded, string>, requested: seq<string>)
    ensures outcome == UploadOutcome(reply, lookup)
    ensures requested == UploadRequests(api, reply)
  {
    requested := [UploadUrl(api)];
    match reply {
      case UploadThrew(message) =>
        return Failure(ThrownMessage(message, UnknownUploadErrorText)), requested;
      case Replied(body, data, ok, status, statusText) =>
        if data.None? {
          return Failure(FormatErrorPrefix + body), requested;
        }
        if !ok {
          return Failure(UploadErrorPrefix + Strings.NatToString(status) + " " + statusText), requested;
        }
        if !Strings.Truthy(data.value.fileKey) {
          return Failure(NoFileKeyText), requested;
        }
        var key := data.value.fileKey.value;
        var imageUrl, lookedUp := ResolveImageUrl(api, key, data.value.url, lookup);
        requested := requested + lookedUp;
        if imageUrl == "" {
          return Failure(NoUrlText), requested;
        }
        outcome := Success(Uploaded(imageUrl, key));
    }
  }

  /** The component's state, with the calls made to its two callbacks. */
  /** What the component shows and what its callbacks have been told, in order. */
  datatype Display = Display(
    image: Option<string>, imageKey: Option<string>, error: Option<string>,
    imageChanges: seq<string>, keyChanges: seq<string>)

  /** The display after an upload's outcome is recorded on `d`. */
  function Recorded(d: Display, outcome: Result<Uploaded, string>, hasKeyCallback: bool): Display {
    match outcome
    case Success(uploaded) =>
      Display(Some(uploaded.url), Some(uploaded.fileKey), d.error, d.imageChanges + [uploaded.url],
              d.keyChanges + (if hasKeyCallback then [uploaded.fileKey] else []))
    case Failure(message) => d.(error := Some(message))
  }

  /**
   * A successful upload shows the new image, keeps its key and tells `onImageChange` the
   * address and `onImageKeyChange` (when given) the key, leaving the error as it was; a
   * failed one records its message and changes nothing else.
   */
  lemma RecordedEffect(d: Display, outcome: Result<Uploaded, string>, hasKeyCallback: bool)
    ensures var r := Recorded(d, outcome, hasKeyCallback);
      && (outcome.Success? ==>
            && r.image == Some(outcome.value.url) && r.imageKey == Some(outcome.value.fileKey)
            && r.error == d.error
            && r.imageChanges == d.imageChanges + [outcome.value.url]
            && |r.keyChanges| == |d.keyChanges| + (if hasKeyCallback then 1 else 0)
            && r.keyChanges[..|d.keyChanges|] == d.keyChanges
            && (hasKeyCallback ==> r.keyChanges[|d.keyChanges|] == outcome.value.fileKey))
      && (outcome.Failure? ==>
            && r.error == Some(outcome.error)
            && r.image == d.image && r.imageKey == d.imageKey
            && r.imageChanges == d.imageChanges && r.keyChanges == d.keyChanges)
  {
  }

  class ImageUploaderState {
    var image: Option<string>
    var imageKey: Option<string>
    var isUploading: bool
    var error: Option<string>
    var showCropper: bool
    /** The arguments `onImageChange` was called with, in order. */
    var imageChanges: seq<string>
    /** The arguments `onImageKeyChange` was called with, in order. */
    var keyChanges: seq<string>
    /** Whether the optional `onImageKeyChange` was given. */
    const hasKeyCallback: bool

    constructor(initialImage: Option<string>, hasKeyCallback: bool)
      ensures image == (if Strings.Truthy(initialImage) then initialImage else None)
      ensures imageKey == None && !isUploading && error == None && !showCropper
      ensures imageChanges == [] && keyChanges == [] && this.hasKeyCallback == hasKeyCallback
    {
      image := if Strings.Truthy(initialImage) then initialImage else None;
      imageKey, isUploading, error, showCropper := None, false, None, false;
      imageChanges, keyChanges := [], [];
      this.hasKeyCallback := hasKeyCallback;
    }

    /** The fields an upload can change, besides the two flags. */
    function Shown(): Display
      reads this
    {
      Display(image, imageKey, error, imageChanges, keyChanges)
    }

    /**
     * `uploadImage`, given the environment variable and the two replies. The display after it
     * is the upload's outcome recorded on the display it started from with the error cleared
     * (see `RecordedEffect`); either way uploading ends and the cropper closes. The `try`
     * block is taken through `UploadOutcome` and `UploadRequests`, which `Upload` is proved
     * to compute step by step.
     */
    method UploadImage(env: Option<string>, reply: UploadReply, lookup: LookupReply) returns (requested: seq<string>)
      modifies this
      ensures requested == UploadRequests(UploadApiUrl(env), reply)
      ensures !isUploading && !showCropper
      ensures Shown() == Recorded(old(Shown()).(error := None), UploadOutcome(reply, lookup), hasKeyCallback)
    {
      isUploading := true;
      error := None;
      var outcome := UploadOutcome(reply, lookup);
      requested := UploadRequests(UploadApiUrl(env), reply);
      Record(outcome);
      isUploading := false;
      showCropper := false;
    }

    /** What `uploadImage` does with the outcome of its `try` block before the `finally`. */
    method Record(outcome: Result<Uploaded, string>)
      modifies this
      ensures isUploading == old(isUploading) && showCropper == old(showCropper)
      ensures Shown() == Recorded(old(Shown()), outcome, hasKeyCallback)
    {
      match outcome {
        case Success(uploaded) =>
          image := Some(uploaded.url);
          imageKey := Some(uploaded.fileKey);
          imageChanges := imageChanges + [uploaded.url];
          if hasKeyCallback {
            keyChanges := keyChanges + [uploaded.fileKey];
          }
        case Failure(message) =>
          error := Some(message);
      }
    }

    /**
     * `handleRemoveImage`, given the environment variable and the delete's reply. Without a
     * key the image is cleared locally and no request is made; with one, a successful delete
     * clears the image and its key and tells both callbacks, a failed one records its message.
     */
    method RemoveImage(env: Option<string>, reply: DeleteReply) returns (requested: seq<string>)
      modifies this
      ensures isUploading == old(isUploading) && showCropper == old(showCropper)
      ensures !Strings.Truthy(old(imageKey)) ==>
        && requested == [] && image == None && imageKey == old(imageKey) && error == old(error)
        && imageChanges == old(imageChanges) + [""] && keyChanges == old(keyChanges)
      ensures Strings.Truthy(old(imageKey)) ==> requested == [DeleteUrl(env, old(imageKey).value)]
      ensures Strings.Truthy(old(imageKey)) && reply.Deleted? ==>
        && image == None && imageKey == None && error == old(error)
        && imageChanges == old(imageChanges) + [""]
        && keyChanges == old(keyChanges) + (if hasKeyCallback then [""] else [])
      ensures Strings.Truthy(old(imageKey)) && !reply.Deleted? ==>
        && image == old(image) && imageKey == old(imageKey)
        && imageChanges == old(imageChanges) && keyChanges == old(keyChanges)
        && error == Some(if reply.DeleteRefused?
                         then DeleteErrorPrefix + Strings.NatToString(reply.status) + " " + reply.statusText
                         else ThrownMessage(reply.message, DeleteErrorText))
    {
      if !Strings.Truthy(imageKey) {
        image := None;
        imageChanges := imageChanges + [""];
        return [];
      }
      requested := [DeleteUrl(env, imageKey.value)];
      match reply {
        case DeleteRefused(status, statusText) =>
          error := Some(DeleteErrorPrefix + Strings.NatToString(status) + " " + statusText);
        case DeleteThrew(message) =>
          error := Some(ThrownMessage(message, DeleteErrorText));
        case Deleted =>
          image := None;
          imageKey := None;
          imageChanges := imageChanges + [""];
          if hasKeyCallback {
            keyChanges := keyChanges + [""];
          }
      }
    }
  }
}
