/** The image-editing demo: upload an image, describe an edit, and show the edited image the
    generative model sends back, with an in-memory cache of earlier results. */
module ImageEditor {
  import opened Js

  const MissingInputError: string := "Please upload an image and provide an editing prompt."
  const MissingApiKeyError: string := "API Key is not configured. Please contact the site owner."
  const NoImageError: string := "No image was generated. The model may not have been able to fulfill the request."
  const UnknownError: string := "An unknown error occurred while generating the image."

  /** How many characters of the uploaded image's data URL the cache key keeps. */
  const KeyPrefixLength: nat := 100

  /** What the call to the image model ends with: the first part of the first candidate
      carries inline image data, or it does not, or the call throws an `Error` (with its
      message) or some other value. */
  datatype ModelOutcome = InlineImage(data: string) | NoInlineImage | Thrown(message: string) | ThrownNonError

  /** The cache key: the first 100 characters of the image's data URL, a bar, the prompt. */
  function CacheKey(image: string, prompt: string): (key: string)
    ensures |image| <= KeyPrefixLength ==> key == image + "|" + prompt
    ensures |image| > KeyPrefixLength ==> key == image[..KeyPrefixLength] + "|" + prompt
  {
    Substring(image, 0, KeyPrefixLength) + "|" + prompt
  }

  /** Two uploads that agree on their first 100 characters share a cache entry for every
      prompt, whatever follows. */
  lemma SharedPrefixSharesKey(image1: string, image2: string, prompt: string)
    requires |image1| >= KeyPrefixLength && |image2| >= KeyPrefixLength
    requires image1[..KeyPrefixLength] == image2[..KeyPrefixLength]
    ensures CacheKey(image1, prompt) == CacheKey(image2, prompt)
  {
  }

  /** Different prompts for the same image never share a cache entry. */
  lemma {:induction false} KeySeparatesPrompts(image: string, prompt1: string, prompt2: string)
    requires CacheKey(image, prompt1) == CacheKey(image, prompt2)
    ensures prompt1 == prompt2
  {
    var head := Substring(image, 0, KeyPrefixLength) + "|";
    assert CacheKey(image, prompt1) == head + prompt1;
    assert CacheKey(image, prompt2) == head + prompt2;
    assert prompt1 == (head + prompt1)[|head|..];
  }

  /** The data URL of section 3 of RFC 2397, with base64 encoding: `data:<mime>;base64,<data>`. */
  function DataUrl(mime: string, data: string): string
  {
    "data:" + mime + ";base64," + data
  }

  /** The text before the first `c` in `s` and the text from that `c` on, if there is one. */
  function SplitAtFirst(s: string, c: char): (r: Option<(string, string)>)
    ensures r.None? <==> c !in s
    ensures r.Some? ==> r.value.0 + r.value.1 == s && c !in r.value.0 && r.value.1[0] == c
    decreases |s|
  {
    if s == [] then None
    else if s[0] == c then Some(([], s))
    else
      match SplitAtFirst(s[1..], c)
      case None => None
      case Some((before, after)) =>
        assert s == [s[0]] + s[1..];
        Some(([s[0]] + before, after))
  }

  /** Reads a base64 data URL back into its media type and its payload. */
  function ParseDataUrl(url: string): (r: Option<(string, string)>)
    ensures r.Some? ==> url == DataUrl(r.value.0, r.value.1)
  {
    if |url| < 5 || url[..5] != "data:" then None
    else
      match SplitAtFirst(url[5..], ';')
      case None => None
      case Some((mime, rest)) =>
        if |rest| < 8 || rest[..8] != ";base64," then None
        else
          DataUrlOfParts(url, mime, rest);
          Some((mime, rest[8..]))
  }

  /** A URL cut into its scheme, its media type and a `;base64,` tail is the data URL of
      that media type and the rest of the tail. */
  lemma DataUrlOfParts(url: string, mime: string, rest: string)
    requires |url| >= 5 && url[..5] == "data:" && url[5..] == mime + rest
    requires |rest| >= 8 && rest[..8] == ";base64,"
    ensures url == DataUrl(mime, rest[8..])
  {
    assert rest == ";base64," + rest[8..];
    assert url == url[..5] + url[5..];
  }

  /** The splitting point of `before + after` is the first `c` when `before` has none and
      `after` starts with one. */
  lemma {:induction false} SplitAtFirstOfJoin(before: string, after: string, c: char)
    requires c !in before && after != [] && after[0] == c
    ensures SplitAtFirst(before + after, c) == Some((before, after))
    decreases |before|
  {
    var s := before + after;
    if before != [] {
      assert s[0] == before[0] != c;
      assert s[1..] == before[1..] + after;
      SplitAtFirstOfJoin(before[1..], after, c);
      assert [before[0]] + before[1..] == before;
    } else {
      assert s == after;
    }
  }

  /** The URL the editor builds reads back as the media type and the payload it was built
      from, whenever the media type has no parameters. */
  lemma DataUrlRoundTrip(mime: string, data: string)
    requires ';' !in mime
    ensures ParseDataUrl(DataUrl(mime, data)) == Some((mime, data))
  {
    var url := DataUrl(mime, data);
    assert url[..5] == "data:";
    assert url[5..] == mime + (";base64," + data);
    SplitAtFirstOfJoin(mime, ";base64," + data, ';');
    assert (";base64," + data)[8..] == data;
  }

  /** A string built as a base64 data URL. */
  ghost predicate IsDataUrl(s: string)
  {
    exists mime: string, data: string :: s == DataUrl(mime, data)
  }

  /** The module-level `cache` map; one instance is shared by every editor. */
  class ResponseCache {
    var entries: map<string, string>

    /** Every stored value is an image URL the editor built. */
    ghost predicate Valid()
      reads this
    {
      forall key :: key in entries ==> IsDataUrl(entries[key])
    }

    constructor ()
      ensures entries == map[] && Valid()
    {
      entries := map[];
    }
  }

  /** An uploaded file, of which the editor reads only the media type. */
  datatype UploadedFile = UploadedFile(mimeType: string)

  /** The component's state, and the cache it shares. */
  class Editor {
    var originalImage: Option<string>
    var editedImage: Option<string>
    var prompt: string
    var isLoading: bool
    var error: Option<string>
    var originalMimeType: string
    const cache: ResponseCache

    /** The edited image shown is always an image URL the editor built, and so is every
        cached value. */
    ghost predicate Valid()
      reads this, cache
    {
      (editedImage.Some? ==> IsDataUrl(editedImage.value)) && cache.Valid()
    }

    constructor (cache: ResponseCache)
      requires cache.Valid()
      ensures Valid() && this.cache == cache
      ensures originalImage.None? && editedImage.None? && prompt == "" && !isLoading
      ensures error.None? && originalMimeType == ""
    {
      this.cache := cache;
      originalImage, editedImage, prompt, isLoading := None, None, "", false;
      error, originalMimeType := None, "";
    }

    /** `handleImageUpload`: choosing a file clears the previous result and error and records
        the file's media type; choosing nothing changes nothing. The file's contents arrive
        later, through `ImageRead`. */
    method HandleImageUpload(file: Option<UploadedFile>)
      requires Valid()
      modifies this
      ensures Valid()
      ensures file.Some? ==> editedImage.None? && error.None? && originalMimeType == file.value.mimeType
      ensures file.None? ==>
        editedImage == old(editedImage) && error == old(error) && originalMimeType == old(originalMimeType)
      ensures originalImage == old(originalImage) && prompt == old(prompt) && isLoading == old(isLoading)
    {
      if file.Some? {
        editedImage := None;
        error := None;
        originalMimeType := file.value.mimeType;
      }
    }

    /** The file reader's `onloadend`: its result (a data URL, or `null` on failure) becomes
        the original image. */
    method ImageRead(result: Option<string>)
      requires Valid()
      modifies this`originalImage
      ensures Valid() && originalImage == result
    {
      originalImage := result;
    }

    /** Typing in the prompt box. */
    method SetPrompt(text: string)
      requires Valid()
      modifies this`prompt
      ensures Valid() && prompt == text
    {
      prompt := text;
    }

    /** `generateImage`, with the API key the site was built with (`""` when unset) and
        what the model call ends with. The input guards leave everything but `error` as it
        was; past them, the request ends not loading, with the cached or freshly built image
        or with an error, and only a fresh image adds a cache entry. */
    method GenerateImage(apiKey: string, outcome: ModelOutcome)
      requires Valid()
      modifies this, cache
      ensures Valid()
      ensures originalImage == old(originalImage) && prompt == old(prompt)
      ensures originalMimeType == old(originalMimeType)
      ensures forall key :: key in old(cache.entries) ==>
        key in cache.entries && cache.entries[key] == old(cache.entries)[key]
      ensures old(originalImage.None? || originalImage.value == "" || prompt == "") ==>
        error == Some(MissingInputError) && editedImage == old(editedImage) &&
        isLoading == old(isLoading) && cache.entries == old(cache.entries)
      ensures old(originalImage.Some? && originalImage.value != "" && prompt != "") && apiKey == "" ==>
        error == Some(MissingApiKeyError) && editedImage == old(editedImage) &&
        isLoading == old(isLoading) && cache.entries == old(cache.entries)
      ensures old(originalImage.Some? && originalImage.value != "" && prompt != "") && apiKey != "" ==>
        !isLoading &&
        var key := CacheKey(old(originalImage.value), old(prompt));
        if key in old(cache.entries) then
          editedImage == Some(old(cache.entries[key])) && error.None? && cache.entries == old(cache.entries)
        else
          match outcome
          case InlineImage(data) =>
            editedImage == Some(DataUrl(old(originalMimeType), data)) && error.None? &&
            cache.entries == old(cache.entries)[key := DataUrl(old(originalMimeType), data)]
          case NoInlineImage =>
            editedImage.None? && error == Some(NoImageError) && cache.entries == old(cache.entries)
          case Thrown(message) =>
            editedImage.None? && error == Some(message) && cache.entries == old(cache.entries)
          case ThrownNonError =>
            editedImage.None? && error == Some(UnknownError) && cache.entries == old(cache.entries)
    {
      if originalImage.None? || originalImage.value == "" || prompt == "" {
        error := Some(MissingInputError);
        return;
      }
      if apiKey == "" {
        error := Some(MissingApiKeyError);
        return;
      }
      isLoading := true;
      error := None;
      editedImage := None;

      var key := CacheKey(originalImage.value, prompt);
      if key in cache.entries {
        editedImage := Some(cache.entries[key]);
        isLoading := false;
        return;
      }

      match outcome {
        case InlineImage(data) =>
          var newImageSrc := DataUrl(originalMimeType, data);
          editedImage := Some(newImageSrc);
          cache.entries := cache.entries[key := newImageSrc];
        case NoInlineImage =>
          error := Some(NoImageError);
        case Thrown(message) =>
          error := Some(message);
        case ThrownNonError =>
          error := Some(UnknownError);
      }
      isLoading := false;
    }
  }
}
