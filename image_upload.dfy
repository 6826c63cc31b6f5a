/** The image-list editor shared by the product form, the story template and the slider
    template: the file check run before an upload, the list of uploaded image URLs, the
    per-upload progress entries, and the 1-3 image limit. The three components carry the
    same code for these (component/Product/Product.js:90-146, 177-181;
    component/DynamicTemp/StoryTemp.js:56-109; component/DynamicTemp/SliderTemp.js:56-109). */
module ImageUpload {
  import opened JsSemantics

  /** At most this many images, and the form needs at least one. */
  const MaxImages: nat := 3

  /** 2 MiB: `file.size / 1024 / 1024 < 2`. */
  const MaxBytes: nat := 2 * 1024 * 1024

  const JpegOrPngMessage := "You can only upload JPG/PNG file!"
  const TooLargeMessage := "Image must smaller than 2MB!"

  /** What the upload widget knows of a chosen file. */
  datatype FileInfo = FileInfo(mimeType: string, size: nat)

  /** `true` lets the upload go ahead; `Upload.LIST_IGNORE` drops the file, with a message. */
  datatype UploadCheck = Accept | Ignore(message: string)

  predicate IsJpegOrPng(file: FileInfo) {
    file.mimeType == "image/jpeg" || file.mimeType == "image/png"
  }

  /** `beforeUpload`: the type check comes first, then the size check in megabytes. */
  function BeforeUpload(file: FileInfo): (r: UploadCheck)
    ensures r == Accept <==> IsJpegOrPng(file) && file.size < MaxBytes
    ensures !IsJpegOrPng(file) ==> r == Ignore(JpegOrPngMessage)
    ensures IsJpegOrPng(file) && file.size >= MaxBytes ==> r == Ignore(TooLargeMessage)
  {
    if !IsJpegOrPng(file) then Ignore(JpegOrPngMessage)
    else if !((file.size as real) / 1024.0 / 1024.0 < 2.0) then Ignore(TooLargeMessage)
    else Accept
  }

  /** The templates' message for a bad image count. */
  const ImageCountMessage := "Please upload 1-3 images"

  /** The submit-time image rule: `imageUrls.length === 0 || imageUrls.length > 3` is rejected. */
  predicate ImageCountAccepted(n: nat) {
    !(n == 0 || n > MaxImages)
  }

  /** The answer of the image host to one upload request. */
  datatype UploadResponse =
    | Uploaded(url: string)   // `data.success` is truthy; `data.data.url`
    | NotSuccessful           // `data.success` is falsy
    | Unreachable             // `fetch` or `response.json()` threw

  /** The templates' `customRequest`: an empty URL is reported to the widget as an error. */
  function ReportsSuccess(url: string): (ok: bool)
    ensures ok <==> |url| > 0
  {
    url != ""
  }

  /** The widget state `imageUrls`, `uploadProgress` and `uploading` of one form. */
  class ImageUploader {
    var imageUrls: seq<string>
    var uploadProgress: map<int, int>
    var uploading: bool

    constructor ()
      ensures imageUrls == [] && uploadProgress == map[] && !uploading
    {
      imageUrls := [];
      uploadProgress := map[];
      uploading := false;
    }

    /** The upload control is rendered only while fewer than three images exist. */
    predicate UploadOffered()
      reads this
    {
      |imageUrls| < MaxImages
    }

    /** ... and it is disabled while an upload runs or three images exist. */
    predicate UploadDisabled()
      reads this
    {
      uploading || |imageUrls| >= MaxImages
    }

    /** `handleUpload` up to the request: mark uploading and create the progress entry at 0. */
    method StartUpload(index: int)
      modifies this
      ensures uploading
      ensures uploadProgress == old(uploadProgress)[index := 0]
      ensures index in uploadProgress && uploadProgress[index] == 0
      ensures imageUrls == old(imageUrls)
    {
      uploading := true;
      uploadProgress := uploadProgress[index := 0];
    }

    /** `handleUpload` after the request: append the URL on success, return it (or ""),
        and in every case clear `uploading` and delete the progress entry. */
    method FinishUpload(index: int, response: UploadResponse) returns (url: string)
      modifies this
      ensures !uploading
      ensures uploadProgress == old(uploadProgress) - {index}
      ensures index !in uploadProgress
      ensures response.Uploaded? ==> url == response.url && imageUrls == old(imageUrls) + [response.url]
      ensures !response.Uploaded? ==> url == "" && imageUrls == old(imageUrls)
    {
      if response.Uploaded? {
        imageUrls := imageUrls + [response.url];
        url := response.url;
      } else {
        url := "";
      }
      uploading := false;
      uploadProgress := uploadProgress - {index};
    }

    /** `removeImage(index)`: splice a copy of the list. */
    method RemoveImage(index: int)
      modifies this
      ensures imageUrls == RemoveAt(old(imageUrls), index)
      ensures uploadProgress == old(uploadProgress) && uploading == old(uploading)
    {
      imageUrls := RemoveAt(imageUrls, index);
    }

    /** `setImageUrls(record.images)` when a saved record is opened for editing. */
    method Load(urls: seq<string>)
      modifies this
      ensures imageUrls == urls
      ensures uploadProgress == old(uploadProgress) && uploading == old(uploading)
    {
      imageUrls := urls;
    }

    /** `setImageUrls([])` after a successful save. */
    method Clear()
      modifies this
      ensures imageUrls == []
      ensures uploadProgress == old(uploadProgress) && uploading == old(uploading)
    {
      imageUrls := [];
    }
  }

  /** One upload through the templates' control (StoryTemp.js and SliderTemp.js): the
      control exists only below three images and is disabled while another upload runs,
      the file must pass `beforeUpload`, the progress key is the current list length, and
      `customRequest` reports an empty URL as an error. The limit of three is kept. */
  method TemplateUpload(u: ImageUploader, file: FileInfo, response: UploadResponse)
    returns (reported: Option<bool>)
    modifies u
    ensures old(|u.imageUrls|) <= MaxImages ==> |u.imageUrls| <= MaxImages
    ensures reported.Some? <==> old(u.UploadOffered()) && !old(u.UploadDisabled()) && BeforeUpload(file) == Accept
    ensures reported.None? ==> u.imageUrls == old(u.imageUrls) && u.uploadProgress == old(u.uploadProgress)
    ensures reported.Some? ==> u.uploadProgress == old(u.uploadProgress) - {|old(u.imageUrls)|}
    ensures reported.None? ==> u.uploading == old(u.uploading)
    ensures reported.Some? ==> !u.uploading
    ensures reported.Some? ==> reported.value == (response.Uploaded? && response.url != "")
    ensures reported.Some? && response.Uploaded? ==> u.imageUrls == old(u.imageUrls) + [response.url]
    ensures reported.Some? && !response.Uploaded? ==> u.imageUrls == old(u.imageUrls)
    ensures reported == Some(true) ==> response.Uploaded? && u.imageUrls == old(u.imageUrls) + [response.url]
  {
    if !u.UploadOffered() || u.UploadDisabled() || BeforeUpload(file) != Accept {
      return None;
    }
    var index := |u.imageUrls|;
    u.StartUpload(index);
    assert u.uploadProgress[index] == 0;
    var url := u.FinishUpload(index, response);
    reported := Some(ReportsSuccess(url));
  }
}
