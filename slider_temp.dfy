/** The slider editor (component/DynamicTemp/SliderTemp.js): a slide's text fields, its 1-3
    images uploaded through the shared image list, and the create or update request sent on
    submit. */
module SliderTemp {
  import opened JsSemantics
  import opened ImageUpload


  /** The form fields. */
  datatype SliderFields = SliderFields(title: string, subtitle: string, description: string)

  /** The fields after `form.resetFields()`. */
  const EmptyFields := SliderFields("", "", "")

  /** A saved slider as the list holds it. */
  datatype Slide = Slide(id: string, fields: SliderFields, images: seq<string>)

  /** `sliderData`. */
  datatype SliderData = SliderData(title: string, subtitle: string, description: string,
                                   images: seq<string>)

  /** `PUT /sliders/{id}` or `POST /sliders`. */
  datatype SliderRequest = Put(id: string, data: SliderData) | Post(data: SliderData)

  /** The slider payload: exactly the three text fields and the image list. */
  function SliderPayload(fields: SliderFields, images: seq<string>): (r: SliderData)
    ensures r.title == fields.title && r.subtitle == fields.subtitle
    ensures r.description == fields.description && r.images == images
  {
    SliderData(fields.title, fields.subtitle, fields.description, images)
  }

  /** `onFinish` up to the request: the image count is checked first, then the request
      updates the slider being edited or creates a new one. */
  function OnFinish(fields: SliderFields, images: seq<string>, current: Option<Slide>): (r: Result<SliderRequest>)
    ensures r.Err? <==> !ImageCountAccepted(|images|)
    ensures r.Err? ==> r.error == ImageCountMessage
    ensures r.Ok? && current.Some? ==> r.value == Put(current.value.id, SliderPayload(fields, images))
    ensures r.Ok? && current.None? ==> r.value == Post(SliderPayload(fields, images))
  {
    if |images| == 0 || |images| > MaxImages then Err(ImageCountMessage)
    else if current.Some? then Ok(Put(current.value.id, SliderPayload(fields, images)))
    else Ok(Post(SliderPayload(fields, images)))
  }

  /** Every request sent carries one to three images. */
  lemma SentSlidesHaveOneToThreeImages(fields: SliderFields, images: seq<string>, current: Option<Slide>)
    requires OnFinish(fields, images, current).Ok?
    ensures 1 <= |OnFinish(fields, images, current).value.data.images| <= 3
  {
  }

  /** Opening a saved slide and submitting it unchanged sends the slide back as it was. */
  lemma EditAndSaveRoundTrip(s: Slide)
    requires 1 <= |s.images| <= 3
    ensures var r := OnFinish(s.fields, s.images, Some(s));
            && r.Ok? && r.value.Put? && r.value.id == s.id
            && r.value.data.images == s.images
            && r.value.data.title == s.fields.title
            && r.value.data.subtitle == s.fields.subtitle
            && r.value.data.description == s.fields.description
  {
  }

  /** The editor: the form fields, the slider being edited (`currentSlider`), whether the
      dialog is open, and the image list. */
  class SliderEditor {
    var fields: SliderFields
    var currentSlider: Option<Slide>
    var modalVisible: bool
    const images: ImageUploader

    constructor ()
      ensures fields == EmptyFields && currentSlider == None && !modalVisible
      ensures fresh(images)
      ensures images.imageUrls == [] && images.uploadProgress == map[] && !images.uploading
    {
      fields := EmptyFields;
      currentSlider := None;
      modalVisible := false;
      images := new ImageUploader();
    }

    /** "Add New Slider": nothing edited, an empty form and no images. */
    method OpenCreate()
      modifies this, images
      ensures currentSlider == None && fields == EmptyFields && images.imageUrls == [] && modalVisible
      ensures images.uploadProgress == old(images.uploadProgress) && images.uploading == old(images.uploading)
    {
      currentSlider := None;
      fields := EmptyFields;
      images.Clear();
      modalVisible := true;
    }

    /** `handleEdit`: the slide's fields and images are loaded into the form. */
    method HandleEdit(slide: Slide)
      modifies this, images
      ensures currentSlider == Some(slide) && fields == slide.fields && images.imageUrls == slide.images
      ensures modalVisible
      ensures images.uploadProgress == old(images.uploadProgress) && images.uploading == old(images.uploading)
    {
      currentSlider := Some(slide);
      images.Load(slide.images);
      fields := slide.fields;
      modalVisible := true;
    }

    /** The view button: the slide becomes the current one, the form is left as it was. */
    method OpenView(slide: Slide)
      modifies this
      ensures currentSlider == Some(slide) && modalVisible && fields == old(fields)
    {
      currentSlider := Some(slide);
      modalVisible := true;
    }

    /** Typing into the form. */
    method SetFields(values: SliderFields)
      modifies this
      ensures fields == values
      ensures currentSlider == old(currentSlider) && modalVisible == old(modalVisible)
    {
      fields := values;
    }

    /** One upload through the control of this form. */
    method Upload(file: FileInfo, response: UploadResponse) returns (reported: Option<bool>)
      modifies images
      ensures old(|images.imageUrls|) <= MaxImages ==> |images.imageUrls| <= MaxImages
      ensures reported == Some(true) ==> response.Uploaded? && images.imageUrls == old(images.imageUrls) + [response.url]
      ensures reported.Some? <==>
                old(images.UploadOffered()) && !old(images.UploadDisabled()) && BeforeUpload(file) == Accept
      ensures reported.None? ==> images.imageUrls == old(images.imageUrls)
      ensures reported.Some? && response.Uploaded? ==> images.imageUrls == old(images.imageUrls) + [response.url]
      ensures reported.Some? && !response.Uploaded? ==> images.imageUrls == old(images.imageUrls)
      ensures reported.Some? ==> images.uploadProgress == old(images.uploadProgress) - {|old(images.imageUrls)|} && !images.uploading
      ensures reported.None? ==> images.uploadProgress == old(images.uploadProgress) && images.uploading == old(images.uploading)
    {
      reported := TemplateUpload(images, file, response);
    }

    /** `removeImage(index)`: the image at that index leaves the list. */
    method RemoveImage(index: int)
      modifies images
      ensures images.imageUrls == RemoveAt(old(images.imageUrls), index)
      ensures 0 <= index < old(|images.imageUrls|) ==>
                images.imageUrls == old(images.imageUrls[..index] + images.imageUrls[index + 1..])
      ensures images.uploadProgress == old(images.uploadProgress) && images.uploading == old(images.uploading)
    {
      if 0 <= index < |images.imageUrls| {
        RemoveAtInRange(images.imageUrls, index);
      }
      images.RemoveImage(index);
    }

    /** `onFinish`: the request is built; when the server accepts it the form, the image list
        and the dialog are reset, and otherwise nothing changes. */
    method Submit(accepted: bool) returns (request: Result<SliderRequest>)
      modifies this, images
      ensures request == OnFinish(old(fields), old(images.imageUrls), old(currentSlider))
      ensures request.Ok? && accepted ==> fields == EmptyFields && images.imageUrls == [] && !modalVisible
      ensures !(request.Ok? && accepted) ==>
                fields == old(fields) && images.imageUrls == old(images.imageUrls) && modalVisible == old(modalVisible)
      ensures currentSlider == old(currentSlider)
      ensures images.uploadProgress == old(images.uploadProgress) && images.uploading == old(images.uploading)
    {
      request := OnFinish(fields, images.imageUrls, currentSlider);
      if request.Ok? && accepted {
        fields := EmptyFields;
        images.Clear();
        modalVisible := false;
      }
    }
  }
}
