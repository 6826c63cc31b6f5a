/** The story editor (component/DynamicTemp/StoryTemp.js): a story's text fields, its 1-3
    images uploaded through the shared image list, and the create or update request sent on
    submit. */
module StoryTemp {
  import opened JsSemantics
  import opened ImageUpload


  /** The form fields; `otherDescription` is optional. */
  datatype StoryFields = StoryFields(title: string, subtitle: string, description: string,
                                     otherDescription: Option<string>)

  /** The fields after `form.resetFields()`. */
  const EmptyFields := StoryFields("", "", "", None)

  /** A saved story as the list holds it. */
  datatype Story = Story(id: string, fields: StoryFields, images: seq<string>)

  /** `storyData`. */
  datatype StoryData = StoryData(title: string, subtitle: string, description: string,
                                 otherDescription: Option<string>, images: seq<string>)

  /** `PUT /stories/{id}` or `POST /stories`. */
  datatype StoryRequest = Put(id: string, data: StoryData) | Post(data: StoryData)

  /** `values.otherDescription || null`: a missing or empty text is sent as `null`. */
  function OrNull(s: Option<string>): (r: Option<string>)
    ensures r.None? <==> s.None? || s == Some("")
    ensures r.Some? ==> r == s
  {
    if s.Some? && s.value != "" then s else None
  }

  /** The story payload built from the form and the image list. */
  function StoryPayload(fields: StoryFields, images: seq<string>): (r: StoryData)
    ensures r.title == fields.title && r.subtitle == fields.subtitle
    ensures r.description == fields.description && r.images == images
    ensures r.otherDescription == OrNull(fields.otherDescription)
  {
    StoryData(fields.title, fields.subtitle, fields.description, OrNull(fields.otherDescription), images)
  }

  /** `onFinish` up to the request: the image count is checked first, then the request
      updates the story being edited or creates a new one. */
  function OnFinish(fields: StoryFields, images: seq<string>, current: Option<Story>): (r: Result<StoryRequest>)
    ensures r.Err? <==> !ImageCountAccepted(|images|)
    ensures r.Err? ==> r.error == ImageCountMessage
    ensures r.Ok? && current.Some? ==> r.value == Put(current.value.id, StoryPayload(fields, images))
    ensures r.Ok? && current.None? ==> r.value == Post(StoryPayload(fields, images))
  {
    if |images| == 0 || |images| > MaxImages then Err(ImageCountMessage)
    else if current.Some? then Ok(Put(current.value.id, StoryPayload(fields, images)))
    else Ok(Post(StoryPayload(fields, images)))
  }

  /** Every request sent carries one to three images. */
  lemma SentStoriesHaveOneToThreeImages(fields: StoryFields, images: seq<string>, current: Option<Story>)
    requires OnFinish(fields, images, current).Ok?
    ensures 1 <= |OnFinish(fields, images, current).value.data.images| <= 3
  {
  }

  /** The null conversion is done once: the payload never carries an empty additional
      description, and a story saved from a payload and sent again sends that payload. */
  lemma ResavedPayloadIsStable(fields: StoryFields, images: seq<string>)
    ensures StoryPayload(fields, images).otherDescription != Some("")
    ensures var d := StoryPayload(fields, images);
            StoryPayload(StoryFields(d.title, d.subtitle, d.description, d.otherDescription), d.images) == d
  {
  }

  /** Opening a saved story and submitting it unchanged sends the story back as it was,
      except that an empty additional description becomes `null`. */
  lemma EditAndSaveRoundTrip(s: Story)
    requires 1 <= |s.images| <= 3
    ensures var r := OnFinish(s.fields, s.images, Some(s));
            && r.Ok? && r.value.Put? && r.value.id == s.id
            && r.value.data.images == s.images
            && r.value.data.title == s.fields.title
            && r.value.data.subtitle == s.fields.subtitle
            && r.value.data.description == s.fields.description
            && (s.fields.otherDescription != Some("") ==> r.value.data.otherDescription == s.fields.otherDescription)
  {
  }

  /** The editor: the form fields, the story being edited (`currentStory`), whether the
      dialog is open, and the image list. */
  class StoryEditor {
    var fields: StoryFields
    var currentStory: Option<Story>
    var modalVisible: bool
    const images: ImageUploader

    constructor ()
      ensures fields == EmptyFields && currentStory == None && !modalVisible
      ensures fresh(images)
      ensures images.imageUrls == [] && images.uploadProgress == map[] && !images.uploading
    {
      fields := EmptyFields;
      currentStory := None;
      modalVisible := false;
      images := new ImageUploader();
    }

    /** "Add New Story": nothing edited, an empty form and no images. */
    method OpenCreate()
      modifies this, images
      ensures currentStory == None && fields == EmptyFields && images.imageUrls == [] && modalVisible
      ensures images.uploadProgress == old(images.uploadProgress) && images.uploading == old(images.uploading)
    {
      currentStory := None;
      fields := EmptyFields;
      images.Clear();
      modalVisible := true;
    }

    /** `handleEdit`: the story's fields and images are loaded into the form. */
    method HandleEdit(story: Story)
      modifies this, images
      ensures currentStory == Some(story) && fields == story.fields && images.imageUrls == story.images
      ensures modalVisible
      ensures images.uploadProgress == old(images.uploadProgress) && images.uploading == old(images.uploading)
    {
      currentStory := Some(story);
      images.Load(story.images);
      fields := story.fields;
      modalVisible := true;
    }

    /** The view button: the story becomes the current one, the form is left as it was. */
    method OpenView(story: Story)
      modifies this
      ensures currentStory == Some(story) && modalVisible && fields == old(fields)
    {
      currentStory := Some(story);
      modalVisible := true;
    }

    /** Typing into the form. */
    method SetFields(values: StoryFields)
      modifies this
      ensures fields == values
      ensures currentStory == old(currentStory) && modalVisible == old(modalVisible)
    {
      fields := values;
    }

    /** One upload through the control of this form. */
    method Upload(file: FileInfo, response: UploadResponse) returns (reported: Option<bool>)
      modifies images
      ensures old(|images.imageUrls|) <= MaxImages ==> |images.imageUrls| <= MaxImages
      ensures reported == Some(true) ==> response.Uploaded? && images.imageUrls == old(images.imageUrls) + [response.url]
      ensures reported.Some? <==>
                old(images.UploadOffered()) && !old(images.UploadDisabled()) && BeforeUpload(file) == Accept
      ensures reported.None? ==> images.imageUrls == old(images.imageUrls)
      ensures reported.Some? && response.Uploaded? ==> images.imageUrls == old(images.imageUrls) + [response.url]
      ensures reported.Some? && !response.Uploaded? ==> images.imageUrls == old(images.imageUrls)
      ensures reported.Some? ==> images.uploadProgress == old(images.uploadProgress) - {|old(images.imageUrls)|} && !images.uploading
      ensures reported.None? ==> images.uploadProgress == old(images.uploadProgress) && images.uploading == old(images.uploading)
    {
      reported := TemplateUpload(images, file, response);
    }

    /** `removeImage(index)`: the image at that index leaves the list. */
    method RemoveImage(index: int)
      modifies images
      ensures images.imageUrls == RemoveAt(old(images.imageUrls), index)
      ensures 0 <= index < old(|images.imageUrls|) ==>
                images.imageUrls == old(images.imageUrls[..index] + images.imageUrls[index + 1..])
      ensures images.uploadProgress == old(images.uploadProgress) && images.uploading == old(images.uploading)
    {
      if 0 <= index < |images.imageUrls| {
        RemoveAtInRange(images.imageUrls, index);
      }
      images.RemoveImage(index);
    }

    /** `onFinish`: the request is built; when the server accepts it the form, the image list
        and the dialog are reset, and otherwise nothing changes. */
    method Submit(accepted: bool) returns (request: Result<StoryRequest>)
      modifies this, images
      ensures request == OnFinish(old(fields), old(images.imageUrls), old(currentStory))
      ensures request.Ok? && accepted ==> fields == EmptyFields && images.imageUrls == [] && !modalVisible
      ensures !(request.Ok? && accepted) ==>
                fields == old(fields) && images.imageUrls == old(images.imageUrls) && modalVisible == old(modalVisible)
      ensures currentStory == old(currentStory)
      ensures images.uploadProgress == old(images.uploadProgress) && images.uploading == old(images.uploading)
    {
      request := OnFinish(fields, images.imageUrls, currentStory);
      if request.Ok? && accepted {
        fields := EmptyFields;
        images.Clear();
        modalVisible := false;
      }
    }
  }
}
