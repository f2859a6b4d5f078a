/**
 * The message input box: the text typed, the selected image and its preview;
 * when a send fires and what it sends, and image validation.
 */
module MessageInput {
  import opened Wrappers
  import opened Strings
  import opened Messages

  /** Largest image accepted: 10 MiB. */
  const MaxImageBytes: nat := 10 * 1024 * 1024
  const ImageTypePrefix: string := "image/"

  /** How handleImageSelect judges a chosen file (a rejection raises an alert). */
  datatype ImageVerdict = Accepted | NotAnImage | TooLarge

  /** The image checks, in the source's order: MIME type first, then size. */
  function CheckImage(f: ImageFile): (v: ImageVerdict)
    ensures v == Accepted <==> StartsWith(f.mimeType, ImageTypePrefix) && f.size <= MaxImageBytes
    ensures v == NotAnImage <==> !StartsWith(f.mimeType, ImageTypePrefix)
    ensures v == TooLarge <==> StartsWith(f.mimeType, ImageTypePrefix) && f.size > MaxImageBytes
  {
    if !StartsWith(f.mimeType, ImageTypePrefix) then NotAnImage
    else if f.size > MaxImageBytes then TooLarge
    else Accepted
  }

  /** The size bound is inclusive, and the type is checked before the size. */
  lemma ImageLimits()
    ensures CheckImage(ImageFile("image/png", 10485760)) == Accepted
    ensures CheckImage(ImageFile("image/png", 10485761)) == TooLarge
    ensures CheckImage(ImageFile("text/plain", 20000000)) == NotAnImage
  {
    assert StartsWith("image/png", ImageTypePrefix) by {
      assert "image/png"[..6] == "image/";
    }
    assert !StartsWith("text/plain", ImageTypePrefix) by {
      assert "text/plain"[0] != "image/"[0];
    }
  }

  /** handleSend's guard: something to send (text or image) and not disabled. */
  function CanSend(input: string, image: Option<ImageFile>, disabled: bool): (fires: bool)
    ensures fires <==> (!AllWhitespace(input) || image.Some?) && !disabled
  {
    (Trim(input) != "" || image.Some?) && !disabled
  }

  /** The text handleSend passes on: the trimmed input, or the image prompt when that is empty. */
  function OutgoingText(input: string): (t: string)
    ensures t != ""
    ensures Trim(input) != "" ==> t == Trim(input)
    ensures AllWhitespace(input) ==> t == AnalyzeImagePrompt
  {
    var trimmedInput := Trim(input);
    if trimmedInput != "" then trimmedInput else AnalyzeImagePrompt
  }

  /** What handleSend hands to onSend. */
  datatype Outgoing = Outgoing(text: string, image: Option<ImageFile>)

  class MessageInput {
    var input: string
    var selectedImage: Option<ImageFile>
    var imagePreview: Option<string>

    constructor ()
      ensures input == "" && selectedImage == None && imagePreview == None
    {
      input := "";
      selectedImage := None;
      imagePreview := None;
    }

    /** The send button's disabled attribute: exactly when handleSend would not fire. */
    function SendButtonDisabled(disabled: bool): (off: bool)
      reads this
      ensures off <==> !CanSend(input, selectedImage, disabled)
    {
      (Trim(input) == "" && selectedImage.None?) || disabled
    }

    /** Typing in the text area. */
    method ChangeInput(text: string)
      modifies this
      ensures input == text
      ensures selectedImage == old(selectedImage) && imagePreview == old(imagePreview)
    {
      input := text;
    }

    /**
     * handleSend: when the guard holds, hands OutgoingText and the image to
     * onSend and clears text, image and preview; otherwise changes nothing.
     */
    method HandleSend(disabled: bool) returns (sent: Option<Outgoing>)
      modifies this
      ensures sent.Some? <==> CanSend(old(input), old(selectedImage), disabled)
      ensures sent.Some? ==>
        && sent.value == Outgoing(OutgoingText(old(input)), old(selectedImage))
        && input == "" && selectedImage == None && imagePreview == None
      ensures sent.None? ==>
        input == old(input) && selectedImage == old(selectedImage) && imagePreview == old(imagePreview)
    {
      var trimmedInput := Trim(input);
      sent := None;
      if (trimmedInput != "" || selectedImage.Some?) && !disabled {
        sent := Some(Outgoing(OutgoingText(input), selectedImage));
        input := "";
        selectedImage := None;
        imagePreview := None;
      }
    }

    /** handleKeyDown: Enter without Shift sends; any other key does nothing here. */
    method HandleKeyDown(enterWithoutShift: bool, disabled: bool) returns (sent: Option<Outgoing>)
      modifies this
      ensures sent.Some? <==> enterWithoutShift && CanSend(old(input), old(selectedImage), disabled)
      ensures sent.Some? ==> sent.value == Outgoing(OutgoingText(old(input)), old(selectedImage))
      ensures sent.None? ==>
        input == old(input) && selectedImage == old(selectedImage) && imagePreview == old(imagePreview)
      ensures sent.Some? ==> input == "" && selectedImage == None && imagePreview == None
    {
      sent := None;
      if enterWithoutShift {
        sent := HandleSend(disabled);
      }
    }

    /**
     * handleImageSelect: with no file chosen nothing happens; a rejected file
     * leaves the previous selection; an accepted one is selected. Its preview
     * arrives later, through PreviewLoaded.
     */
    method HandleImageSelect(file: Option<ImageFile>) returns (verdict: Option<ImageVerdict>)
      modifies this
      ensures file.None? ==> verdict == None
      ensures file.Some? ==> verdict == Some(CheckImage(file.value))
      ensures selectedImage == if verdict == Some(Accepted) then file else old(selectedImage)
      ensures input == old(input) && imagePreview == old(imagePreview)
    {
      verdict := None;
      if file.Some? {
        verdict := Some(CheckImage(file.value));
        if verdict == Some(Accepted) {
          selectedImage := file;
        }
      }
    }

    /** The FileReader's load-end callback shows the image as a data URL. */
    method PreviewLoaded(dataUrl: string)
      modifies this
      ensures imagePreview == Some(dataUrl)
      ensures input == old(input) && selectedImage == old(selectedImage)
    {
      imagePreview := Some(dataUrl);
    }

    /** handleRemoveImage: drops image and preview, keeps the text. */
    method HandleRemoveImage()
      modifies this
      ensures selectedImage == None && imagePreview == None
      ensures input == old(input)
    {
      selectedImage := None;
      imagePreview := None;
    }
  }
}
