/**
 * The image uploader: the guards a chosen file must pass before it is read,
 * the choice of the first file of a drop or a file-picker selection, the
 * drag-highlight flag, and clearing the image.
 */
module ImageUploader {
  import opened Wrappers
  import opened JsText
  import opened CardData
  import ExportOptions

  /** 10 MiB. */
  const MaxUploadBytes := 10 * 1024 * 1024

  /** What the uploader looks at in a `File`: its MIME type, its size in bytes and its name. */
  datatype File = File(mimeType: JsString, size: nat, name: JsString)

  /** The two error toasts `handleFile` can raise. */
  datatype Rejection = NotAnImage | TooLarge

  /** `file.type.startsWith('image/')`. */
  function IsImageType(mimeType: JsString): (isImage: bool)
    ensures isImage <==> |mimeType| >= 6 && mimeType[..6] == Js("image/")
  {
    Js("image/") <= mimeType
  }

  /**
   * The guards of `handleFile`, in their order: the type is checked first,
   * the size second. `None` means the file is handed to the reader.
   */
  function Validate(file: File): (rejection: Option<Rejection>)
    ensures rejection.None? <==> IsImageType(file.mimeType) && file.size <= MaxUploadBytes
    ensures rejection == Some(NotAnImage) <==> !IsImageType(file.mimeType)
    ensures rejection == Some(TooLarge) <==> IsImageType(file.mimeType) && file.size > MaxUploadBytes
  {
    if !IsImageType(file.mimeType) then Some(NotAnImage)
    else if file.size > MaxUploadBytes then Some(TooLarge)
    else None
  }

  /** The size limit is inclusive, and an oversized file that is not an image gets only the type error. */
  lemma ValidationBoundaries(mimeType: JsString)
    ensures Validate(File(Js("image/png"), MaxUploadBytes, [])) == None
    ensures Validate(File(Js("image/png"), MaxUploadBytes + 1, [])) == Some(TooLarge)
    ensures !IsImageType(mimeType) ==> Validate(File(mimeType, MaxUploadBytes + 1, [])) == Some(NotAnImage)
    ensures MaxUploadBytes == 10485760
  {
    assert Js("image/") == Js("image/png")[..6];
  }

  /** The prefix test needs the whole of `image/`, slash included. */
  lemma ImageTypeExamples()
    ensures IsImageType(Js("image/gif"))
    ensures !IsImageType(Js("image"))
    ensures !IsImageType(Js("text/plain"))
    ensures !IsImageType([])
  {
    assert Js("image/") == Js("image/gif")[..6];
    assert Js("image/")[0] != Js("text/plain")[0];
  }

  /** `files[0]` when the list is non-empty. */
  function FirstFile(files: seq<File>): (first: Option<File>)
    ensures first.None? <==> files == []
    ensures first.Some? ==> first.value == files[0]
  {
    if |files| > 0 then Some(files[0]) else None
  }

  /** `e.target.files`, which may be `null`, or the list of chosen files. */
  function SelectedFile(files: Option<seq<File>>): (first: Option<File>)
    ensures first.None? <==> files.None? || files.value == []
    ensures first.Some? ==> first == FirstFile(files.value)
  {
    if files.Some? then FirstFile(files.value) else None
  }

  class Uploader {
    /** Whether a drag is hovering over the drop zone. */
    var isDragging: bool
    /** The `value` of the hidden file input: the name of the file last chosen in it. */
    var inputValue: JsString
    /** Every value passed to `onImageUpload`, in order. */
    var reported: seq<JsString>
    /** Every file handed to `readAsDataURL`, in order. */
    var readsStarted: seq<File>
    /** Every error toast raised by the guards, in order. */
    var rejections: seq<Rejection>

    constructor ()
      ensures !isDragging && inputValue == [] && reported == [] && readsStarted == [] && rejections == []
    {
      isDragging, inputValue, reported, readsStarted, rejections := false, [], [], [], [];
    }

    /** `handleFile`: a file that passes both guards is read; any other raises one error. */
    method HandleFile(file: File)
      modifies this`readsStarted, this`rejections
      ensures Validate(file).None? ==> readsStarted == old(readsStarted) + [file] && rejections == old(rejections)
      ensures Validate(file).Some? ==>
        readsStarted == old(readsStarted) && rejections == old(rejections) + [Validate(file).value]
    {
      if !(Js("image/") <= file.mimeType) {
        rejections := rejections + [NotAnImage];
        return;
      }
      if file.size > 10 * 1024 * 1024 {
        rejections := rejections + [TooLarge];
        return;
      }
      readsStarted := readsStarted + [file];
    }

    /** `handleDrop`: ends the drag and handles the first dropped file, if any. */
    method HandleDrop(files: seq<File>)
      modifies this`isDragging, this`readsStarted, this`rejections
      ensures !isDragging
      ensures files == [] ==> readsStarted == old(readsStarted) && rejections == old(rejections)
      ensures files != [] && Validate(files[0]).None? ==>
        readsStarted == old(readsStarted) + [files[0]] && rejections == old(rejections)
      ensures files != [] && Validate(files[0]).Some? ==>
        readsStarted == old(readsStarted) && rejections == old(rejections) + [Validate(files[0]).value]
    {
      isDragging := false;
      if |files| > 0 {
        HandleFile(files[0]);
      }
    }

    method HandleDragOver()
      modifies this`isDragging
      ensures isDragging
    {
      isDragging := true;
    }

    method HandleDragLeave()
      modifies this`isDragging
      ensures !isDragging
    {
      isDragging := false;
    }

    /**
     * `handleFileSelect`, run once the picker has put its selection into the
     * file input: handles the first chosen file; `null` or no file does nothing.
     */
    method HandleFileSelect(files: Option<seq<File>>)
      modifies this`inputValue, this`readsStarted, this`rejections
      ensures SelectedFile(files).None? ==> inputValue == old(inputValue)
      ensures SelectedFile(files).Some? ==> inputValue == SelectedFile(files).value.name
      ensures SelectedFile(files).None? ==> readsStarted == old(readsStarted) && rejections == old(rejections)
      ensures SelectedFile(files).Some? && Validate(SelectedFile(files).value).None? ==>
        readsStarted == old(readsStarted) + [SelectedFile(files).value] && rejections == old(rejections)
      ensures SelectedFile(files).Some? && Validate(SelectedFile(files).value).Some? ==>
        readsStarted == old(readsStarted)
        && rejections == old(rejections) + [Validate(SelectedFile(files).value).value]
    {
      if files.Some? && |files.value| > 0 {
        inputValue := files.value[0].name;
        HandleFile(files.value[0]);
      }
    }

    /**
     * The reader's `onload`: the data URL is reported only when it is
     * truthy, i.e. neither `null` nor empty (the test `HasImage` states).
     */
    method ReaderLoaded(result: Option<JsString>)
      modifies this`reported
      ensures HasImage(result) ==> reported == old(reported) + [result.value]
      ensures !HasImage(result) ==> reported == old(reported)
    {
      if result.Some? && result.value != [] {
        reported := reported + [result.value];
      }
    }

    /** `clearImage`: reports the empty string and empties the file input. */
    method ClearImage()
      modifies this`reported, this`inputValue
      ensures reported == old(reported) + [[]] && inputValue == []
    {
      reported := reported + [[]];
      inputValue := [];
    }
  }

  /**
   * The page passes every reported value on as `updateCardData({ image })`.
   * After clearing, both export buttons are disabled and the raster export
   * returns at once; every other field keeps its value.
   */
  lemma ClearedImageBlocksExport(c: Card, isExporting: bool)
    ensures var next := UpdateCardData(c, ImageUpdate([]));
      && next.image == Some([])
      && !ExportOptions.ImageExportEnabled(isExporting, next.image)
      && !ExportOptions.HtmlExportEnabled(next.image)
      && next == c.(image := Some([]))
  {
    var next := UpdateCardData(c, ImageUpdate([]));
    assert Get(next, ImageField) == ImageValue(Some([]));
    forall f ensures Get(next, f) == Get(c.(image := Some([])), f) {
      if f != ImageField {
        assert Given(ImageUpdate([]), f).None?;
      }
    }
    SameFields(next, c.(image := Some([])));
  }

  /** A reported data URL enables both exports once no export is running. */
  lemma UploadEnablesExport(c: Card, dataUrl: JsString)
    requires dataUrl != []
    ensures var next := UpdateCardData(c, ImageUpdate(dataUrl));
      && next.image == Some(dataUrl)
      && ExportOptions.ImageExportEnabled(false, next.image)
      && ExportOptions.HtmlExportEnabled(next.image)
  {
    assert Get(UpdateCardData(c, ImageUpdate(dataUrl)), ImageField) == ImageValue(Some(dataUrl));
  }
}
