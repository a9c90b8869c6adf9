/** The upload form (components/UploadSection.tsx): two category lists of
    uploaded files, a text box, the separate-answer-key toggle and the two
    drag-highlight flags. Reading a file and extracting its images are
    asynchronous browser operations; here each picked file arrives with the
    outcome of those operations already attached. */
module UploadSection {
  import opened Types

  const TextPlain := "text/plain"
  const PdfMimeType := "application/pdf"
  const OctetStream := "application/octet-stream"

  /** A file the user picked or dropped: its name, its MIME type as the
      browser reports it (possibly empty), the text or data URL the reader
      produced (None when the read failed), and the images the PDF extractor
      returns for it (None when the extractor throws). */
  datatype PickedFile = PickedFile(name: string, mimeType: string, read: Option<string>, pdfImages: Option<seq<string>>)

  /** What submitting the form hands to the analysis: all files and the text. */
  datatype Submission = Submission(files: seq<FileData>, text: string)

  /** The type of a drag event a dropzone receives: `dragenter`,
      `dragover`, `dragleave`, or any other type. */
  datatype DragEvent = DragEnter | DragOver | DragLeave | OtherEvent

  // ---------------------------------------------------------------------
  // Classifying and storing one file

  /** A file is read as text when it is plain text by type or by extension. */
  predicate IsTextFile(name: string, mimeType: string)
  {
    mimeType == TextPlain || EndsWith(name, ".txt") || EndsWith(name, ".md")
  }

  lemma IsTextFileIff(name: string, mimeType: string)
    ensures IsTextFile(name, mimeType)
        <==> mimeType == TextPlain || (exists p :: name == p + ".txt") || (exists p :: name == p + ".md")
  {
    EndsWithIff(name, ".txt");
    EndsWithIff(name, ".md");
  }

  /** The record stored for a picked file of the given category, or None
      when its read failed and the file is dropped. */
  function Stored(f: PickedFile, category: Category): (r: Option<FileData>)
    ensures r.None? <==> f.read.None?
    ensures r.Some? ==> r.value.name == f.name && r.value.data == f.read.value && r.value.category == Some(category)
    ensures r.Some? ==> (r.value.isText <==> IsTextFile(f.name, f.mimeType))
    ensures r.Some? ==> r.value.mimeType != "" && (f.mimeType != "" ==> r.value.mimeType == f.mimeType)
    ensures r.Some? ==> r.value.extractedImages != Some([])
    ensures r.Some? && r.value.extractedImages.Some? ==> f.mimeType == PdfMimeType && f.pdfImages == r.value.extractedImages
    ensures r.Some? && f.mimeType == "" ==> r.value.mimeType == OctetStream
    ensures r.Some? && f.mimeType == PdfMimeType && f.pdfImages.Some? && f.pdfImages.value != [] ==>
              r.value.extractedImages == f.pdfImages
  {
    var images := if f.mimeType == PdfMimeType && f.pdfImages.Some? then f.pdfImages.value else [];
    match f.read
    case None => None
    case Some(data) =>
      Some(FileData(f.name, if f.mimeType == "" then OctetStream else f.mimeType, data,
                    IsTextFile(f.name, f.mimeType), if |images| > 0 then Some(images) else None, Some(category)))
  }

  /** The files a batch adds to a category list: the readable ones, in order. */
  function ReadAll(files: seq<PickedFile>, category: Category): seq<FileData>
  {
    if files == [] then []
    else
      var f := files[|files| - 1];
      ReadAll(files[..|files| - 1], category) + (if f.read.Some? then [Stored(f, category).value] else [])
  }

  lemma {:induction false} ReadAllAppend(a: seq<PickedFile>, b: seq<PickedFile>, category: Category)
    ensures ReadAll(a + b, category) == ReadAll(a, category) + ReadAll(b, category)
    decreases |b|
  {
    if b == [] {
      assert a + b == a;
    } else {
      assert (a + b)[..|a + b| - 1] == a + b[..|b| - 1];
      ReadAllAppend(a, b[..|b| - 1], category);
    }
  }

  /** A file whose read fails leaves no trace, wherever it sits in the batch. */
  lemma FailedReadDropped(a: seq<PickedFile>, f: PickedFile, b: seq<PickedFile>, category: Category)
    requires f.read.None?
    ensures ReadAll(a + [f] + b, category) == ReadAll(a + b, category)
  {
    ReadAllAppend(a + [f], b, category);
    ReadAllAppend(a, [f], category);
    ReadAllAppend(a, b, category);
    assert [f][..0] == [];
  }

  /** When every read succeeds, the k-th stored file is the k-th picked one. */
  lemma {:induction false} ReadAllKeepsOrder(files: seq<PickedFile>, category: Category)
    requires forall i :: 0 <= i < |files| ==> files[i].read.Some?
    ensures |ReadAll(files, category)| == |files|
    ensures forall k :: 0 <= k < |files| ==> ReadAll(files, category)[k] == Stored(files[k], category).value
    decreases |files|
  {
    if files != [] {
      var init, f := files[..|files| - 1], files[|files| - 1];
      ReadAllKeepsOrder(init, category);
      var r := ReadAll(files, category);
      assert r == ReadAll(init, category) + [Stored(f, category).value];
      forall k | 0 <= k < |files|
        ensures r[k] == Stored(files[k], category).value
      {
        if k < |init| {
          assert files[k] == init[k];
        }
      }
    }
  }

  /** Every stored file carries the batch's category and never an empty type. */
  lemma {:induction false} ReadAllTagged(files: seq<PickedFile>, category: Category)
    ensures |ReadAll(files, category)| <= |files|
    ensures forall k :: 0 <= k < |ReadAll(files, category)| ==>
              ReadAll(files, category)[k].category == Some(category) && ReadAll(files, category)[k].mimeType != ""
    decreases |files|
  {
    if files != [] {
      ReadAllTagged(files[..|files| - 1], category);
    }
  }

  // ---------------------------------------------------------------------
  // Pure parts of the form

  /** The list with the element at `index` filtered out (`filter((_, i) => i !== index)`). */
  function RemoveAt<T>(s: seq<T>, index: int): (r: seq<T>)
    ensures 0 <= index < |s| ==> r == s[..index] + s[index + 1..]
    ensures !(0 <= index < |s|) ==> r == s
  {
    if s == [] then []
    else
      var init := s[..|s| - 1];
      var r0 := RemoveAt(init, index);
      assert 0 <= index < |init| ==> r0 + [s[|s| - 1]] == s[..index] + s[index + 1..];
      r0 + (if index == |s| - 1 then [] else [s[|s| - 1]])
  }

  /** The new drag flag of a dropzone after an event. */
  function DragFlag(event: DragEvent, flag: bool): (r: bool)
    ensures (event == DragEnter || event == DragOver) ==> r
    ensures event == DragLeave ==> !r
    ensures event.OtherEvent? ==> r == flag
  {
    match event
    case DragEnter => true
    case DragOver => true
    case DragLeave => false
    case OtherEvent => flag
  }

  /** There is nothing to send: no file in either list and a blank text. */
  predicate NothingToSend(questionFiles: seq<FileData>, answerFiles: seq<FileData>, text: string)
  {
    |questionFiles| + |answerFiles| == 0 && IsBlank(text)
  }

  /** What the submit handler passes on, or None when it returns early. */
  function SubmitPayload(questionFiles: seq<FileData>, answerFiles: seq<FileData>, text: string): (r: Option<Submission>)
    ensures r.None? <==> questionFiles == [] && answerFiles == [] && IsBlank(text)
    ensures r.Some? ==> r.value.text == text && |r.value.files| == |questionFiles| + |answerFiles|
    ensures r.Some? ==> r.value.files[..|questionFiles|] == questionFiles && r.value.files[|questionFiles|..] == answerFiles
  {
    var allFiles := questionFiles + answerFiles;
    if |allFiles| == 0 && IsBlank(text) then None else Some(Submission(allFiles, text))
  }

  /** The submit button's `disabled` condition. */
  predicate SubmitDisabled(questionFiles: seq<FileData>, answerFiles: seq<FileData>, text: string,
                           isProcessing: bool, isReadingFiles: bool)
  {
    NothingToSend(questionFiles, answerFiles, text) || isProcessing || isReadingFiles
  }

  /** An enabled button always submits something, and a disabled one is
      disabled for one of its three reasons only. */
  lemma SubmitEnabledSends(questionFiles: seq<FileData>, answerFiles: seq<FileData>, text: string,
                           isProcessing: bool, isReadingFiles: bool)
    ensures !SubmitDisabled(questionFiles, answerFiles, text, isProcessing, isReadingFiles)
        ==> SubmitPayload(questionFiles, answerFiles, text).Some?
    ensures SubmitDisabled(questionFiles, answerFiles, text, isProcessing, isReadingFiles)
        <==> SubmitPayload(questionFiles, answerFiles, text).None? || isProcessing || isReadingFiles
  {
    var r := SubmitPayload(questionFiles, answerFiles, text);
    assert r.None? <==> NothingToSend(questionFiles, answerFiles, text);
  }

  // ---------------------------------------------------------------------
  // The component's state

  class UploadForm {
    var textInput: string
    var questionFiles: seq<FileData>
    var answerFiles: seq<FileData>
    var hasSeparateKey: bool
    var dragActiveQ: bool
    var dragActiveA: bool
    var isReadingFiles: bool

    /** The list of a category. */
    function Files(category: Category): seq<FileData>
      reads this
    {
      if category == Question then questionFiles else answerFiles
    }

    constructor ()
      ensures textInput == "" && questionFiles == [] && answerFiles == []
      ensures !hasSeparateKey && !dragActiveQ && !dragActiveA && !isReadingFiles
    {
      textInput := "";
      questionFiles := [];
      answerFiles := [];
      hasSeparateKey := false;
      dragActiveQ := false;
      dragActiveA := false;
      isReadingFiles := false;
    }

    /** `processFiles`: read each picked file in turn, keep the readable
        ones, and append them to the list of the given category. */
    method ProcessFiles(files: seq<PickedFile>, category: Category)
      modifies this
      ensures Files(category) == old(Files(category)) + ReadAll(files, category)
      ensures category == Question ==> answerFiles == old(answerFiles)
      ensures category == Answer ==> questionFiles == old(questionFiles)
      ensures !isReadingFiles
      ensures textInput == old(textInput) && hasSeparateKey == old(hasSeparateKey)
      ensures dragActiveQ == old(dragActiveQ) && dragActiveA == old(dragActiveA)
    {
      isReadingFiles := true;
      var newFiles: seq<FileData> := [];
      for i := 0 to |files|
        invariant newFiles == ReadAll(files[..i], category)
      {
        var file := files[i];
        var isTextFile := file.mimeType == TextPlain || EndsWith(file.name, ".txt") || EndsWith(file.name, ".md");
        var isPdf := file.mimeType == PdfMimeType;
        var extractedImages: seq<string> := [];
        if isPdf && file.pdfImages.Some? {
          extractedImages := file.pdfImages.value;
        }
        if file.read.Some? {
          var mimeType := if file.mimeType == "" then OctetStream else file.mimeType;
          newFiles := newFiles + [FileData(file.name, mimeType, file.read.value, isTextFile,
                                           if |extractedImages| > 0 then Some(extractedImages) else None,
                                           Some(category))];
        }
        assert files[..i + 1][..i] == files[..i];
      }
      assert files[..|files|] == files;
      if category == Question {
        questionFiles := questionFiles + newFiles;
      } else {
        answerFiles := answerFiles + newFiles;
      }
      isReadingFiles := false;
    }

    /** `removeFile`: drop the element at `index` from one list. */
    method RemoveFile(index: int, category: Category)
      modifies this
      ensures Files(category) == RemoveAt(old(Files(category)), index)
      ensures category == Question ==> answerFiles == old(answerFiles)
      ensures category == Answer ==> questionFiles == old(questionFiles)
      ensures textInput == old(textInput) && hasSeparateKey == old(hasSeparateKey) && isReadingFiles == old(isReadingFiles)
      ensures dragActiveQ == old(dragActiveQ) && dragActiveA == old(dragActiveA)
    {
      if category == Question {
        questionFiles := RemoveAt(questionFiles, index);
      } else {
        answerFiles := RemoveAt(answerFiles, index);
      }
    }

    /** `handleDrag` on the dropzone of a category. */
    method HandleDrag(event: DragEvent, zone: Category)
      modifies this
      ensures zone == Question ==> dragActiveQ == DragFlag(event, old(dragActiveQ)) && dragActiveA == old(dragActiveA)
      ensures zone == Answer ==> dragActiveA == DragFlag(event, old(dragActiveA)) && dragActiveQ == old(dragActiveQ)
      ensures textInput == old(textInput) && questionFiles == old(questionFiles) && answerFiles == old(answerFiles)
      ensures hasSeparateKey == old(hasSeparateKey) && isReadingFiles == old(isReadingFiles)
    {
      if zone == Question {
        dragActiveQ := DragFlag(event, dragActiveQ);
      } else {
        dragActiveA := DragFlag(event, dragActiveA);
      }
    }

    /** `handleDrop`: clear the zone's highlight, then process the dropped
        files if there are any. */
    method HandleDrop(files: seq<PickedFile>, zone: Category)
      modifies this
      ensures zone == Question ==> !dragActiveQ && dragActiveA == old(dragActiveA)
      ensures zone == Answer ==> !dragActiveA && dragActiveQ == old(dragActiveQ)
      ensures Files(zone) == old(Files(zone)) + ReadAll(files, zone)
      ensures zone == Question ==> answerFiles == old(answerFiles)
      ensures zone == Answer ==> questionFiles == old(questionFiles)
      ensures files == [] ==> isReadingFiles == old(isReadingFiles)
      ensures files != [] ==> !isReadingFiles
      ensures textInput == old(textInput) && hasSeparateKey == old(hasSeparateKey)
    {
      if zone == Question {
        dragActiveQ := false;
      } else {
        dragActiveA := false;
      }
      if |files| > 0 {
        ProcessFiles(files, zone);
      }
    }

    /** The file input's change handler: process the chosen files, if any. */
    method HandleChange(files: seq<PickedFile>, category: Category)
      modifies this
      ensures Files(category) == old(Files(category)) + ReadAll(files, category)
      ensures category == Question ==> answerFiles == old(answerFiles)
      ensures category == Answer ==> questionFiles == old(questionFiles)
      ensures files == [] ==> isReadingFiles == old(isReadingFiles)
      ensures files != [] ==> !isReadingFiles
      ensures textInput == old(textInput) && hasSeparateKey == old(hasSeparateKey)
      ensures dragActiveQ == old(dragActiveQ) && dragActiveA == old(dragActiveA)
    {
      if |files| > 0 {
        ProcessFiles(files, category);
      }
    }

    /** The effect that runs whenever the mode changes. */
    method ModeChanged()
      modifies this
      ensures !hasSeparateKey
      ensures textInput == old(textInput) && questionFiles == old(questionFiles) && answerFiles == old(answerFiles)
      ensures dragActiveQ == old(dragActiveQ) && dragActiveA == old(dragActiveA) && isReadingFiles == old(isReadingFiles)
    {
      hasSeparateKey := false;
    }

    /** The "Back to Menu" button, apart from its call that clears the
        application's mode: both lists are emptied and the toggle is reset. */
    method BackToMenu()
      modifies this
      ensures questionFiles == [] && answerFiles == [] && !hasSeparateKey
      ensures textInput == old(textInput) && isReadingFiles == old(isReadingFiles)
      ensures dragActiveQ == old(dragActiveQ) && dragActiveA == old(dragActiveA)
    {
      questionFiles := [];
      answerFiles := [];
      hasSeparateKey := false;
    }

    /** The separate-answer-key checkbox. */
    method ToggleSeparateKey()
      modifies this
      ensures hasSeparateKey == !old(hasSeparateKey)
      ensures textInput == old(textInput) && questionFiles == old(questionFiles) && answerFiles == old(answerFiles)
      ensures dragActiveQ == old(dragActiveQ) && dragActiveA == old(dragActiveA) && isReadingFiles == old(isReadingFiles)
    {
      hasSeparateKey := !hasSeparateKey;
    }

    /** The text box's change handler. */
    method SetText(text: string)
      modifies this
      ensures textInput == text
      ensures questionFiles == old(questionFiles) && answerFiles == old(answerFiles) && hasSeparateKey == old(hasSeparateKey)
      ensures dragActiveQ == old(dragActiveQ) && dragActiveA == old(dragActiveA) && isReadingFiles == old(isReadingFiles)
    {
      textInput := text;
    }
  }
}
