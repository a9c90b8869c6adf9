/** Assembly of the requests sent to the remote model (services/geminiService.ts).

    Each of the four builders turns the uploaded files, the pasted text and
    the diagrams extracted from PDFs into an ordered list of request parts,
    ending with its prompt. The network call, its timeout and retry, and
    the response schema are outside the model; the call's outcome is an
    input to the functions that turn a response into a result. A text part
    is modelled by the template it is rendered from and the values it
    interpolates, and a prompt body by the values it interpolates. */
module GeminiService {
  import opened Types

  /** The four builders: `solveExam`, `generateSolutionWalkthrough`,
      `analyzeExamContent` and `generatePracticeExam`. */
  datatype Builder = Solve | Walkthrough | Analysis | Practice

  /** One line of the image-context trailer: "EXTRACTED_IMAGE_k ... (From name[ - label])". */
  datatype ImageLine = ImageLine(imageNo: nat, fileName: string, labelText: Option<string>)

  /** The prompt each builder appends, with the values it interpolates. */
  datatype PromptText =
    | SolvePrompt
    | WalkthroughPrompt
    | AnalysisPrompt(fileCount: nat, mentionsRawText: bool)
    | PracticePrompt(difficulty: string, instruction: string, numQuestions: int)

  /** The text templates of the parts. */
  datatype Message =
    | RawText(heading: string, text: string)
    | FileContent(heading: string, fileNo: nat, name: string, labelText: Option<string>, data: string)
    | FileIsA(fileNo: nat, sheetLabel: string)
    | ImageCaption(imageNo: nat, fileName: string, labelText: Option<string>)
    | ImageContext(heading: string, lines: seq<ImageLine>)
    | Prompt(prompt: PromptText)

  /** A request part: text, or inline data whose payload is `undefined`
      when the data URL it was cut from has no comma. */
  datatype Part = Text(message: Message) | InlineData(mimeType: string, data: Option<string>)

  const RawTextHeading: string := "RAW TEXT INPUT:"
  const OriginalTextHeading: string := "ORIGINAL EXAM TEXT CONTENT:"
  const FileHeading: string := "FILE"
  const OriginalFileHeading: string := "ORIGINAL EXAM FILE"
  const AnalysisDiagramsHeading: string := "EXTRACTED DIAGRAMS FOR ANALYSIS:"
  const PracticeDiagramsHeading: string := "EXTRACTED DIAGRAMS FROM PDF (For Context Only):"
  const QuestionSheetLabel: string := "QUESTION SHEET"
  const AnswerKeyLabel: string := "ANSWER KEY / SOLUTIONS"
  const ProvidedAnswerKeyLabel: string := "PROVIDED ANSWER KEY / SOLUTIONS"
  const PngMimeType: string := "image/png"

  const EasyInstruction: string :=
    "Create questions that are slightly easier than the original material. Simplify complex numbers, remove one layer of logic, or provide hints."
  const HardInstruction: string :=
    "Create questions that are more challenging. Combine concepts, use tougher numbers, or require deeper synthesis of the material."
  const MirrorInstruction: string :=
    "Strictly mirror the difficulty of the original exam. The questions should feel like a 'Version B' of the original."

  const NoResponseError: string := "No response from AI"
  const SolveFallback: string := "Failed to solve exam."
  const WalkthroughFallback: string := "Failed to generate walkthrough."
  const PracticeFallback: string := "Failed to generate exam content."

  // ---------------------------------------------------------------------
  // Pure pieces

  /** The category ternary: only an answer file gets the answer-key label. */
  function CategoryLabel(category: Option<Category>, answerLabel: string): (r: string)
    requires answerLabel != QuestionSheetLabel
    ensures r == answerLabel <==> category == Some(Answer)
    ensures r != answerLabel ==> r == QuestionSheetLabel
  {
    if category == Some(Answer) then answerLabel else QuestionSheetLabel
  }

  /** The difficulty switch of `generatePracticeExam`. */
  function DifficultyInstruction(difficulty: string): (r: string)
    ensures r == EasyInstruction <==> difficulty == "Easy"
    ensures r == HardInstruction <==> difficulty == "Hard"
    ensures r == MirrorInstruction <==> difficulty != "Easy" && difficulty != "Hard"
  {
    match difficulty
    case "Easy" => EasyInstruction
    case "Hard" => HardInstruction
    case _ => MirrorInstruction
  }

  /** The text from position k up to the next comma or the end. */
  function FieldFrom(s: string, k: nat): string
    requires k <= |s|
    decreases |s| - k
  {
    if k == |s| || s[k] == ',' then [] else [s[k]] + FieldFrom(s, k + 1)
  }

  /** The field after the first comma at or after position k, if there is one. */
  function SecondFieldFrom(s: string, k: nat): Option<string>
    requires k <= |s|
    decreases |s| - k
  {
    if k == |s| then None
    else if s[k] == ',' then Some(FieldFrom(s, k + 1))
    else SecondFieldFrom(s, k + 1)
  }

  /** `s.split(",")[1]`: the text between the first comma and the next one
      (or the end), `undefined` when there is no comma. */
  function SecondField(s: string): Option<string>
  {
    SecondFieldFrom(s, 0)
  }

  lemma {:induction false} SecondFieldFromUndefined(s: string, k: nat)
    requires k <= |s|
    ensures SecondFieldFrom(s, k).None? <==> ',' !in s[k..]
    decreases |s| - k
  {
    if k < |s| && s[k] != ',' {
      SecondFieldFromUndefined(s, k + 1);
      assert s[k..] == [s[k]] + s[k + 1..];
    }
  }

  /** The second field is undefined exactly when the data has no comma. */
  lemma SecondFieldUndefined(s: string)
    ensures SecondField(s).None? <==> ',' !in s
  {
    SecondFieldFromUndefined(s, 0);
    assert s[0..] == s;
  }

  /** With no comma from position k on, the field runs to the end. */
  lemma {:induction false} FieldFromToEnd(s: string, k: nat)
    requires k <= |s| && ',' !in s[k..]
    ensures FieldFrom(s, k) == s[k..]
    decreases |s| - k
  {
    if k < |s| {
      assert s[k] in s[k..];
      assert s[k..] == [s[k]] + s[k + 1..];
      FieldFromToEnd(s, k + 1);
    }
  }

  /** With no comma in [k, c) and a comma at c, the search lands on c. */
  lemma {:induction false} SecondFieldFromSkips(s: string, k: nat, c: nat)
    requires k <= c < |s| && s[c] == ',' && ',' !in s[k..c]
    ensures SecondFieldFrom(s, k) == Some(FieldFrom(s, c + 1))
    decreases c - k
  {
    if k < c {
      assert s[k] in s[k..c];
      assert s[k + 1..c] == s[k..c][1..];
      SecondFieldFromSkips(s, k + 1, c);
    }
  }

  /** For a data URL "header,payload" with no comma in either part, the
      inline-data payload is exactly the base64 payload. */
  lemma SecondFieldOfDataUrl(header: string, payload: string)
    requires ',' !in header && ',' !in payload
    ensures SecondField(header + "," + payload) == Some(payload)
  {
    var s := header + "," + payload;
    assert s[..|header|] == header;
    assert s[|header| + 1..] == payload;
    SecondFieldFromSkips(s, 0, |header|);
    FieldFromToEnd(s, |header| + 1);
  }

  /** The inline part of one extracted image. */
  function ImageInline(img: string): Part
  {
    InlineData(PngMimeType, SecondField(img))
  }

  // ---------------------------------------------------------------------
  // Reference definitions of the requests

  /** The total number of extracted images of the files. */
  function ImageCount(files: seq<FileData>): nat
  {
    if files == [] then 0 else ImageCount(files[..|files| - 1]) + |ImagesOf(files[|files| - 1])|
  }

  /** The label a builder puts on a file, if it labels files at all. */
  function LabelOf(b: Builder, f: FileData): Option<string>
  {
    match b
    case Walkthrough => Some(CategoryLabel(f.category, ProvidedAnswerKeyLabel))
    case Analysis => Some(CategoryLabel(f.category, AnswerKeyLabel))
    case _ => None
  }

  /** The parts for file number `fileNo` itself, before its images. */
  function FileHead(b: Builder, fileNo: nat, f: FileData): seq<Part>
  {
    var heading := if b == Practice then OriginalFileHeading else FileHeading;
    if f.isText then [Text(FileContent(heading, fileNo, f.name, LabelOf(b, f), f.data))]
    else if b == Walkthrough || b == Analysis then
      [InlineData(f.mimeType, SecondField(f.data)), Text(FileIsA(fileNo, LabelOf(b, f).value))]
    else [InlineData(f.mimeType, SecondField(f.data))]
  }

  /** The inline parts of a file's extracted images, in order. */
  function Inlines(imgs: seq<string>): (r: seq<Part>)
    ensures |r| == |imgs|
    ensures forall k :: 0 <= k < |r| ==> r[k].InlineData?
  {
    seq(|imgs|, k requires 0 <= k < |imgs| => ImageInline(imgs[k]))
  }

  /** The parts for image number `imageNo` of file f, whose inline part is `inline`. */
  function ImageParts(b: Builder, f: FileData, inline: Part, imageNo: nat): seq<Part>
  {
    if b == Solve || b == Walkthrough then [inline, Text(ImageCaption(imageNo, f.name, LabelOf(b, f)))]
    else [inline]
  }

  /** The parts for the images of file f given by their inline parts,
      numbered from `first`. */
  function ImagesPartsFrom(b: Builder, f: FileData, inlines: seq<Part>, first: nat): seq<Part>
  {
    if inlines == [] then []
    else ImagesPartsFrom(b, f, inlines[..|inlines| - 1], first)
         + ImageParts(b, f, inlines[|inlines| - 1], first + |inlines| - 1)
  }

  /** The parts for the images `imgs` of file f, numbered from `first`. */
  function ImagesParts(b: Builder, f: FileData, imgs: seq<string>, first: nat): seq<Part>
  {
    ImagesPartsFrom(b, f, Inlines(imgs), first)
  }

  /** Where a builder starts numbering the images of the file after `files`:
      `solveExam` restarts at 0 for each file, the others count on. */
  function FirstImageNo(b: Builder, files: seq<FileData>): nat
  {
    if b == Solve then 0 else ImageCount(files)
  }

  /** The parts of all files, in file order, each file's images after it. */
  function FilesParts(b: Builder, files: seq<FileData>): seq<Part>
  {
    if files == [] then []
    else
      var init, f := files[..|files| - 1], files[|files| - 1];
      FilesParts(b, init) + FileHead(b, |files|, f) + ImagesParts(b, f, ImagesOf(f), FirstImageNo(b, init))
  }

  /** The trailer lines for m images of file f, numbered from `first`. */
  function LinesOf(b: Builder, f: FileData, m: nat, first: nat): seq<ImageLine>
  {
    if m == 0 then [] else LinesOf(b, f, m - 1, first) + [ImageLine(first + m - 1, f.name, LabelOf(b, f))]
  }

  /** The trailer lines of all files. */
  function ImageLines(b: Builder, files: seq<FileData>): seq<ImageLine>
  {
    if files == [] then []
    else
      var init, f := files[..|files| - 1], files[|files| - 1];
      ImageLines(b, init) + LinesOf(b, f, |ImagesOf(f)|, ImageCount(init))
  }

  /** The raw-text part, present only when the text has non-whitespace content. */
  function RawTextParts(b: Builder, rawText: string): seq<Part>
  {
    if IsBlank(rawText) then []
    else [Text(RawText(if b == Practice then OriginalTextHeading else RawTextHeading, rawText))]
  }

  /** The image-context trailer of the analysis and practice builders,
      present only when some file has an extracted image. */
  function ContextParts(b: Builder, files: seq<FileData>): seq<Part>
  {
    if (b == Analysis || b == Practice) && ImageCount(files) > 0 then
      [Text(ImageContext(if b == Analysis then AnalysisDiagramsHeading else PracticeDiagramsHeading,
                         ImageLines(b, files)))]
    else []
  }

  /** The whole request of a builder: raw text, files, trailer, prompt. */
  function Request(b: Builder, files: seq<FileData>, rawText: string, prompt: PromptText): seq<Part>
  {
    RawTextParts(b, rawText) + FilesParts(b, files) + ContextParts(b, files) + [Text(Prompt(prompt))]
  }

  // ---------------------------------------------------------------------
  // Unfolding steps used by the builders' loops

  lemma FilesPartsStep(b: Builder, raw: seq<Part>, files: seq<FileData>, i: nat)
    requires i < |files|
    ensures raw + FilesParts(b, files[..i + 1])
         == raw + FilesParts(b, files[..i]) + FileHead(b, i + 1, files[i])
            + ImagesParts(b, files[i], ImagesOf(files[i]), FirstImageNo(b, files[..i]))
    ensures ImageCount(files[..i + 1]) == ImageCount(files[..i]) + |ImagesOf(files[i])|
    ensures ImageLines(b, files[..i + 1])
         == ImageLines(b, files[..i]) + LinesOf(b, files[i], |ImagesOf(files[i])|, ImageCount(files[..i]))
  {
    var init := files[..i + 1][..i];
    assert init == files[..i];
    var head, own := FileHead(b, i + 1, files[i]), ImagesParts(b, files[i], ImagesOf(files[i]), FirstImageNo(b, init));
    assert FilesParts(b, files[..i + 1]) == FilesParts(b, init) + head + own;
    AppendAssoc(raw, FilesParts(b, init), head, own);
  }

  lemma AppendAssoc(r: seq<Part>, a: seq<Part>, b: seq<Part>, c: seq<Part>)
    ensures r + (a + b + c) == r + a + b + c
  {
  }

  lemma ImagesPartsStep(b: Builder, f: FileData, inlines: seq<Part>, first: nat, j: nat)
    requires j < |inlines|
    ensures ImagesPartsFrom(b, f, inlines[..j + 1], first)
         == ImagesPartsFrom(b, f, inlines[..j], first) + ImageParts(b, f, inlines[j], first + j)
  {
    assert inlines[..j + 1][..j] == inlines[..j];
  }

  /** One more image of a captioning builder: its inline part and its caption. */
  lemma CaptionedImageStep(parts: seq<Part>, b: Builder, f: FileData, inlines: seq<Part>, first: nat, j: nat)
    requires b == Solve || b == Walkthrough
    requires j < |inlines|
    ensures parts + ImagesPartsFrom(b, f, inlines[..j + 1], first)
         == parts + ImagesPartsFrom(b, f, inlines[..j], first)
            + [inlines[j], Text(ImageCaption(first + j, f.name, LabelOf(b, f)))]
  {
    ImagesPartsStep(b, f, inlines, first, j);
  }

  /** One more image of a listing builder: its inline part and its trailer line. */
  lemma ListedImageStep(parts: seq<Part>, context: seq<ImageLine>, b: Builder, f: FileData,
                        inlines: seq<Part>, first: nat, j: nat)
    requires b == Analysis || b == Practice
    requires j < |inlines|
    ensures parts + ImagesPartsFrom(b, f, inlines[..j + 1], first)
         == parts + ImagesPartsFrom(b, f, inlines[..j], first) + [inlines[j]]
    ensures context + LinesOf(b, f, j + 1, first)
         == context + LinesOf(b, f, j, first) + [ImageLine(first + j, f.name, LabelOf(b, f))]
  {
    ImagesPartsStep(b, f, inlines, first, j);
  }

  /** A request is assembled from its raw-text part, its file parts, its
      trailer and its prompt. */
  lemma RequestParts(b: Builder, files: seq<FileData>, rawText: string, prompt: PromptText,
                     raw: seq<Part>, ctx: seq<Part>)
    requires raw == RawTextParts(b, rawText) && ctx == ContextParts(b, files)
    ensures Request(b, files, rawText, prompt) == raw + FilesParts(b, files) + ctx + [Text(Prompt(prompt))]
  {
  }

  // ---------------------------------------------------------------------
  // The four builders

  /** The image loop of `solveExam` and `generateSolutionWalkthrough`: each
      extracted image of the file, followed by its caption numbered from
      `first`. */
  method PushCaptionedImages(parts: seq<Part>, b: Builder, file: FileData, first: nat)
    returns (out: seq<Part>, next: nat)
    requires b == Solve || b == Walkthrough
    ensures out == parts + ImagesParts(b, file, ImagesOf(file), first)
    ensures next == first + |ImagesOf(file)|
  {
    out, next := parts, first;
    var imgs := ImagesOf(file);
    ghost var inlines := Inlines(imgs);
    var fileLabel := LabelOf(b, file);
    for idx := 0 to |imgs|
      invariant out == parts + ImagesPartsFrom(b, file, inlines[..idx], first)
      invariant next == first + idx
    {
      CaptionedImageStep(parts, b, file, inlines, first, idx);
      assert inlines[idx] == ImageInline(imgs[idx]);
      out := out + [ImageInline(imgs[idx]), Text(ImageCaption(next, file.name, fileLabel))];
      next := next + 1;
    }
    assert inlines[..|imgs|] == inlines;
  }

  /** The image loop of `analyzeExamContent` and `generatePracticeExam`:
      each extracted image of the file, each also listed in the image-context
      trailer under a number counted on from `first`. */
  method PushListedImages(parts: seq<Part>, context: seq<ImageLine>, b: Builder, file: FileData, first: nat)
    returns (out: seq<Part>, nextContext: seq<ImageLine>, next: nat)
    requires b == Analysis || b == Practice
    ensures out == parts + ImagesParts(b, file, ImagesOf(file), first)
    ensures nextContext == context + LinesOf(b, file, |ImagesOf(file)|, first)
    ensures next == first + |ImagesOf(file)|
  {
    out, nextContext, next := parts, context, first;
    var imgs := ImagesOf(file);
    ghost var inlines := Inlines(imgs);
    var fileLabel := LabelOf(b, file);
    for idx := 0 to |imgs|
      invariant out == parts + ImagesPartsFrom(b, file, inlines[..idx], first)
      invariant nextContext == context + LinesOf(b, file, idx, first)
      invariant next == first + idx
    {
      ListedImageStep(parts, context, b, file, inlines, first, idx);
      assert inlines[idx] == ImageInline(imgs[idx]);
      out := out + [ImageInline(imgs[idx])];
      nextContext := nextContext + [ImageLine(next, file.name, fileLabel)];
      next := next + 1;
    }
    assert inlines[..|imgs|] == inlines;
  }

  /** One iteration of the file loop of `solveExam`: the file's parts, then
      each extracted image followed by its caption numbered within the file. */
  method PushSolveFile(parts: seq<Part>, i: nat, file: FileData) returns (out: seq<Part>)
    ensures out == parts + FileHead(Solve, i + 1, file) + ImagesParts(Solve, file, ImagesOf(file), 0)
  {
    if file.isText {
      out := parts + [Text(FileContent(FileHeading, i + 1, file.name, None, file.data))];
    } else {
      out := parts + [InlineData(file.mimeType, SecondField(file.data))];
    }
    if file.extractedImages.Some? && |file.extractedImages.value| > 0 {
      var imageCount;
      out, imageCount := PushCaptionedImages(out, Solve, file, 0);
    }
  }

  /** `solveExam`: raw text, each file in order, then the prompt. */
  method SolveParts(files: seq<FileData>, rawText: string) returns (parts: seq<Part>)
    ensures parts == Request(Solve, files, rawText, SolvePrompt)
  {
    parts := [];
    if !IsBlank(rawText) {
      parts := parts + [Text(RawText(RawTextHeading, rawText))];
    }
    ghost var raw := parts;
    assert raw == RawTextParts(Solve, rawText);
    for i := 0 to |files|
      invariant parts == raw + FilesParts(Solve, files[..i])
    {
      parts := PushSolveFile(parts, i, files[i]);
      FilesPartsStep(Solve, raw, files, i);
    }
    assert files[..|files|] == files;
    parts := parts + [Text(Prompt(SolvePrompt))];
    RequestParts(Solve, files, rawText, SolvePrompt, raw, []);
  }

  /** One iteration of the file loop of `generateSolutionWalkthrough`: the
      labelled file, then each extracted image with a caption numbered by
      the counter shared across files. */
  method PushWalkthroughFile(parts: seq<Part>, globalImageIndex: nat, i: nat, file: FileData)
    returns (out: seq<Part>, nextImageIndex: nat)
    ensures out == parts + FileHead(Walkthrough, i + 1, file)
                   + ImagesParts(Walkthrough, file, ImagesOf(file), globalImageIndex)
    ensures nextImageIndex == globalImageIndex + |ImagesOf(file)|
  {
    var categoryLabel := CategoryLabel(file.category, ProvidedAnswerKeyLabel);
    if file.isText {
      out := parts + [Text(FileContent(FileHeading, i + 1, file.name, Some(categoryLabel), file.data))];
    } else {
      out := parts + [InlineData(file.mimeType, SecondField(file.data)), Text(FileIsA(i + 1, categoryLabel))];
    }
    nextImageIndex := globalImageIndex;
    if file.extractedImages.Some? && |file.extractedImages.value| > 0 {
      out, nextImageIndex := PushCaptionedImages(out, Walkthrough, file, globalImageIndex);
    }
  }

  /** `generateSolutionWalkthrough`: raw text, each labelled file in order
      with one image counter across all files, then the prompt. */
  method WalkthroughParts(files: seq<FileData>, rawText: string) returns (parts: seq<Part>)
    ensures parts == Request(Walkthrough, files, rawText, WalkthroughPrompt)
  {
    parts := [];
    if !IsBlank(rawText) {
      parts := parts + [Text(RawText(RawTextHeading, rawText))];
    }
    ghost var raw := parts;
    assert raw == RawTextParts(Walkthrough, rawText);
    var globalImageIndex := 0;
    for i := 0 to |files|
      invariant parts == raw + FilesParts(Walkthrough, files[..i])
      invariant globalImageIndex == ImageCount(files[..i])
    {
      parts, globalImageIndex := PushWalkthroughFile(parts, globalImageIndex, i, files[i]);
      FilesPartsStep(Walkthrough, raw, files, i);
    }
    assert files[..|files|] == files;
    parts := parts + [Text(Prompt(WalkthroughPrompt))];
    RequestParts(Walkthrough, files, rawText, WalkthroughPrompt, raw, []);
  }

  /** One iteration of the file loop of `analyzeExamContent`: the labelled
      file, then each extracted image, each also listed in the image-context
      trailer under the counter shared across files. */
  method PushAnalysisFile(parts: seq<Part>, globalImageIndex: nat, imageContext: seq<ImageLine>,
                         hasImages: bool, i: nat, file: FileData)
    returns (out: seq<Part>, nextImageIndex: nat, nextContext: seq<ImageLine>, nextHasImages: bool)
    ensures out == parts + FileHead(Analysis, i + 1, file) + ImagesParts(Analysis, file, ImagesOf(file), globalImageIndex)
    ensures nextImageIndex == globalImageIndex + |ImagesOf(file)|
    ensures nextContext == imageContext + LinesOf(Analysis, file, |ImagesOf(file)|, globalImageIndex)
    ensures nextHasImages <==> hasImages || |ImagesOf(file)| > 0
  {
    var categoryLabel := CategoryLabel(file.category, AnswerKeyLabel);
    if file.isText {
      out := parts + [Text(FileContent(FileHeading, i + 1, file.name, Some(categoryLabel), file.data))];
    } else {
      out := parts + [InlineData(file.mimeType, SecondField(file.data)), Text(FileIsA(i + 1, categoryLabel))];
    }
    nextImageIndex, nextContext, nextHasImages := globalImageIndex, imageContext, hasImages;
    if file.extractedImages.Some? && |file.extractedImages.value| > 0 {
      out, nextContext, nextImageIndex := PushListedImages(out, imageContext, Analysis, file, globalImageIndex);
      nextHasImages := true;
    }
  }

  /** One iteration of the file loop of `generatePracticeExam`: the file
      under the original-exam heading, then each extracted image, each also
      listed in the image-context trailer under the shared counter. */
  method PushPracticeFile(parts: seq<Part>, globalImageIndex: nat, imageContext: seq<ImageLine>,
                         hasImages: bool, i: nat, file: FileData)
    returns (out: seq<Part>, nextImageIndex: nat, nextContext: seq<ImageLine>, nextHasImages: bool)
    ensures out == parts + FileHead(Practice, i + 1, file) + ImagesParts(Practice, file, ImagesOf(file), globalImageIndex)
    ensures nextImageIndex == globalImageIndex + |ImagesOf(file)|
    ensures nextContext == imageContext + LinesOf(Practice, file, |ImagesOf(file)|, globalImageIndex)
    ensures nextHasImages <==> hasImages || |ImagesOf(file)| > 0
  {
    if file.isText {
      out := parts + [Text(FileContent(OriginalFileHeading, i + 1, file.name, None, file.data))];
    } else {
      out := parts + [InlineData(file.mimeType, SecondField(file.data))];
    }
    nextImageIndex, nextContext, nextHasImages := globalImageIndex, imageContext, hasImages;
    if file.extractedImages.Some? && |file.extractedImages.value| > 0 {
      out, nextContext, nextImageIndex := PushListedImages(out, imageContext, Practice, file, globalImageIndex);
      nextHasImages := true;
    }
  }

  /** `analyzeExamContent`: raw text, each labelled file in order, the
      image-context trailer when some image was extracted, and the prompt,
      which goes last. */
  method AnalysisParts(files: seq<FileData>, rawText: string) returns (parts: seq<Part>)
    ensures parts == Request(Analysis, files, rawText, AnalysisPrompt(|files|, rawText != ""))
  {
    var prompt := AnalysisPrompt(|files|, rawText != "");
    parts := [];
    if !IsBlank(rawText) {
      parts := parts + [Text(RawText(RawTextHeading, rawText))];
    }
    ghost var raw := parts;
    assert raw == RawTextParts(Analysis, rawText);
    var globalImageIndex := 0;
    var imageContext: seq<ImageLine> := [];
    var hasImages := false;
    for i := 0 to |files|
      invariant parts == raw + FilesParts(Analysis, files[..i])
      invariant globalImageIndex == ImageCount(files[..i])
      invariant imageContext == ImageLines(Analysis, files[..i])
      invariant hasImages <==> globalImageIndex > 0
    {
      parts, globalImageIndex, imageContext, hasImages :=
        PushAnalysisFile(parts, globalImageIndex, imageContext, hasImages, i, files[i]);
      FilesPartsStep(Analysis, raw, files, i);
    }
    assert files[..|files|] == files;
    ghost var body := parts;
    if hasImages {
      parts := parts + [Text(ImageContext(AnalysisDiagramsHeading, imageContext))];
    }
    ghost var ctx := ContextParts(Analysis, files);
    assert parts == body + ctx;
    parts := parts + [Text(Prompt(prompt))];
    RequestParts(Analysis, files, rawText, prompt, raw, ctx);
  }

  /** `generatePracticeExam`: original text, each file in order, the
      image-context trailer when some image was extracted, and the prompt
      carrying the difficulty and its instruction. */
  method PracticeParts(files: seq<FileData>, originalText: string, difficulty: string, numQuestions: int)
    returns (parts: seq<Part>)
    ensures parts == Request(Practice, files, originalText,
                             PracticePrompt(difficulty, DifficultyInstruction(difficulty), numQuestions))
  {
    parts := [];
    if !IsBlank(originalText) {
      parts := parts + [Text(RawText(OriginalTextHeading, originalText))];
    }
    ghost var raw := parts;
    assert raw == RawTextParts(Practice, originalText);
    var globalImageIndex := 0;
    var imageContext: seq<ImageLine> := [];
    var hasImages := false;
    for i := 0 to |files|
      invariant parts == raw + FilesParts(Practice, files[..i])
      invariant globalImageIndex == ImageCount(files[..i])
      invariant imageContext == ImageLines(Practice, files[..i])
      invariant hasImages <==> globalImageIndex > 0
    {
      parts, globalImageIndex, imageContext, hasImages :=
        PushPracticeFile(parts, globalImageIndex, imageContext, hasImages, i, files[i]);
      FilesPartsStep(Practice, raw, files, i);
    }
    assert files[..|files|] == files;
    ghost var body := parts;
    if hasImages {
      parts := parts + [Text(ImageContext(PracticeDiagramsHeading, imageContext))];
    }
    ghost var ctx := ContextParts(Practice, files);
    assert parts == body + ctx;
    var difficultyInstruction := DifficultyInstruction(difficulty);
    parts := parts + [Text(Prompt(PracticePrompt(difficulty, difficultyInstruction, numQuestions)))];
    RequestParts(Practice, files, originalText, PracticePrompt(difficulty, difficultyInstruction, numQuestions), raw, ctx);
  }

  // ---------------------------------------------------------------------
  // Responses

  /** The end of `analyzeExamContent`: a failed call is re-thrown, an empty
      or missing response text raises "No response from AI", and otherwise
      the outcome of `JSON.parse` on the text is returned unchecked. */
  function AnalysisOutcome(call: Result<Option<string>>, parsed: Result<AnalysisResult>): (r: Result<AnalysisResult>)
    ensures call.Failure? ==> r == Failure(call.message)
    ensures call.Success? && (call.value.None? || call.value.value == "") ==> r == Failure(NoResponseError)
    ensures r.Success? ==> call.Success? && call.value.Some? && call.value.value != "" && r == parsed
  {
    match call
    case Failure(e) => Failure(e)
    case Success(text) =>
      if text.None? || text.value == "" then Failure(NoResponseError) else parsed
  }

  /** The end of the three text builders, `response.text || fallback`: a
      failed call is re-thrown, and a successful one never yields an empty
      text. */
  function TextOutcome(call: Result<Option<string>>, fallback: string): (r: Result<string>)
    requires fallback != ""
    ensures r.Success? <==> call.Success?
    ensures r.Failure? ==> r == Failure(call.message)
    ensures r.Success? ==> r.value != ""
    ensures r.Success? && call.value.Some? && call.value.value != "" ==> r.value == call.value.value
    ensures r.Success? && (call.value.None? || call.value.value == "") ==> r.value == fallback
  {
    match call
    case Failure(e) => Failure(e)
    case Success(text) => if text.None? || text.value == "" then Success(fallback) else Success(text.value)
  }

  // ---------------------------------------------------------------------
  // Properties of the requests

  /** A part that belongs to some file: its content, its context note, or
      one of its images and captions. */
  predicate IsFilePart(p: Part)
  {
    p.InlineData? || p.message.FileContent? || p.message.FileIsA? || p.message.ImageCaption?
  }

  lemma {:induction false} ImagesPartsAreFileParts(b: Builder, f: FileData, inlines: seq<Part>, first: nat)
    requires forall k :: 0 <= k < |inlines| ==> inlines[k].InlineData?
    ensures forall k :: 0 <= k < |ImagesPartsFrom(b, f, inlines, first)| ==> IsFilePart(ImagesPartsFrom(b, f, inlines, first)[k])
    decreases |inlines|
  {
    if inlines != [] {
      ImagesPartsAreFileParts(b, f, inlines[..|inlines| - 1], first);
    }
  }

  lemma {:induction false} FilesPartsAreFileParts(b: Builder, files: seq<FileData>)
    ensures forall k :: 0 <= k < |FilesParts(b, files)| ==> IsFilePart(FilesParts(b, files)[k])
    decreases |files|
  {
    if files != [] {
      var init, f := files[..|files| - 1], files[|files| - 1];
      FilesPartsAreFileParts(b, init);
      ImagesPartsAreFileParts(b, f, Inlines(ImagesOf(f)), FirstImageNo(b, init));
    }
  }

  /** The layout of raw text, file parts, an optional trailer and a last
      part, whatever their contents. */
  lemma PartsLayout(raw: seq<Part>, body: seq<Part>, ctx: seq<Part>, last: Part)
    requires raw == [] || (|raw| == 1 && raw[0].Text? && raw[0].message.RawText?)
    requires forall k :: 0 <= k < |body| ==> IsFilePart(body[k])
    requires ctx == [] || (|ctx| == 1 && ctx[0].Text? && ctx[0].message.ImageContext?)
    requires last.Text? && last.message.Prompt?
    ensures var r := raw + body + ctx + [last];
      && r[|r| - 1] == last
      && (raw != [] <==> r[0].Text? && r[0].message.RawText?)
      && (raw != [] ==> r[0] == raw[0])
      && (forall k :: 0 < k < |r| ==> !(r[k].Text? && r[k].message.RawText?))
      && (forall k :: 0 <= k < |r| - 1 ==> !(r[k].Text? && r[k].message.Prompt?))
      && ((exists k :: 0 <= k < |r| && r[k].Text? && r[k].message.ImageContext?) <==> ctx != [])
      && (ctx != [] ==> r[|r| - 2] == ctx[0])
  {
    var r := raw + body + ctx + [last];
    forall k | |raw| <= k < |raw| + |body|
      ensures r[k] == body[k - |raw|]
    {
    }
    if exists k :: 0 <= k < |r| && r[k].Text? && r[k].message.ImageContext? {
      var k :| 0 <= k < |r| && r[k].Text? && r[k].message.ImageContext?;
      assert k >= |raw| + |body|;
    }
    if ctx != [] {
      assert r[|r| - 2] == ctx[0];
    }
  }

  /** The layout every builder produces: the raw-text part comes first and
      exists exactly when the text has non-whitespace content; the prompt is
      last; the image-context trailer is present exactly for the analysis
      and practice builders when some image was extracted, and sits just
      before the prompt; everything in between belongs to a file. */
  lemma RequestLayout(b: Builder, files: seq<FileData>, rawText: string, prompt: PromptText)
    ensures var r := Request(b, files, rawText, prompt);
      && |r| > 0 && r[|r| - 1] == Text(Prompt(prompt))
      && (!IsBlank(rawText) <==> r[0].Text? && r[0].message.RawText?)
      && (!IsBlank(rawText) ==> r[0].message.text == rawText)
      && (forall k :: 0 < k < |r| ==> !(r[k].Text? && r[k].message.RawText?))
      && (forall k :: 0 <= k < |r| - 1 ==> !(r[k].Text? && r[k].message.Prompt?))
      && ((exists k :: 0 <= k < |r| && r[k].Text? && r[k].message.ImageContext?)
          <==> (b == Analysis || b == Practice) && ImageCount(files) > 0)
      && ((b == Analysis || b == Practice) && ImageCount(files) > 0 ==>
          r[|r| - 2] == Text(ImageContext(if b == Analysis then AnalysisDiagramsHeading else PracticeDiagramsHeading,
                                           ImageLines(b, files))))
  {
    var raw, body, ctx := RawTextParts(b, rawText), FilesParts(b, files), ContextParts(b, files);
    FilesPartsAreFileParts(b, files);
    PartsLayout(raw, body, ctx, Text(Prompt(prompt)));
  }

  /** The trailer lines of one file are numbered first, first+1, ... */
  lemma {:induction false} LinesOfNumbered(b: Builder, f: FileData, m: nat, first: nat)
    ensures |LinesOf(b, f, m, first)| == m
    ensures forall j :: 0 <= j < m ==>
              LinesOf(b, f, m, first)[j].imageNo == first + j && LinesOf(b, f, m, first)[j].fileName == f.name
  {
    if m > 0 {
      LinesOfNumbered(b, f, m - 1, first);
    }
  }

  /** The image-context trailer names EXTRACTED_IMAGE_0 .. EXTRACTED_IMAGE_(N-1)
      in file-then-image order, N being the number of extracted images. */
  lemma {:induction false} ImageLinesNumbered(b: Builder, files: seq<FileData>)
    ensures |ImageLines(b, files)| == ImageCount(files)
    ensures forall k :: 0 <= k < ImageCount(files) ==> ImageLines(b, files)[k].imageNo == k
    decreases |files|
  {
    if files != [] {
      var init, f := files[..|files| - 1], files[|files| - 1];
      ImageLinesNumbered(b, init);
      LinesOfNumbered(b, f, |ImagesOf(f)|, ImageCount(init));
    }
  }

  /** The caption number a part carries, if it is an image caption. */
  function CaptionOf(p: Part): seq<int>
  {
    if p.Text? && p.message.ImageCaption? then [p.message.imageNo] else []
  }

  /** The numbers of the image captions in a list of parts, in order. */
  function CaptionNumbers(ps: seq<Part>): seq<int>
  {
    ConcatMap(CaptionOf, ps)
  }

  /** The captions of one or two parts are theirs, in order. */
  lemma CaptionNumbersShort(p: Part, q: Part)
    ensures CaptionNumbers([p]) == CaptionOf(p)
    ensures CaptionNumbers([p, q]) == CaptionOf(p) + CaptionOf(q)
  {
    assert [p][..0] == [];
    assert ConcatMap(CaptionOf, [p]) == ConcatMap(CaptionOf, []) + CaptionOf(p);
    assert [p, q][..1] == [p];
    assert ConcatMap(CaptionOf, [p, q]) == ConcatMap(CaptionOf, [p]) + CaptionOf(q);
  }

  lemma CaptionNumbersAppend(a: seq<Part>, c: seq<Part>)
    ensures CaptionNumbers(a + c) == CaptionNumbers(a) + CaptionNumbers(c)
  {
    ConcatMapAppend(CaptionOf, a, c);
  }

  /** lo, lo+1, ..., hi-1 */
  function Range(lo: nat, hi: nat): (r: seq<int>)
    ensures |r| == if lo <= hi then hi - lo else 0
  {
    if lo >= hi then [] else Range(lo, hi - 1) + [hi - 1]
  }

  /** One image of a captioning builder adds its caption number. */
  lemma ImagePartsCaptions(b: Builder, f: FileData, inline: Part, imageNo: nat)
    requires b == Solve || b == Walkthrough
    requires inline.InlineData?
    ensures CaptionNumbers(ImageParts(b, f, inline, imageNo)) == [imageNo]
  {
    var caption := Text(ImageCaption(imageNo, f.name, LabelOf(b, f)));
    assert ImageParts(b, f, inline, imageNo) == [inline, caption];
    CaptionNumbersShort(inline, caption);
  }

  /** The images of one file under a captioning builder carry the captions
      first, first+1, ... in order. */
  lemma {:induction false} ImagesPartsCaptions(b: Builder, f: FileData, inlines: seq<Part>, first: nat)
    requires b == Solve || b == Walkthrough
    requires forall k :: 0 <= k < |inlines| ==> inlines[k].InlineData?
    ensures CaptionNumbers(ImagesPartsFrom(b, f, inlines, first)) == Range(first, first + |inlines|)
    decreases |inlines|
  {
    if inlines == [] {
      assert ImagesPartsFrom(b, f, inlines, first) == [];
    } else {
      var init, n := inlines[..|inlines| - 1], first + |inlines| - 1;
      var head, last := ImagesPartsFrom(b, f, init, first), ImageParts(b, f, inlines[|inlines| - 1], n);
      assert ImagesPartsFrom(b, f, inlines, first) == head + last;
      assert CaptionNumbers(head) == Range(first, n) by {
        ImagesPartsCaptions(b, f, init, first);
      }
      assert CaptionNumbers(last) == [n] by {
        ImagePartsCaptions(b, f, inlines[|inlines| - 1], n);
      }
      assert CaptionNumbers(head + last) == CaptionNumbers(head) + CaptionNumbers(last) by {
        CaptionNumbersAppend(head, last);
      }
      assert Range(first, n + 1) == Range(first, n) + [n];
    }
  }

  lemma FileHeadHasNoCaption(b: Builder, fileNo: nat, f: FileData)
    ensures CaptionNumbers(FileHead(b, fileNo, f)) == []
  {
    var heading := if b == Practice then OriginalFileHeading else FileHeading;
    var content := Text(FileContent(heading, fileNo, f.name, LabelOf(b, f), f.data));
    var inline := InlineData(f.mimeType, SecondField(f.data));
    if f.isText {
      CaptionNumbersShort(content, content);
    } else if b == Walkthrough || b == Analysis {
      CaptionNumbersShort(inline, Text(FileIsA(fileNo, LabelOf(b, f).value)));
    } else {
      CaptionNumbersShort(inline, inline);
    }
  }

  /** Only the images of the last file add captions. */
  lemma FilesPartsCaptionsStep(b: Builder, files: seq<FileData>)
    requires files != []
    ensures var init, f := files[..|files| - 1], files[|files| - 1];
      CaptionNumbers(FilesParts(b, files))
      == CaptionNumbers(FilesParts(b, init)) + CaptionNumbers(ImagesParts(b, f, ImagesOf(f), FirstImageNo(b, init)))
  {
    var init, f := files[..|files| - 1], files[|files| - 1];
    var head, imgs := FileHead(b, |files|, f), ImagesParts(b, f, ImagesOf(f), FirstImageNo(b, init));
    CaptionNumbersAppend(FilesParts(b, init) + head, imgs);
    CaptionNumbersAppend(FilesParts(b, init), head);
    FileHeadHasNoCaption(b, |files|, f);
  }

  lemma {:induction false} RangeAppend(lo: nat, mid: nat, hi: nat)
    requires lo <= mid <= hi
    ensures Range(lo, mid) + Range(mid, hi) == Range(lo, hi)
    decreases hi
  {
    if mid < hi {
      RangeAppend(lo, mid, hi - 1);
      assert Range(lo, mid) + Range(mid, hi) == Range(lo, mid) + Range(mid, hi - 1) + [hi - 1];
    } else {
      assert Range(mid, hi) == [];
    }
  }

  /** The caption numbers of the images of `files`, file by file, each file
      numbered from where the builder starts it. */
  function FilesCaptions(b: Builder, files: seq<FileData>): seq<int>
  {
    if files == [] then []
    else
      var init, f := files[..|files| - 1], files[|files| - 1];
      FilesCaptions(b, init) + Range(FirstImageNo(b, init), FirstImageNo(b, init) + |ImagesOf(f)|)
  }

  lemma FileImagesCaptions(b: Builder, f: FileData, imgs: seq<string>, first: nat)
    requires b == Solve || b == Walkthrough
    ensures CaptionNumbers(ImagesParts(b, f, imgs, first)) == Range(first, first + |imgs|)
  {
    ImagesPartsCaptions(b, f, Inlines(imgs), first);
  }

  lemma FilesCaptionsSnoc(b: Builder, files: seq<FileData>)
    requires files != []
    ensures FilesCaptions(b, files)
         == FilesCaptions(b, files[..|files| - 1])
            + Range(FirstImageNo(b, files[..|files| - 1]),
                    FirstImageNo(b, files[..|files| - 1]) + |ImagesOf(files[|files| - 1])|)
  {
  }

  /** One more file of a captioning builder extends the captions by its own. */
  lemma FilesPartsCaptionsSnoc(b: Builder, files: seq<FileData>)
    requires b == Solve || b == Walkthrough
    requires files != []
    requires CaptionNumbers(FilesParts(b, files[..|files| - 1])) == FilesCaptions(b, files[..|files| - 1])
    ensures CaptionNumbers(FilesParts(b, files)) == FilesCaptions(b, files)
  {
    var init, f := files[..|files| - 1], files[|files| - 1];
    var first := FirstImageNo(b, init);
    var own := CaptionNumbers(ImagesParts(b, f, ImagesOf(f), first));
    assert CaptionNumbers(FilesParts(b, files)) == CaptionNumbers(FilesParts(b, init)) + own by {
      FilesPartsCaptionsStep(b, files);
    }
    var range := Range(first, first + |ImagesOf(f)|);
    assert own == range by {
      FileImagesCaptions(b, f, ImagesOf(f), first);
    }
    assert FilesCaptions(b, files) == FilesCaptions(b, init) + range by {
      FilesCaptionsSnoc(b, files);
    }
  }

  /** A captioning builder captions each file's images with consecutive numbers. */
  lemma {:induction false} FilesPartsCaptions(b: Builder, files: seq<FileData>)
    requires b == Solve || b == Walkthrough
    ensures CaptionNumbers(FilesParts(b, files)) == FilesCaptions(b, files)
    decreases |files|
  {
    if files == [] {
      assert FilesParts(b, files) == [];
    } else {
      FilesPartsCaptions(b, files[..|files| - 1]);
      FilesPartsCaptionsSnoc(b, files);
    }
  }

  lemma {:induction false} WalkthroughRanges(files: seq<FileData>)
    ensures FilesCaptions(Walkthrough, files) == Range(0, ImageCount(files))
    decreases |files|
  {
    if files != [] {
      var init, f := files[..|files| - 1], files[|files| - 1];
      WalkthroughRanges(init);
      RangeAppend(0, ImageCount(init), ImageCount(files));
    }
  }

  /** In the walkthrough the captions count 0, 1, ..., N-1 across all files. */
  lemma WalkthroughCaptionsConsecutive(files: seq<FileData>)
    ensures CaptionNumbers(FilesParts(Walkthrough, files)) == Range(0, ImageCount(files))
  {
    FilesPartsCaptions(Walkthrough, files);
    WalkthroughRanges(files);
  }

  /** The per-file numbering of `solveExam`: 0..m_1-1, then 0..m_2-1, ... */
  function PerFileRanges(files: seq<FileData>): seq<int>
  {
    if files == [] then [] else PerFileRanges(files[..|files| - 1]) + Range(0, |ImagesOf(files[|files| - 1])|)
  }

  lemma {:induction false} SolveRanges(files: seq<FileData>)
    ensures FilesCaptions(Solve, files) == PerFileRanges(files)
    decreases |files|
  {
    if files != [] {
      SolveRanges(files[..|files| - 1]);
    }
  }

  /** In `solveExam` the captions restart at 0 for each file. */
  lemma SolveCaptionsRestartPerFile(files: seq<FileData>)
    ensures CaptionNumbers(FilesParts(Solve, files)) == PerFileRanges(files)
  {
    FilesPartsCaptions(Solve, files);
    SolveRanges(files);
  }

  /** Two files with one image each: the walkthrough captions them 0 and 1,
      `solveExam` captions both 0. */
  lemma CaptionNumberingDiffers(f: FileData, g: FileData)
    requires |ImagesOf(f)| == 1 && |ImagesOf(g)| == 1
    ensures CaptionNumbers(FilesParts(Walkthrough, [f, g])) == [0, 1]
    ensures CaptionNumbers(FilesParts(Solve, [f, g])) == [0, 0]
  {
    WalkthroughCaptionsConsecutive([f, g]);
    SolveCaptionsRestartPerFile([f, g]);
    assert [f, g][..1] == [f];
    assert [f][..0] == [];
    assert ImageCount([f, g]) == 2;
    assert Range(0, 2) == [0, 1];
    assert PerFileRanges([f]) == [] + Range(0, 1);
    assert PerFileRanges([f, g]) == PerFileRanges([f]) + Range(0, 1);
  }
}
