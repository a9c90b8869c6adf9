# Exam analyser: verified model of its data handling

The exam analyser is a browser application. The user uploads exam papers
(PDFs, images, text) and pasted text. It extracts diagrams from the PDFs,
sends everything to a remote language model for a topic analysis, and then
asks the model for a solution walkthrough or a practice exam. A small
companion app draws a pie chart of question counts per category.

This project models, in Dafny, the deterministic logic around the remote
model and the PDF library:

- `types.dfy` (module `Types`): the shared records of `types.ts` (`FileData`,
  `AnalysisResult`, `TopicInfo`, `AppState`, `AppMode`). It also holds the
  Option/Result wrappers, `endsWith`, and the whitespace test behind `trim()`.
- `pdf_utils.dfy` (module `PdfUtils`): diagram extraction from
  `utils/pdfUtils.ts`.
  - It picks the `paintImageXObject` operators and drops images under 50 px.
  - It expands 1-bit grayscale and RGB into a canvas RGBA buffer, in place on
    an `array`.
  - It copies RGBA data and skips unknown kinds.
  - It accumulates the images page by page, with the per-image and whole-run
    error fallbacks.
- `gemini_service.dfy` (module `GeminiService`): the four request builders of
  `services/geminiService.ts`.
  - Each builder is a loop method proved equal to one reference definition,
    `Request`.
  - They use the category label, the image counters, the image-context
    trailer and the difficulty switch.
  - The response handling is covered: "No response from AI" for the
    analysis, fixed fallback texts for the other builders.
- `upload_section.dfy` (module `UploadSection`): the upload form of
  `components/UploadSection.tsx`.
  - It covers text-file classification, MIME defaulting, reading a batch into
    one of two category lists, and removal by index.
  - It also covers the submit payload and its disabled condition, the drag
    flags, and the toggles.
- `app.dfy` (module `App`): the screen state machine of `App.tsx`.
  - It is a class whose handlers are split at their `await`; the remote
    outcome is a parameter.
  - It also defines which view is rendered in each state.
  - A pending generation is not cancelled by a reset: its completion shows
    the exam view with no analysis result, and the dashboard it returns to
    is not rendered (`App.StaleGenerationAfterReset`).
- `pie_chart.dfy` (module `PieChart`): the `Categories` → `{id, value}`
  transform of `react-websocket-file-upload/src/MyPieChart.js` and its state.

The request messages are modelled by structure, not as formatted strings.
For example, `FileContent(heading, fileNo, name, label, data)` stands for
the text `FILE i+1 (name) [TYPE: label] CONTENT:\n data`. Prompt bodies are
opaque; only the values interpolated into them are kept.

A non-text file's inline data is `data.split(",")[1]`. That is the segment
between the first and second comma, not all the text after the first comma.
The model follows the code (`GeminiService.SecondFieldUndefined`). For a data URL,
whose base64 payload contains no comma, the two readings agree
(`GeminiService.SecondFieldOfDataUrl`).

## Model

| member | source | states |
|---|---|---|
| PdfUtils.ImageNamesMember | utils/pdfUtils.ts:30-37 | a name is collected exactly when some operator equal to `paintImageXObject` carries it as first argument |
| PdfUtils.CollectImageNames | utils/pdfUtils.ts:30-37 | the `reduce` with its pushing accumulator yields exactly the image-operator names in order |
| PdfUtils.GrayPixelBytes | utils/pdfUtils.ts:59-74 | bit `bit` of source byte i (most significant bit first) becomes the pixel at byte 32i+4(7-bit): R=G=B=0 for a set bit, 255 for a clear one, alpha 255 |
| PdfUtils.Expand1Bpp | utils/pdfUtils.ts:59-74 | in place on a buffer whose length is a multiple of 4: the first bytes become the expansion, pixels beyond the buffer are dropped, the rest of the buffer is untouched, no write goes past its end |
| PdfUtils.RgbPixelBytes | utils/pdfUtils.ts:75-85 | byte 4k+c (c<3) of the RGB expansion is source byte 3k+c (0 past the source's end) and byte 4k+3 is 255 |
| PdfUtils.ExpandRgb | utils/pdfUtils.ts:75-85 | in place: the buffer's prefix becomes the RGB expansion until either buffer is exhausted, the rest is untouched |
| PdfUtils.CopyRgba | utils/pdfUtils.ts:86-87 | the data is copied verbatim when it fits; otherwise the copy fails and the buffer is unchanged |
| PdfUtils.Render | utils/pdfUtils.ts:44-90 | an image under 50 px in either dimension, or of an unknown kind, yields nothing; a rendered image has the object's size and 4·width·height bytes, and the canvas past the 1BPP or RGB expansion stays zero |
| PdfUtils.Gray1BppRendered | utils/pdfUtils.ts:47-74 | a 1BPP image of at least 50×50 renders, and the pixel of every bit that fits on the canvas is black for a set bit and white for a clear one, opaque |
| PdfUtils.RgbRendered | utils/pdfUtils.ts:47-85 | an RGB image of at least 50×50 renders, and every source triple that fits on the canvas is copied to its pixel with opaque alpha |
| PdfUtils.RgbaRendered | utils/pdfUtils.ts:86-87 | an RGBA image of at least 50×50 renders iff its data fits on the canvas, and then its data is the canvas prefix with zeros after it |
| PdfUtils.ConvertImage | utils/pdfUtils.ts:44-93 | the canvas conversion (fresh zeroed buffer, branch on kind, in-place expansion) yields exactly `Render` |
| PdfUtils.RenderWithKinds | utils/pdfUtils.ts:59-90 | the kind test against a given `ImageKind` table; with the fallback table it is `Render`, and it renders only kinds the table names |
| PdfUtils.LibraryKindsSkipRgb | utils/pdfUtils.ts:11-15 | with the library's own `ImageKind` table in force, a large RGB image is skipped although `Render` converts it |
| PdfUtils.NamesImagesAppend | utils/pdfUtils.ts:39-99 | the images of a run of names are those of each name alone, in order |
| PdfUtils.FailedLookupContributesNothing | utils/pdfUtils.ts:40-98 | a name whose lookup throws or yields no data is skipped without affecting the images of the other names |
| PdfUtils.PagesImagesAppend | utils/pdfUtils.ts:26-102 | output images are in page order, then operator order |
| PdfUtils.PageErrorYieldsNothing | utils/pdfUtils.ts:105-108 | one failing page makes the whole extraction return the empty list |
| PdfUtils.AllPagesLoaded | utils/pdfUtils.ts:26-109 | when every page loads, the result is the images of all pages in page order |
| PdfUtils.PushNameImages | utils/pdfUtils.ts:40-98 | one name of the inner loop appends the converted image of its object, or nothing when the lookup fails or the image is skipped |
| PdfUtils.PushPageImages | utils/pdfUtils.ts:39-99 | one page's loop appends exactly that page's images |
| PdfUtils.ExtractImagesFromPdf | utils/pdfUtils.ts:17-109 | the page loop returns exactly `ExtractedImages(doc)`: nothing for an unreadable document or a failing page |
| GeminiService.CategoryLabel | services/geminiService.ts:324-327 | the answer label exactly for category "answer"; any other or missing category gives "QUESTION SHEET" |
| GeminiService.DifficultyInstruction | services/geminiService.ts:527-542 | "Easy" and "Hard" each select their own instruction; every other string, "Medium" included, selects the mirror instruction |
| GeminiService.SecondFieldUndefined | services/geminiService.ts:58 | `split(",")[1]` is undefined exactly when the data has no comma |
| GeminiService.SecondFieldOfDataUrl | services/geminiService.ts:58 | for `header,payload` with a comma-free header and payload, the inline data is the payload |
| GeminiService.PushCaptionedImages | services/geminiService.ts:68-78 | each extracted image of the file is pushed as inline data followed by its caption, numbered from the given counter, which advances by the image count |
| GeminiService.PushListedImages | services/geminiService.ts:346-359 | each extracted image of the file is pushed as inline data and listed in the trailer, numbered from the given counter, which advances by the image count |
| GeminiService.PushSolveFile | services/geminiService.ts:51-79 | one file of `solveExam`: its content part, then each extracted image with its caption numbered within the file |
| GeminiService.SolveParts | services/geminiService.ts:42-111 | `solveExam`'s parts are exactly `Request(Solve, …)`: raw text, files in order, prompt |
| GeminiService.PushWalkthroughFile | services/geminiService.ts:146-185 | one file of the walkthrough, with captions numbered from the running counter, which advances by the file's image count |
| GeminiService.WalkthroughParts | services/geminiService.ts:139-247 | the walkthrough's parts are exactly `Request(Walkthrough, …)` |
| GeminiService.PushAnalysisFile | services/geminiService.ts:322-360 | one file of the analysis: labelled content, its images, and their trailer lines numbered from the running counter |
| GeminiService.AnalysisParts | services/geminiService.ts:275-365 | the analysis parts followed by the prompt are exactly `Request(Analysis, …)`, the prompt carrying the file count and whether raw text was given |
| GeminiService.PushPracticeFile | services/geminiService.ts:488-520 | one file of the practice builder: original content, its images, and their trailer lines |
| GeminiService.PracticeParts | services/geminiService.ts:477-602 | the practice parts are exactly `Request(Practice, …)` with the prompt carrying difficulty, its instruction and the question count |
| GeminiService.RequestLayout | services/geminiService.ts:313-365 | in every builder's request, the raw-text part is first and present iff the text is non-blank; the prompt is last and only last; the image-context part is present iff the builder is analysis or practice and some image was extracted, and then sits just before the prompt |
| GeminiService.FilesPartsAreFileParts | services/geminiService.ts:322-361 | everything between raw text and trailer belongs to a file (content, context note, image, caption) |
| GeminiService.LinesOfNumbered | services/geminiService.ts:348-359 | a file's trailer lines are numbered consecutively from the counter and name that file |
| GeminiService.ImageLinesNumbered | services/geminiService.ts:317-360 | the trailer lists EXTRACTED_IMAGE_0 … EXTRACTED_IMAGE_(N-1), N being the total number of extracted images |
| GeminiService.ImagesPartsCaptions | services/geminiService.ts:68-78 | one file's image captions are numbered consecutively from the counter, one per image |
| GeminiService.FilesPartsCaptions | services/geminiService.ts:51-79 | the captions of all files' parts are each file's consecutive run, starting from 0 per file for `solveExam` and from the running counter for the walkthrough |
| GeminiService.WalkthroughCaptionsConsecutive | services/geminiService.ts:144-185 | the walkthrough's captions are numbered 0..N-1 across all files, in file-then-image order |
| GeminiService.SolveCaptionsRestartPerFile | services/geminiService.ts:68-78 | `solveExam`'s captions restart at 0 for each file |
| GeminiService.CaptionNumberingDiffers | services/geminiService.ts:69-76 | two files with one image each: the walkthrough captions them 0 and 1, `solveExam` both 0 |
| GeminiService.AnalysisOutcome | services/geminiService.ts:459-462 | a failed call is re-thrown, an empty or missing text fails with "No response from AI", and a result is only ever the parse of a non-empty text |
| GeminiService.TextOutcome | services/geminiService.ts:127 | the text builders succeed iff the call did, never return an empty text, return the response text when it is non-empty and the fallback when it is empty or missing |
| UploadSection.IsTextFileIff | components/UploadSection.tsx:60-63 | a file is text iff its type is `text/plain` or its name ends in `.txt` or `.md` |
| UploadSection.Stored | components/UploadSection.tsx:89-97 | a file is kept iff its read succeeded, with its name, data, category and text flag; the stored type is the browser's when non-empty and `application/octet-stream` otherwise; a PDF's non-empty extracted-image list is stored, and no other list is (never an empty one, never for a non-PDF) |
| UploadSection.ReadAllAppend | components/UploadSection.tsx:59-101 | the files a batch adds are those of each part of the batch, in order |
| UploadSection.FailedReadDropped | components/UploadSection.tsx:76-100 | a file whose read fails leaves no trace wherever it sits in the batch |
| UploadSection.ReadAllKeepsOrder | components/UploadSection.tsx:59-101 | when every read succeeds, the k-th stored file is the k-th picked one |
| UploadSection.ReadAllTagged | components/UploadSection.tsx:89-97 | every stored file carries the batch's category and a non-empty type, and a batch never stores more files than were picked |
| UploadSection.RemoveAt | components/UploadSection.tsx:146 | the index filter removes exactly element `index` when it is in range, keeping the order of the rest, and changes nothing otherwise |
| UploadSection.DragFlag | components/UploadSection.tsx:114-118 | `dragenter` and `dragover` set the flag, `dragleave` clears it, any other event keeps it |
| UploadSection.SubmitPayload | components/UploadSection.tsx:152-159 | submit does nothing iff both lists are empty and the text is blank; otherwise it sends the question files followed by the answer files, with the text |
| UploadSection.SubmitEnabledSends | components/UploadSection.tsx:472-478 | the button is disabled iff there is nothing to send or processing or reading is in progress, so an enabled button always sends |
| UploadSection.UploadForm.constructor | components/UploadSection.tsx:30-48 | empty text and lists, all flags off |
| UploadSection.UploadForm.ProcessFiles | components/UploadSection.tsx:52-109 | the readable files of the batch are appended to the chosen list, the other list is unchanged, and reading ends |
| UploadSection.UploadForm.RemoveFile | components/UploadSection.tsx:144-150 | the chosen list loses element `index`, the other list is unchanged |
| UploadSection.UploadForm.HandleDrag | components/UploadSection.tsx:111-119 | only the zone's own flag changes, as `DragFlag` says |
| UploadSection.UploadForm.HandleDrop | components/UploadSection.tsx:121-132 | the zone's flag is cleared, and a non-empty drop is processed into the zone's list, after which reading has ended |
| UploadSection.UploadForm.HandleChange | components/UploadSection.tsx:134-142 | a non-empty selection is processed into the category's list, after which reading has ended |
| UploadSection.UploadForm.ModeChanged | components/UploadSection.tsx:41-43 | a mode change turns the separate-key toggle off and nothing else |
| UploadSection.UploadForm.BackToMenu | components/UploadSection.tsx:359-364 | both lists are emptied and the toggle is turned off |
| UploadSection.UploadForm.ToggleSeparateKey | components/UploadSection.tsx:413 | the checkbox flips the toggle |
| UploadSection.UploadForm.SetText | components/UploadSection.tsx:465 | the text box replaces the text |
| App.VisibleScreens | App.tsx:111-136 | at most one of upload, dashboard and exam view is rendered; the dashboard only with a result; upload for UPLOAD and ANALYZING, exam view for EXAM_VIEW |
| App.App.ValidShowsAScreen | App.tsx:111-136 | in every state where the screens that need a result have one and SOLVING is not entered, exactly one view is rendered; handlers keep this only along paths without a reset during a pending generation |
| App.StaleGenerationAfterReset | App.tsx:65-98 | a generation that completes after "Start New Analysis" still shows the exam view, with no analysis result, and its back button leads to a state where no view is rendered |
| App.App.constructor | App.tsx:10-20 | the app starts on UPLOAD with no mode, result, sources, content or error |
| App.App.ModeSelect | App.tsx:22-26 | the mode is set, the upload screen shown and the error cleared |
| App.App.BeginAnalyze | App.tsx:28-36 | ANALYZING is entered, the error cleared, and the files and text stored for generation |
| App.App.FinishAnalyze | App.tsx:37-44 | success stores the result and shows the dashboard; failure sets the fixed error and returns to UPLOAD |
| App.App.BeginWalkthrough | App.tsx:48-51 | GENERATING is entered and the error cleared |
| App.App.FinishWalkthrough | App.tsx:54-62 | success stores the content and shows EXAM_VIEW; failure returns to the dashboard with an error |
| App.App.BeginGenerateExam | App.tsx:65-69 | without a result nothing changes; otherwise GENERATING is entered, and the error is not cleared |
| App.App.FinishGenerateExam | App.tsx:71-83 | success stores the content and shows EXAM_VIEW; failure returns to the dashboard with an error |
| App.App.Reset | App.tsx:86-94 | result, sources, content and error are cleared, UPLOAD shown, the mode kept |
| App.App.BackToDashboard | App.tsx:96-98 | the dashboard is shown and nothing else changes |
| PieChart.Transform | react-websocket-file-upload/src/MyPieChart.js:16-21 | one datum per category in key order, its id the category name and its value the length of its "Questions Covered" list; no data when some list is missing |
| PieChart.Chart.constructor | react-websocket-file-upload/src/MyPieChart.js:5 | the chart data starts empty |
| PieChart.Chart.OnFetch | react-websocket-file-upload/src/MyPieChart.js:12-34 | the data is replaced by the transform only when the fetch succeeded, `Categories` is present and every list exists; otherwise it is unchanged |

## Left out

- The retry and timeout wrapper `callWithTimeoutAndRetry`, the `GoogleGenAI` calls and the response schema are network and timing. The call's outcome is a parameter of `GeminiService.AnalysisOutcome` and `GeminiService.TextOutcome`.
- GeminiService.PracticeParts: takes the difficulty and the question count as arguments. The source defaults them to "Medium" and 10, and the only caller omits the count, so every real practice prompt asks for 10 questions; the defaults are not modelled. The builder's `analysis` argument is never read and is not a parameter of the model.
- `JSON.parse(text) as AnalysisResult` is an unchecked cast. Its outcome is a parameter, and no validation of the analysis is modelled because the code has none.
- Prompt template bodies are opaque. Request messages are modelled by their structure and interpolated values, not as formatted strings.
- Topic percentages are floating point and appear only as a prompt instruction. They are not modelled.
- PDF loading, `page.objs`, `getOperatorList`, `page.cleanup()` and the canvas belong to the PDF library and the browser. A document is given as pages of operators (code and first argument) and resolved image objects.
- PdfUtils.ExtractImagesFromPdf: returns the rendered RGBA images, not their PNG data URLs, because the `toDataURL` encoding is not modelled.
- PdfUtils.Render: assumes the canvas 2d context is available. When `getContext('2d')` returns null the code skips the image, and that case is not modelled.
- Image kinds are the fallback table's 1, 2 and 3. `PdfUtils.RenderWithKinds` covers the library's own table (see Findings).
- The RGB loop reads up to two bytes past the end of the source. Such a read gives `undefined`, which the canvas buffer stores as 0, and the model writes 0.
- Reading a picked file (`FileReader`) and extracting its images are asynchronous. Each file's outcome is given as part of `PickedFile`.
- UploadSection.UploadForm.ProcessFiles: runs as one step, so the moment when `isReadingFiles` is true while reads are pending, and interleaved batches (`processFiles` is not awaited), are not modelled.
- The "Back to Menu" button also clears the application's mode. That call is `App.App.ModeSelect(NoMode)` and is not repeated in `UploadSection.UploadForm.BackToMenu`.
- The `isImage` test of `processFiles` is computed and never used.
- All JSX rendering and styling is not modelled: dropzone titles, badges, the mode picker, and the Dashboard, ExamView and Header components.
- The pie chart's `fetch`, its re-run on `lastUpdated`, and the companion app's socket upload are network I/O.
- PieChart.Transform: takes the `Categories` keys in the order `Object.keys` gives them. JavaScript lists integer-like keys first, and that ordering is not modelled.
- PieChart.Transform: treats "Questions Covered" only as a list or as missing. A string there also has a length, and that case is not modelled.
- `app.py` and `main.py` are server-side file I/O and are not part of this model.

## Findings

| source | as written | input that shows it | evidently intended | confidence | as-written member | corrected member |
|---|---|---|---|---|---|---|
| utils/pdfUtils.ts:11-15 | `ImageKind` is pdf.js's own table whenever the library exports one. The kind tests then read its keys `RGB` and `RGBA`, which that table names `RGB_24BPP` and `RGBA_32BPP`, so both are undefined. | any RGB image of at least 50×50 pixels: no branch matches its kind 2 and the image is skipped | RGB and RGBA images are converted as kinds 2 and 3, as the fallback table spells out | medium; not executed | PdfUtils.RenderWithKinds, PdfUtils.LibraryKindsSkipRgb | PdfUtils.Render, PdfUtils.RgbRendered |
