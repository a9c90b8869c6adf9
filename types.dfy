/** Shared data model of the exam analyser (types.ts), plus the small
    Option/Result wrappers the other modules use for missing values and
    failures. */
module Types {

  datatype Option<+T> = None | Some(value: T)

  /** The outcome of an operation that can throw: a value, or the message
      of the error it raised. */
  datatype Result<+T> = Success(value: T) | Failure(message: string)

  /** The two upload categories a file can be tagged with. */
  datatype Category = Question | Answer

  /** `AppMode` is 'STANDARD' | 'DEEP' | null. */
  datatype AppMode = NoMode | Standard | Deep

  /** The screens of the application (`AppState`). SOLVING is kept by the
      source for type safety and is never entered. */
  datatype AppState = Upload | Analyzing | Solving | Dashboard | Generating | ExamView

  /** One uploaded file: its data is either the text content or a data URL,
      `extractedImages` are data URLs of diagrams pulled out of a PDF, and
      `category` is absent when the file was never tagged. */
  datatype FileData = FileData(
    name: string,
    mimeType: string,
    data: string,
    isText: bool,
    extractedImages: Option<seq<string>>,
    category: Option<Category>)

  datatype TopicInfo = TopicInfo(name: string, percentage: real, description: string, youtubeQuery: string)

  datatype FairGameItem = FairGameItem(topic: string, kind: string, exampleQuestion: string, reasoning: string)

  datatype DetectedImage = DetectedImage(id: string, description: string, relatedTopic: string)

  /** The analysis returned by the remote model, taken as it arrives: the
      source casts the parsed JSON without validating it. */
  datatype AnalysisResult = AnalysisResult(
    questionTypes: seq<string>,
    topics: seq<TopicInfo>,
    fairGame: seq<FairGameItem>,
    imageAnalysis: seq<DetectedImage>,
    summary: string)

  /** The images extracted from a file: none when the list is absent or empty. */
  function ImagesOf(f: FileData): (imgs: seq<string>)
    ensures f.extractedImages.None? ==> imgs == []
    ensures f.extractedImages.Some? ==> imgs == f.extractedImages.value
  {
    match f.extractedImages
    case None => []
    case Some(s) => s
  }

  /** `s.endsWith(suffix)` */
  predicate EndsWith(s: string, suffix: string)
  {
    |suffix| <= |s| && s[|s| - |suffix|..] == suffix
  }

  lemma EndsWithIff(s: string, suffix: string)
    ensures EndsWith(s, suffix) <==> exists p :: s == p + suffix
  {
    if EndsWith(s, suffix) {
      var p := s[..|s| - |suffix|];
      assert s == p + suffix;
    }
    if exists p :: s == p + suffix {
      var p :| s == p + suffix;
      assert s[|s| - |suffix|..] == suffix;
    }
  }

  /** The characters JavaScript's `String.prototype.trim` removes. */
  predicate IsWhitespace(c: char)
  {
    c == ' ' || c == '\t' || c == '\n' || c == '\r' || c == '\U{000B}' || c == '\U{000C}'
    || c == '\U{00A0}' || c == '\U{1680}' || ('\U{2000}' <= c <= '\U{200A}')
    || c == '\U{2028}' || c == '\U{2029}' || c == '\U{202F}' || c == '\U{205F}'
    || c == '\U{3000}' || c == '\U{FEFF}'
  }

  /** `s.trim()` is the empty string (JavaScript treats it as false). */
  predicate IsBlank(s: string)
  {
    forall i :: 0 <= i < |s| ==> IsWhitespace(s[i])
  }

  /** The results of `f` on each element of `xs`, concatenated in order: the
      shape of every "for each item, push its results" loop. */
  function ConcatMap<T, U>(f: T -> seq<U>, xs: seq<T>): seq<U>
  {
    if xs == [] then [] else ConcatMap(f, xs[..|xs| - 1]) + f(xs[|xs| - 1])
  }

  /** Mapping over a concatenation concatenates the two results. */
  lemma {:induction false} ConcatMapAppend<T, U>(f: T -> seq<U>, a: seq<T>, b: seq<T>)
    ensures ConcatMap(f, a + b) == ConcatMap(f, a) + ConcatMap(f, b)
    decreases |b|
  {
    if b == [] {
      assert a + b == a;
    } else {
      var c, init := a + b, b[..|b| - 1];
      assert c[..|c| - 1] == a + init && c[|c| - 1] == b[|b| - 1];
      ConcatMapAppend(f, a, init);
    }
  }

  /** One more element adds its own results. */
  lemma ConcatMapStep<T, U>(f: T -> seq<U>, xs: seq<T>, n: nat)
    requires n < |xs|
    ensures ConcatMap(f, xs[..n + 1]) == ConcatMap(f, xs[..n]) + f(xs[n])
  {
    assert xs[..n + 1][..n] == xs[..n];
  }
}
