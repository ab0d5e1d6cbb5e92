/** The upload form: the rule table that guards submission, and the submit
    handler that posts the new image, raises a notice and always resets the
    draft and closes the hosting modal. */
module FormAddImage {
  import opened Wrappers

  // ---------------------------------------------------------------------
  // Values the form works on
  // ---------------------------------------------------------------------

  /** What the rules read from the chosen file: its size in bytes and its
      MIME type. */
  datatype FileInfo = FileInfo(size: nat, mimeType: string)

  /** The field values handed to the submit handler; `image` is None when no
      file is chosen. */
  datatype FormValues = FormValues(title: string, description: string, image: Option<FileInfo>)

  /** The body posted to `/api/images`. */
  datatype ImageData = ImageData(title: string, description: string, url: string)

  /** A rule of the table that a field value breaks. */
  datatype Violation =
    | FileRequired | FileTooLarge | UnsupportedFormat
    | TitleRequired | TitleTooShort | TitleTooLong
    | DescriptionRequired | DescriptionTooLong

  /** The first broken rule of each field, as shown inline under it. */
  datatype FieldErrors = FieldErrors(image: Option<Violation>, title: Option<Violation>, description: Option<Violation>)

  const NoErrors := FieldErrors(None, None, None)

  /** The message the rule table attaches to each rule. */
  function Message(v: Violation): (text: string) {
    match v
    case FileRequired => "Arquivo obrigatório"
    case FileTooLarge => "O arquivo deve ser menor que 10MB"
    case UnsupportedFormat => "Somente são aceitos arquivos PNG, JPEG e GIF"
    case TitleRequired => "Título obrigatório"
    case TitleTooShort => "Mínimo de 2 caracteres"
    case TitleTooLong => "Máximo de 20 caracteres"
    case DescriptionRequired => "Descrição obrigatória"
    case DescriptionTooLong => "Máximo de 65 caracteres"
  }

  const MaxFileSize: nat := 10 * 1000 * 1000
  const TitleMinLength: nat := 2
  const TitleMaxLength: nat := 20
  const DescriptionMaxLength: nat := 65

  // ---------------------------------------------------------------------
  // The image rules
  // ---------------------------------------------------------------------

  /** The `lessThan10MB` rule. */
  predicate LessThan10MB(f: FileInfo) {
    f.size < MaxFileSize
  }

  lemma SizeBoundary(mimeType: string)
    ensures LessThan10MB(FileInfo(9_999_999, mimeType))
    ensures !LessThan10MB(FileInfo(10_000_000, mimeType))
    ensures forall n: nat :: LessThan10MB(FileInfo(n, mimeType)) <==> n <= 9_999_999
  {
  }

  /** `p` occurs in `s` starting at index `i`. */
  predicate OccursAt(p: string, s: string, i: nat) {
    i + |p| <= |s| && s[i..i + |p|] == p
  }

  /** `s` contains `p` as a contiguous piece. */
  ghost predicate Contains(s: string, p: string) {
    exists i: nat :: OccursAt(p, s, i)
  }

  /** The pattern `image\/(jpeg|png|gif)` matches at index `i`: the literal
      `image/` followed by one of the three alternatives. */
  predicate PatternAt(s: string, i: nat) {
    OccursAt("image/", s, i) &&
    (OccursAt("jpeg", s, i + 6) || OccursAt("png", s, i + 6) || OccursAt("gif", s, i + 6))
  }

  /** The leftmost index at or after `from` where the unanchored pattern
      matches, as a regular-expression search finds it. */
  function SearchFrom(s: string, from: nat): (r: Option<nat>)
    ensures r.Some? ==> from <= r.value && PatternAt(s, r.value)
    ensures r.Some? ==> forall j :: from <= j < r.value ==> !PatternAt(s, j)
    ensures r.None? ==> forall j: nat :: from <= j ==> !PatternAt(s, j)
    decreases |s| - from
  {
    if |s| <= from then None
    else if PatternAt(s, from) then Some(from)
    else SearchFrom(s, from + 1)
  }

  /** The `acceptedFormats` rule: the MIME type matches the pattern somewhere. */
  predicate AcceptedFormat(f: FileInfo) {
    SearchFrom(f.mimeType, 0).Some?
  }

  /** Matching `p + q` at `i` is matching `p` at `i` and then `q` right after it. */
  lemma OccursConcat(p: string, q: string, s: string, i: nat)
    ensures OccursAt(p + q, s, i) <==> OccursAt(p, s, i) && OccursAt(q, s, i + |p|)
  {
    if OccursAt(p, s, i) && OccursAt(q, s, i + |p|) {
      assert s[i..i + |p + q|] == s[i..i + |p|] + s[i + |p|..i + |p| + |q|];
    }
    if OccursAt(p + q, s, i) {
      assert s[i..i + |p|] == (p + q)[..|p|];
      assert s[i + |p|..i + |p| + |q|] == (p + q)[|p|..];
    }
  }

  lemma OccursBetween(a: string, p: string, b: string)
    ensures OccursAt(p, a + p + b, |a|)
  {
    assert (a + p + b)[|a|..|a| + |p|] == p;
  }

  /** The pattern matches at `i` iff one of the three full MIME types occurs there. */
  lemma PatternAtIff(s: string, i: nat)
    ensures PatternAt(s, i) <==>
      OccursAt("image/jpeg", s, i) || OccursAt("image/png", s, i) || OccursAt("image/gif", s, i)
  {
    OccursConcat("image/", "jpeg", s, i);
    OccursConcat("image/", "png", s, i);
    OccursConcat("image/", "gif", s, i);
  }

  /** The format rule accepts exactly the MIME types that contain `image/jpeg`,
      `image/png` or `image/gif` anywhere: the pattern is not anchored. */
  lemma AcceptedFormatIffContains(f: FileInfo)
    ensures AcceptedFormat(f) <==>
      Contains(f.mimeType, "image/jpeg") || Contains(f.mimeType, "image/png") || Contains(f.mimeType, "image/gif")
  {
    var s := f.mimeType;
    if AcceptedFormat(f) {
      var i := SearchFrom(s, 0).value;
      PatternAtIff(s, i);
    }
    if Contains(s, "image/jpeg") || Contains(s, "image/png") || Contains(s, "image/gif") {
      var i: nat :| OccursAt("image/jpeg", s, i) || OccursAt("image/png", s, i) || OccursAt("image/gif", s, i);
      PatternAtIff(s, i);
    }
  }

  /** The pattern may match in the middle of the MIME type. */
  lemma UnanchoredMatch()
    ensures AcceptedFormat(FileInfo(0, "x-image/gif; charset=binary"))
  {
    var m := "x-" + "image/gif" + "; charset=binary";
    OccursBetween("x-", "image/gif", "; charset=binary");
    OccursConcat("image/", "gif", m, 2);
    assert PatternAt(m, 2);
    assert m == "x-image/gif; charset=binary";
  }

  /** The match is exact and case-sensitive: `image/jpg` and `IMAGE/PNG` fail. */
  lemma NearMissesRejected()
    ensures !AcceptedFormat(FileInfo(0, "image/jpg"))
    ensures !AcceptedFormat(FileInfo(0, "IMAGE/PNG"))
  {
    var jpg, upper := "image/jpg", "IMAGE/PNG";
    forall j: nat ensures !PatternAt(jpg, j) && !PatternAt(upper, j) {
      if j == 0 {
        assert jpg[6..9][0] == 'j' && upper[0..6][0] == 'I';
      }
    }
  }

  // ---------------------------------------------------------------------
  // The rule table, field by field
  // ---------------------------------------------------------------------

  /** The first rule of the image entry that the chosen file breaks:
      `required`, then `lessThan10MB`, then `acceptedFormats`. */
  function ImageError(image: Option<FileInfo>): (r: Option<Violation>)
    ensures r.None? <==> image.Some? && image.value.size < MaxFileSize && AcceptedFormat(image.value)
    ensures r == Some(FileRequired) <==> image.None?
    ensures r == Some(FileTooLarge) <==> image.Some? && image.value.size >= MaxFileSize
    ensures r == Some(UnsupportedFormat) <==>
      image.Some? && image.value.size < MaxFileSize && !AcceptedFormat(image.value)
  {
    match image
    case None => Some(FileRequired)
    case Some(f) =>
      if !LessThan10MB(f) then Some(FileTooLarge)
      else if !AcceptedFormat(f) then Some(UnsupportedFormat)
      else None
  }

  /** A code point outside the Basic Multilingual Plane, which JavaScript
      stores as two UTF-16 code units. */
  predicate IsAstral(c: char) {
    c >= '\U{10000}'
  }

  /** JavaScript's `.length` of `s`: its number of UTF-16 code units, which
      the length rules compare. */
  function JsLength(s: string): (n: nat)
    ensures |s| <= n <= 2 * |s|
    ensures n == 0 <==> s == []
    ensures (forall i :: 0 <= i < |s| ==> !IsAstral(s[i])) ==> n == |s|
    ensures (forall i :: 0 <= i < |s| ==> IsAstral(s[i])) ==> n == 2 * |s|
    ensures |s| == 1 ==> n == (if IsAstral(s[0]) then 2 else 1)
  {
    if s == [] then 0
    else (if IsAstral(s[0]) then 2 else 1) + JsLength(s[1..])
  }

  /** The length of a concatenation is the sum of the lengths; with the
      one-character case this fixes `JsLength` on every string. */
  lemma {:induction false} JsLengthConcat(a: string, b: string)
    ensures JsLength(a + b) == JsLength(a) + JsLength(b)
  {
    if a == [] {
      assert a + b == b;
    } else {
      assert (a + b)[1..] == a[1..] + b;
      JsLengthConcat(a[1..], b);
    }
  }

  /** The first rule of the title entry that `title` breaks. */
  function TitleError(title: string): (r: Option<Violation>)
    ensures r.None? <==> TitleMinLength <= JsLength(title) <= TitleMaxLength
    ensures r == Some(TitleRequired) <==> title == ""
    ensures r == Some(TitleTooShort) <==> 0 < JsLength(title) < TitleMinLength
    ensures r == Some(TitleTooLong) <==> TitleMaxLength < JsLength(title)
  {
    if title == "" then Some(TitleRequired)
    else if JsLength(title) > TitleMaxLength then Some(TitleTooLong)
    else if JsLength(title) < TitleMinLength then Some(TitleTooShort)
    else None
  }

  lemma TitleBoundaries(t1: string, t2: string, t20: string, t21: string)
    requires JsLength(t1) == 1 && JsLength(t2) == 2 && JsLength(t20) == 20 && JsLength(t21) == 21
    ensures TitleError("") == Some(TitleRequired)
    ensures TitleError(t1) == Some(TitleTooShort)
    ensures TitleError(t2).None? && TitleError(t20).None?
    ensures TitleError(t21) == Some(TitleTooLong)
  {
  }

  /** The first rule of the description entry that `description` breaks;
      beyond `required` there is no minimum length. */
  function DescriptionError(description: string): (r: Option<Violation>)
    ensures r.None? <==> 0 < JsLength(description) <= DescriptionMaxLength
    ensures r == Some(DescriptionRequired) <==> description == ""
    ensures r == Some(DescriptionTooLong) <==> DescriptionMaxLength < JsLength(description)
  {
    if description == "" then Some(DescriptionRequired)
    else if JsLength(description) > DescriptionMaxLength then Some(DescriptionTooLong)
    else None
  }

  lemma DescriptionBoundaries(d1: string, d65: string, d66: string)
    requires JsLength(d1) == 1 && JsLength(d65) == 65 && JsLength(d66) == 66
    ensures DescriptionError("") == Some(DescriptionRequired)
    ensures DescriptionError(d1).None? && DescriptionError(d65).None?
    ensures DescriptionError(d66) == Some(DescriptionTooLong)
  {
  }

  /** Lengths are counted in UTF-16 code units: one emoji is a title of
      length 2, eleven emoji exceed the title maximum, and 33 emoji exceed
      the description maximum. */
  lemma AstralLengths(emoji11: string, emoji33: string)
    requires |emoji11| == 11 && forall i :: 0 <= i < 11 ==> IsAstral(emoji11[i])
    requires |emoji33| == 33 && forall i :: 0 <= i < 33 ==> IsAstral(emoji33[i])
    ensures TitleError("\U{1F600}").None?
    ensures TitleError(emoji11) == Some(TitleTooLong)
    ensures DescriptionError(emoji33) == Some(DescriptionTooLong)
    ensures JsLength("a\U{1F600}") == 3
  {
    JsLengthConcat("a", "\U{1F600}");
    assert "a" + "\U{1F600}" == "a\U{1F600}";
    assert JsLength("\U{1F600}") == 2 by {
      assert "\U{1F600}"[1..] == "";
    }
  }

  /** Every field value obeys every rule of the table, stated without the
      per-field error functions. */
  predicate Acceptable(v: FormValues) {
    && v.image.Some? && v.image.value.size < 10_000_000 && AcceptedFormat(v.image.value)
    && 2 <= JsLength(v.title) <= 20
    && 1 <= JsLength(v.description) <= 65
  }

  /** The inline errors for all three fields; the form may be submitted
      exactly when there are none. */
  function Validate(v: FormValues): (r: FieldErrors)
    ensures r == NoErrors <==> Acceptable(v)
    ensures r.image.Some? <==> !(v.image.Some? && LessThan10MB(v.image.value) && AcceptedFormat(v.image.value))
    ensures r.title.Some? <==> !(2 <= JsLength(v.title) <= 20)
    ensures r.description.Some? <==> !(1 <= JsLength(v.description) <= 65)
  {
    FieldErrors(ImageError(v.image), TitleError(v.title), DescriptionError(v.description))
  }

  // ---------------------------------------------------------------------
  // `String.prototype.trim`
  // ---------------------------------------------------------------------

  /** The characters `trim` removes: the white-space and line-terminator
      code points of ECMAScript. */
  predicate IsWhitespace(c: char) {
    c == '\t' || c == '\n' || c == '\U{B}' || c == '\U{C}' || c == '\r' || c == ' '
    || c == '\U{A0}' || c == '\U{1680}' || ('\U{2000}' <= c <= '\U{200A}')
    || c == '\U{2028}' || c == '\U{2029}' || c == '\U{202F}' || c == '\U{205F}'
    || c == '\U{3000}' || c == '\U{FEFF}'
  }

  predicate AllWhitespace(s: string) {
    forall i :: 0 <= i < |s| ==> IsWhitespace(s[i])
  }

  /** `s` without its leading white space. */
  function TrimStart(s: string): (r: string)
    ensures |r| <= |s| && r == s[|s| - |r|..]
    ensures AllWhitespace(s[..|s| - |r|])
    ensures r == [] || !IsWhitespace(r[0])
  {
    if s != [] && IsWhitespace(s[0]) then
      var r := TrimStart(s[1..]);
      assert s[..|s| - |r|] == [s[0]] + s[1..][..|s[1..]| - |r|];
      r
    else s
  }

  /** `s` without its trailing white space. */
  function TrimEnd(s: string): (r: string)
    ensures |r| <= |s| && r == s[..|r|]
    ensures AllWhitespace(s[|r|..])
    ensures r == [] || !IsWhitespace(r[|r| - 1])
  {
    if s != [] && IsWhitespace(s[|s| - 1]) then
      var r := TrimEnd(s[..|s| - 1]);
      assert s[|r|..] == s[..|s| - 1][|r|..] + [s[|s| - 1]];
      r
    else s
  }

  function Trim(s: string): (r: string) {
    TrimEnd(TrimStart(s))
  }

  /** `!imageUrl.trim()`: the trimmed URL is the empty, falsy string. */
  predicate Blank(s: string) {
    Trim(s) == ""
  }

  /** A URL is blank exactly when it is empty or made only of white space. */
  lemma BlankIffAllWhitespace(s: string)
    ensures Blank(s) <==> AllWhitespace(s)
  {
  }

  // ---------------------------------------------------------------------
  // The submit handler
  // ---------------------------------------------------------------------

  /** The toasts the submit handler can raise. */
  datatype Notice = NotAdded | Added | Failed

  /** The title and description each toast shows. */
  function NoticeText(n: Notice): (text: (string, string)) {
    match n
    case NotAdded => ("Imagem não adicionada",
      "É preciso adicionar e aguardar o upload de uma imagem antes de realizar o cadastro.")
    case Added => ("Imagem cadastrada", "Sua imagem foi cadastrada com sucesso.")
    case Failed => ("Falha no cadastro", "Ocorreu um erro ao tentar cadastrar a sua imagem.")
  }

  /** How the POST to `/api/images` ends. */
  datatype PostOutcome = Resolved | Rejected

  /** What one run of the submit handler does besides resetting the draft:
      the body it posts (if any), whether it invalidates the `images` query,
      and the notice it raises. */
  datatype SubmitEffect = SubmitEffect(post: Option<ImageData>, invalidate: bool, notice: Notice)

  function Submission(imageUrl: string, data: FormValues, outcome: PostOutcome): (r: SubmitEffect)
    ensures r.post.None? <==> AllWhitespace(imageUrl)
    ensures r.post.Some? ==> r.post.value == ImageData(data.title, data.description, imageUrl)
    ensures r.invalidate <==> r.post.Some? && outcome == Resolved
    ensures r.notice == NotAdded <==> AllWhitespace(imageUrl)
    ensures r.notice == Added <==> r.invalidate
    ensures r.notice == Failed <==> r.post.Some? && outcome == Rejected
  {
    if AllWhitespace(imageUrl) then
      SubmitEffect(None, false, NotAdded)
    else
      var body := ImageData(data.title, data.description, imageUrl);
      match outcome
      case Resolved => SubmitEffect(Some(body), true, Added)
      case Rejected => SubmitEffect(Some(body), false, Failed)
  }

  /** The form component's state. `values` are the field values the form
      holds; `notices`, `posts`, `invalidations` and `closeRequests` record,
      in order, the toasts raised, the bodies posted, the invalidations of the
      `images` query and the calls of `closeModal`. */
  class UploadForm {
    var imageUrl: string
    var localImageUrl: string
    var values: FormValues
    var errors: FieldErrors
    var notices: seq<Notice>
    var posts: seq<ImageData>
    var invalidations: nat
    var closeRequests: nat

    constructor ()
      ensures imageUrl == "" && localImageUrl == ""
      ensures values == FormValues("", "", None) && errors == NoErrors
      ensures notices == [] && posts == [] && invalidations == 0 && closeRequests == 0
    {
      imageUrl := "";
      localImageUrl := "";
      values := FormValues("", "", None);
      errors := NoErrors;
      notices := [];
      posts := [];
      invalidations := 0;
      closeRequests := 0;
    }

    /** The URL setter handed to the file input, called when an upload finishes. */
    method SetImageUrl(url: string)
      modifies this`imageUrl
      ensures imageUrl == url
    {
      imageUrl := url;
    }

    /** The preview-URL setter handed to the file input. */
    method SetLocalImageUrl(url: string)
      modifies this`localImageUrl
      ensures localImageUrl == url
    {
      localImageUrl := url;
    }

    /** A change of the field values through the registered inputs. */
    method Edit(v: FormValues)
      modifies this`values
      ensures values == v
    {
      values := v;
    }

    /** The `try`/`catch` part of `onSubmit`: refuse a blank URL, otherwise
        post and report how the post ended. */
    method TryPost(data: FormValues, outcome: PostOutcome)
      modifies this`notices, this`posts, this`invalidations
      ensures posts == old(posts) + ToSeq(Submission(imageUrl, data, outcome).post)
      ensures notices == old(notices) + [Submission(imageUrl, data, outcome).notice]
      ensures invalidations == old(invalidations) + if Submission(imageUrl, data, outcome).invalidate then 1 else 0
    {
      BlankIffAllWhitespace(imageUrl);
      if Trim(imageUrl) == "" {
        notices := notices + [NotAdded];
        return;
      }
      posts := posts + [ImageData(data.title, data.description, imageUrl)];
      if outcome == Resolved {
        invalidations := invalidations + 1;
        notices := notices + [Added];
      } else {
        notices := notices + [Failed];
      }
    }

    /** `onSubmit`: the attempt, then the `finally` block, which runs on every
        path (the early return included): the form takes the submitted values,
        both image URLs are cleared and the modal is asked to close. */
    method OnSubmit(data: FormValues, outcome: PostOutcome)
      modifies this
      ensures posts == old(posts) + ToSeq(Submission(old(imageUrl), data, outcome).post)
      ensures notices == old(notices) + [Submission(old(imageUrl), data, outcome).notice]
      ensures invalidations == old(invalidations) + if Submission(old(imageUrl), data, outcome).invalidate then 1 else 0
      ensures imageUrl == "" && localImageUrl == ""
      ensures values == data && errors == NoErrors
      ensures closeRequests == old(closeRequests) + 1
    {
      TryPost(data, outcome);
      values, errors := data, NoErrors;
      imageUrl := "";
      localImageUrl := "";
      closeRequests := closeRequests + 1;
    }

    /** `handleSubmit(onSubmit)`: with a broken rule, only the inline errors
        change; otherwise the handler runs on the current values. */
    method HandleSubmit(outcome: PostOutcome)
      modifies this
      ensures !Acceptable(old(values)) ==>
        && errors == Validate(old(values)) && errors != NoErrors
        && imageUrl == old(imageUrl) && localImageUrl == old(localImageUrl) && values == old(values)
        && notices == old(notices) && posts == old(posts)
        && invalidations == old(invalidations) && closeRequests == old(closeRequests)
      ensures Acceptable(old(values)) ==>
        && posts == old(posts) + ToSeq(Submission(old(imageUrl), old(values), outcome).post)
        && notices == old(notices) + [Submission(old(imageUrl), old(values), outcome).notice]
        && invalidations == old(invalidations) + (if Submission(old(imageUrl), old(values), outcome).invalidate then 1 else 0)
        && imageUrl == "" && localImageUrl == ""
        && values == old(values) && errors == NoErrors
        && closeRequests == old(closeRequests) + 1
    {
      var found := Validate(values);
      if found != NoErrors {
        errors := found;
      } else {
        OnSubmit(values, outcome);
      }
    }
  }

  /** A submission without an uploaded image posts nothing, says so, and
      still discards the draft and closes the modal. */
  method BlankUrlScenario(data: FormValues) returns (form: UploadForm)
    ensures form.posts == [] && form.notices == [NotAdded] && form.invalidations == 0
    ensures form.closeRequests == 1 && form.imageUrl == "" && form.values == data
  {
    form := new UploadForm();
    form.SetImageUrl(" \t");
    form.OnSubmit(data, Resolved);
    assert AllWhitespace(" \t");
  }
}
