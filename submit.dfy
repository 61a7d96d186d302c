/**
 * The form's decision rules: when a submission is refused, which picture
 * source and which template a render uses, what request it passes to the
 * renderer, and which uploaded files the picture input turns away.
 */
module Submit {
  import opened Options
  import Render

  const WithCertificateTemplate := "templates/with-certificate.jpg"
  const WithoutCertificateTemplate := "templates/without-certificate.jpg"
  /** The largest accepted upload, in bytes (10 MiB). */
  const MaxUploadBytes := 10 * 1024 * 1024

  /** A file chosen in the picture input: its size in bytes and its MIME type. */
  datatype File = File(size: nat, mimeType: string)

  /** What the form holds when it is submitted. `cropped` is the data URL the
      cropper produced, if any; `files` are the files chosen in the picture input. */
  datatype Form = Form(
    fullName: string, className: string, signature: string,
    includePicture: bool, cropped: Option<string>, files: seq<File>)

  /** Where the picture of a render comes from. */
  datatype PictureSource = CroppedImage(dataUrl: string) | RawFile(file: File) | NoPicture

  /** What a submission leads to: an alert and no render, or a render of the
      three texts with the given picture source and template. */
  datatype Submission =
    | Rejected
    | Generate(fullName: string, className: string, signature: string, source: PictureSource, template: string)

  datatype UploadVerdict = TooLarge | NotAnImage | Accepted

  /** Some required text field is empty. */
  predicate MissingRequired(form: Form) {
    form.fullName == "" || form.className == "" || form.signature == ""
  }

  function SelectTemplate(hasPicture: bool): (template: string)
    ensures template == WithCertificateTemplate <==> hasPicture
    ensures template == WithoutCertificateTemplate <==> !hasPicture
  {
    if hasPicture then WithCertificateTemplate else WithoutCertificateTemplate
  }

  /** The cropped image if the picture box is ticked and a non-empty crop exists,
      else the first chosen file if the box is ticked and a file is chosen, else none. */
  function PictureSourceOf(form: Form): (source: PictureSource)
    ensures source.CroppedImage? ==> form.cropped == Some(source.dataUrl) && source.dataUrl != ""
    ensures source.RawFile? ==> |form.files| > 0 && source.file == form.files[0]
    ensures !source.NoPicture? ==> form.includePicture
  {
    if !form.includePicture then NoPicture
    else if form.cropped.Some? && form.cropped.value != "" then CroppedImage(form.cropped.value)
    else if |form.files| > 0 then RawFile(form.files[0])
    else NoPicture
  }

  /** Handles a submission: refuses it when a required field is empty, otherwise
      picks the picture source and the template that goes with it. */
  function Submit(form: Form): (s: Submission)
    ensures s.Rejected? <==> MissingRequired(form)
    ensures s.Generate? ==> s.fullName == form.fullName && s.className == form.className && s.signature == form.signature
    ensures s.Generate? ==> s.source == PictureSourceOf(form)
    ensures s.Generate? ==> (s.template == WithCertificateTemplate <==> !s.source.NoPicture?)
    ensures s.Generate? ==> (s.template == WithoutCertificateTemplate <==> s.source.NoPicture?)
  {
    if MissingRequired(form) then Rejected
    else
      var source := PictureSourceOf(form);
      Generate(form.fullName, form.className, form.signature, source, SelectTemplate(!source.NoPicture?))
  }

  /** A usable cropped image wins over a chosen file, a chosen file is used only
      without one, and an unticked picture box means no picture whatever else the form holds. */
  lemma PicturePrecedence(form: Form)
    ensures !form.includePicture ==> PictureSourceOf(form) == NoPicture
    ensures PictureSourceOf(form).CroppedImage? <==>
      form.includePicture && form.cropped.Some? && form.cropped.value != ""
    ensures PictureSourceOf(form).CroppedImage? ==> PictureSourceOf(form).dataUrl == form.cropped.value
    ensures PictureSourceOf(form).RawFile? <==>
      form.includePicture && (form.cropped.None? || form.cropped.value == "") && |form.files| > 0
    ensures PictureSourceOf(form).RawFile? ==> PictureSourceOf(form).file == form.files[0]
    ensures PictureSourceOf(form) == NoPicture <==>
      !form.includePicture || ((form.cropped.None? || form.cropped.value == "") && |form.files| == 0)
  {
  }

  /** The render request a submission leads to, if any: the cropped image's data
      URL, the file's data URL once it has been read (no render while the read
      never completes), or no picture; the chosen template; and a callback. */
  function Dispatch(s: Submission, fileRead: Option<string>): (r: Option<Render.Request>)
    ensures r.None? <==> s.Rejected? || (s.source.RawFile? && fileRead.None?)
    ensures r.Some? ==>
      && r.value.fullName == s.fullName && r.value.className == s.className && r.value.signature == s.signature
      && r.value.templateSrc == Some(s.template) && r.value.hasCallback
    ensures r.Some? && s.source.CroppedImage? ==> r.value.picture == Some(s.source.dataUrl)
    ensures r.Some? && s.source.RawFile? ==> r.value.picture == fileRead
    ensures r.Some? && s.source.NoPicture? ==> r.value.picture.None?
  {
    match s
    case Rejected => None
    case Generate(fullName, className, signature, source, template) =>
      match source
      case CroppedImage(dataUrl) =>
        Some(Render.Request(fullName, className, signature, Some(dataUrl), Some(template), true))
      case RawFile(_) =>
        if fileRead.None? then None
        else Some(Render.Request(fullName, className, signature, Some(fileRead.value), Some(template), true))
      case NoPicture =>
        Some(Render.Request(fullName, className, signature, None, Some(template), true))
  }

  /** The template chosen at submission agrees with the variant the renderer
      selects: the picture template goes with the picture variant and the plain
      template with the plain variant (a data URL read from a file is never empty). */
  lemma TemplateAgreesWithVariant(form: Form, fileRead: Option<string>)
    requires fileRead.Some? ==> fileRead.value != ""
    ensures var req := Dispatch(Submit(form), fileRead);
      req.Some? ==>
        && req.value.hasCallback
        && ((req.value.templateSrc == Some(WithCertificateTemplate)) <==>
            (Render.VariantKey(Render.PictureGiven(req.value.picture)) == "withPicture"))
        && ((req.value.templateSrc == Some(WithoutCertificateTemplate)) <==>
            (Render.VariantKey(Render.PictureGiven(req.value.picture)) == "withoutPicture"))
  {
  }

  /** A rejected submission never reaches the renderer. */
  lemma RejectedNeverRenders(form: Form, fileRead: Option<string>)
    requires MissingRequired(form)
    ensures Dispatch(Submit(form), fileRead) == None
  {
  }

  /** `pattern` occurs in `s` starting at index `i`. */
  predicate MatchesAt(s: string, pattern: string, i: int) {
    0 <= i && i + |pattern| <= |s| && s[i..i + |pattern|] == pattern
  }

  /** Whether `pattern` occurs anywhere in `s`: what testing `s` against the
      unanchored regular expression `image.*` amounts to for the pattern "image". */
  function Occurs(pattern: string, s: string): bool
    decreases |s|
  {
    if |s| < |pattern| then false
    else if s[..|pattern|] == pattern then true
    else Occurs(pattern, s[1..])
  }

  lemma {:induction false} OccursIffSomewhere(pattern: string, s: string)
    ensures Occurs(pattern, s) <==> exists i :: MatchesAt(s, pattern, i)
    decreases |s|
  {
    if |s| < |pattern| {
      forall i ensures !MatchesAt(s, pattern, i) { }
    } else if s[..|pattern|] == pattern {
      assert MatchesAt(s, pattern, 0);
    } else {
      OccursIffSomewhere(pattern, s[1..]);
      if Occurs(pattern, s[1..]) {
        var i :| MatchesAt(s[1..], pattern, i);
        assert s[1..][i..i + |pattern|] == s[i + 1..i + 1 + |pattern|];
        assert MatchesAt(s, pattern, i + 1);
      } else {
        forall i | MatchesAt(s, pattern, i)
          ensures false
        {
          if i != 0 {
            assert s[1..][i - 1..i - 1 + |pattern|] == s[i..i + |pattern|];
            assert MatchesAt(s[1..], pattern, i - 1);
          }
        }
      }
    }
  }

  /** Checks a chosen file: too large first, then not an image type. */
  function ValidateUpload(file: File): (v: UploadVerdict)
    ensures v == TooLarge <==> file.size > MaxUploadBytes
    ensures v == NotAnImage ==> !Occurs("image", file.mimeType)
    ensures v == Accepted ==> Occurs("image", file.mimeType)
  {
    if file.size > MaxUploadBytes then TooLarge
    else if !Occurs("image", file.mimeType) then NotAnImage
    else Accepted
  }

  /** A file is accepted exactly when it is at most 10 MiB and "image" occurs in
      its type; a file over the limit is refused as too large whatever its type. */
  lemma UploadRule(file: File)
    ensures ValidateUpload(file) == Accepted <==>
      file.size <= 10485760 && exists i :: MatchesAt(file.mimeType, "image", i)
    ensures ValidateUpload(file) == TooLarge <==> file.size > 10485760
  {
    OccursIffSomewhere("image", file.mimeType);
  }

  /** Every "image/..." type of at most 10 MiB is accepted. */
  lemma ImageTypesAccepted(subtype: string, size: nat)
    requires size <= MaxUploadBytes
    ensures ValidateUpload(File(size, "image/" + subtype)) == Accepted
  {
  }

  /** The match is unanchored: any type with "image" somewhere in it is accepted,
      "application/x-image" as well as "image/png". */
  lemma UnanchoredTypeMatch(before: string, after: string, size: nat)
    requires size <= MaxUploadBytes
    ensures ValidateUpload(File(size, before + "image" + after)) == Accepted
  {
    var t := before + "image" + after;
    OccursIffSomewhere("image", t);
    assert t[|before|..|before| + 5] == "image";
    assert MatchesAt(t, "image", |before|);
  }
}
