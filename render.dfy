/**
 * Rendering one certificate.
 *
 * The renderer creates a drawing surface and starts decoding the template.
 * When the template has decoded it sizes the surface, paints the template,
 * writes the name, class and signature with the selected layout variant and,
 * when a picture was supplied, decodes it and paints it cover-fitted inside a
 * circular clip before handing the surface to the callback. When the template
 * fails to decode it sizes the surface, fills it with a flat grey, writes the
 * three texts and hands it over, never painting the picture.
 *
 * Decoding is asynchronous in the browser; here each decode is an input
 * outcome, and `Plan` states the whole result of a render as a value:
 * the final size, the draws in order, how often the callback fired and how
 * the render ended. `GenerateCertificate` builds the same result step by step
 * on a `Canvas2D`, as the script does.
 */
module Render {
  import opened Options
  import opened Layout
  import opened Geometry
  import Canvas

  /** The fixed size of a certificate, whatever the template's own size. */
  const CertificateWidth := 3579
  const CertificateHeight := 2551
  /** The flat fill used when the template cannot be decoded. */
  const PlaceholderFill := "#f0f0f0"
  /** The template fetched when no template reference is given. */
  const PlaceholderTemplateUrl := "https://via.placeholder.com/3579x2551.png?text=Certificate+Template"
  /** Every text field is written in this font weight. */
  const TextWeight := 900

  /** How decoding an image turned out: decoded with its pixel size, failed, or never finished. */
  datatype Decode = Loaded(width: Dim, height: Dim) | Failed | Pending

  /** The arguments of one render. `picture` is the picture's data URL, if any;
      `hasCallback` says whether a completion callback was passed. */
  datatype Request = Request(
    fullName: string, className: string, signature: string,
    picture: Option<string>, templateSrc: Option<string>, hasCallback: bool)

  /** How a render ends: its handlers ran to the end, it waits on a decode that
      never calls back, or a handler stopped at a missing configuration entry. */
  datatype Ending = Completed | Stalled | Threw

  /** The observable result of one render. */
  datatype Outcome = Outcome(width: int, height: int, draws: seq<Canvas.Draw>, callbacks: nat, ending: Ending)

  /** The texts drawn so far, and whether all three were drawn. */
  datatype Stage = Stage(draws: seq<Canvas.Draw>, complete: bool)

  /** A picture counts as supplied when its data URL is truthy: of the values a
      data URL can take, only null and the empty string are falsy. */
  predicate PictureGiven(picture: Option<string>)
    ensures PictureGiven(picture) <==> picture !in {None, Some("")}
  {
    picture.Some? && picture.value != ""
  }

  /** The variant key a render uses. */
  function VariantKey(pictureGiven: bool): (key: string)
    ensures key == WithPictureKey <==> pictureGiven
    ensures key == WithoutPictureKey <==> !pictureGiven
  {
    if pictureGiven then WithPictureKey else WithoutPictureKey
  }

  function SelectVariant(c: Config, pictureGiven: bool): (v: Option<Variant>)
    ensures v.Some? <==> VariantKey(pictureGiven) in c
    ensures v.Some? ==> v.value == c[VariantKey(pictureGiven)]
  {
    var key := VariantKey(pictureGiven);
    if key in c then Some(c[key]) else None
  }

  /** The template actually requested: the given reference, or the placeholder when it is absent or empty. */
  function TemplateUrl(src: Option<string>): (url: string)
    ensures url != ""
    ensures src.Some? && src.value != "" ==> url == src.value
    ensures src.None? || src.value == "" ==> url == PlaceholderTemplateUrl
  {
    if src.Some? && src.value != "" then src.value else PlaceholderTemplateUrl
  }

  /** The text placement the renderer reads for `field`; none where reading it
      throws (no variant, or no text record under that name). */
  function StyleOf(v: Option<Variant>, field: string): (r: Option<TextStyle>)
    ensures r.Some? <==> v.Some? && HasText(v.value, field)
    ensures r.Some? ==> v.value[field] == TextPlacement(r.value)
  {
    if v.Some? && HasText(v.value, field) then Some(v.value[field].style) else None
  }

  /** The picture frame the renderer reads; none where reading it throws. */
  function FrameOf(v: Option<Variant>): (r: Option<PictureFrame>)
    ensures r.Some? <==> v.Some? && HasFrame(v.value)
    ensures r.Some? ==> v.value[PictureField] == PicturePlacement(r.value)
  {
    if v.Some? && HasFrame(v.value) then Some(v.value[PictureField].frame) else None
  }

  /** The draw of one text field: right-aligned at the field's anchor, in its
      own size, family and colour, with no clip. */
  function TextDraw(text: string, style: TextStyle): Canvas.Draw {
    Canvas.Text(text, Canvas.Font(TextWeight, style.fontSize, style.fontFamily), style.color,
                Canvas.Right, style.x, style.y, [])
  }

  /** The three text draws, name then class then signature, stopping at the first field the variant lacks. */
  function TextStage(req: Request, v: Option<Variant>): (s: Stage)
    ensures s.complete <==> v.Some? && TextComplete(v.value)
    ensures |s.draws| <= 3 && (s.complete <==> |s.draws| == 3)
    ensures forall i | 0 <= i < |s.draws| ::
      s.draws[i].Text? && s.draws[i].align == Canvas.Right && s.draws[i].font.weight == TextWeight && s.draws[i].clip == []
  {
    match StyleOf(v, NameField)
    case None => Stage([], false)
    case Some(name) =>
      match StyleOf(v, ClassField)
      case None => Stage([TextDraw(req.fullName, name)], false)
      case Some(class_) =>
        match StyleOf(v, SignatureField)
        case None => Stage([TextDraw(req.fullName, name), TextDraw(req.className, class_)], false)
        case Some(signature) =>
          Stage([TextDraw(req.fullName, name), TextDraw(req.className, class_), TextDraw(req.signature, signature)], true)
  }

  /** The picture draw: cover-fitted and clipped to the frame's circle. */
  function PictureDraw(dataUrl: string, frame: PictureFrame, width: Dim, height: Dim): (d: Canvas.Draw)
    ensures d.Image? && d.source == Canvas.PictureImage(dataUrl)
    ensures d.clip == [Canvas.Circle(frame.x, frame.y, frame.radius)]
    ensures d.x + d.w / 2.0 == frame.x && d.y + d.h / 2.0 == frame.y
    ensures d.w * height as real == d.h * width as real
  {
    var r := CoverRect(frame, width, height);
    Canvas.Image(Canvas.PictureImage(dataUrl), r.x, r.y, r.w, r.h, [Canvas.Circle(frame.x, frame.y, frame.radius)])
  }

  predicate IsPictureDraw(d: Canvas.Draw) {
    d.Image? && d.source.PictureImage?
  }

  function Calls(req: Request): nat {
    if req.hasCallback then 1 else 0
  }

  /** The first draw: the template stretched over the whole certificate, or the grey placeholder fill. */
  function Background(req: Request, template: Decode): (d: Canvas.Draw)
    requires !template.Pending?
    ensures d.Image? <==> template.Loaded?
    ensures d.Image? ==> d.source == Canvas.TemplateImage(TemplateUrl(req.templateSrc))
    ensures d.FilledRect? <==> template.Failed?
    ensures d.FilledRect? ==> d.color == PlaceholderFill
    ensures !d.Text? && d.x == 0.0 && d.y == 0.0
    ensures d.w == CertificateWidth as real && d.h == CertificateHeight as real && d.clip == []
  {
    var w, h := CertificateWidth as real, CertificateHeight as real;
    if template.Loaded? then Canvas.Image(Canvas.TemplateImage(TemplateUrl(req.templateSrc)), 0.0, 0.0, w, h, [])
    else Canvas.FilledRect(PlaceholderFill, 0.0, 0.0, w, h, [])
  }

  /** The whole result of a render with configuration `c` (as it stands when
      the template's handler runs) and the given decode outcomes. */
  function Plan(req: Request, c: Config, template: Decode, picture: Decode): (o: Outcome)
    ensures template.Pending? ==> o == Outcome(Canvas.DefaultWidth, Canvas.DefaultHeight, [], 0, Stalled)
    ensures !template.Pending? ==> o.width == CertificateWidth && o.height == CertificateHeight
    ensures o.callbacks <= 1
    ensures o.callbacks == 1 ==> req.hasCallback && o.ending == Completed
    ensures o.ending == Completed ==> o.callbacks == Calls(req)
  {
    if template.Pending? then Outcome(Canvas.DefaultWidth, Canvas.DefaultHeight, [], 0, Stalled)
    else
      var v := SelectVariant(c, PictureGiven(req.picture));
      var texts := TextStage(req, v);
      var draws := [Background(req, template)] + texts.draws;
      if !texts.complete then Outcome(CertificateWidth, CertificateHeight, draws, 0, Threw)
      else if template.Failed? || !PictureGiven(req.picture) then
        Outcome(CertificateWidth, CertificateHeight, draws, Calls(req), Completed)
      else if !picture.Loaded? then Outcome(CertificateWidth, CertificateHeight, draws, 0, Stalled)
      else match FrameOf(v)
        case None => Outcome(CertificateWidth, CertificateHeight, draws, 0, Threw)
        case Some(frame) =>
          if frame.radius < 0.0 then Outcome(CertificateWidth, CertificateHeight, draws, 0, Threw)
          else Outcome(CertificateWidth, CertificateHeight,
                  draws + [PictureDraw(req.picture.value, frame, picture.width, picture.height)],
                  Calls(req), Completed)
  }

  /** Sets the text state for one field and writes it. */
  method PaintField(canvas: Canvas.Canvas2D, text: string, style: TextStyle)
    requires canvas.clip == []
    modifies canvas
    ensures canvas.drawn == old(canvas.drawn) + [TextDraw(text, style)]
    ensures canvas.font == Canvas.Font(TextWeight, style.fontSize, style.fontFamily)
    ensures canvas.fillStyle == style.color && canvas.textAlign == Canvas.Right
    ensures canvas.clip == [] && canvas.stack == old(canvas.stack)
    ensures canvas.width == old(canvas.width) && canvas.height == old(canvas.height)
  {
    canvas.font := Canvas.Font(TextWeight, style.fontSize, style.fontFamily);
    canvas.fillStyle := style.color;
    canvas.textAlign := Canvas.Right;
    canvas.FillText(text, style.x, style.y);
  }

  /** Writes name, class and signature in that order; stops (the script throws)
      at the first field the variant lacks. */
  method PaintTexts(canvas: Canvas.Canvas2D, req: Request, variant: Option<Variant>) returns (complete: bool)
    requires canvas.clip == []
    modifies canvas
    ensures canvas.drawn == old(canvas.drawn) + TextStage(req, variant).draws
    ensures complete == TextStage(req, variant).complete
    ensures canvas.clip == [] && canvas.stack == old(canvas.stack)
    ensures canvas.width == old(canvas.width) && canvas.height == old(canvas.height)
  {
    var name := StyleOf(variant, NameField);
    if name.None? {
      return false;
    }
    PaintField(canvas, req.fullName, name.value);
    var class_ := StyleOf(variant, ClassField);
    if class_.None? {
      return false;
    }
    PaintField(canvas, req.className, class_.value);
    var signature := StyleOf(variant, SignatureField);
    if signature.None? {
      return false;
    }
    PaintField(canvas, req.signature, signature.value);
    complete := true;
  }

  /** Paints the decoded picture cover-fitted inside the frame's circle, between
      a save and a restore of the drawing state; stops (the script throws), with
      the save already made, when the variant has no picture frame or the frame's
      radius is negative. */
  method PaintPicture(canvas: Canvas.Canvas2D, dataUrl: string, variant: Option<Variant>, width: Dim, height: Dim)
    returns (painted: bool)
    requires canvas.clip == []
    modifies canvas
    ensures painted <==> FrameOf(variant).Some? && FrameOf(variant).value.radius >= 0.0
    ensures painted ==> canvas.drawn == old(canvas.drawn) + [PictureDraw(dataUrl, FrameOf(variant).value, width, height)]
    ensures !painted ==> canvas.drawn == old(canvas.drawn)
    ensures painted ==> canvas.stack == old(canvas.stack) && canvas.clip == []
    ensures !painted ==> |canvas.stack| == |old(canvas.stack)| + 1
    ensures canvas.width == old(canvas.width) && canvas.height == old(canvas.height)
  {
    canvas.Save();
    var frame := FrameOf(variant);
    if frame.None? {
      return false;
    }
    var f := frame.value;
    var clipped := canvas.ClipCircle(Canvas.Circle(f.x, f.y, f.radius));
    if !clipped {
      return false;
    }
    assert canvas.clip == [Canvas.Circle(f.x, f.y, f.radius)];
    var r := CoverRect(f, width, height);
    canvas.DrawImage(Canvas.PictureImage(dataUrl), r.x, r.y, r.w, r.h);
    canvas.Restore();
    painted := true;
  }

  /** Renders a certificate on a new surface, step by step. */
  method GenerateCertificate(req: Request, config: Config, template: Decode, picture: Decode)
    returns (canvas: Canvas.Canvas2D, callbacks: nat, ending: Ending)
    ensures fresh(canvas)
    ensures var o := Plan(req, config, template, picture);
      && canvas.width == o.width && canvas.height == o.height && canvas.drawn == o.draws
      && callbacks == o.callbacks && ending == o.ending
  {
    canvas := new Canvas.Canvas2D();
    callbacks := 0;
    if template.Pending? {
      ending := Stalled;
      return;
    }
    canvas.SetSize(CertificateWidth, CertificateHeight);
    if template.Loaded? {
      canvas.DrawImage(Canvas.TemplateImage(TemplateUrl(req.templateSrc)), 0.0, 0.0, canvas.width as real, canvas.height as real);
      canvas.textAlign := Canvas.Center;
    } else {
      canvas.fillStyle := PlaceholderFill;
      canvas.FillRect(0.0, 0.0, canvas.width as real, canvas.height as real);
    }
    assert canvas.drawn == [Background(req, template)];
    var pictureGiven := PictureGiven(req.picture);
    var variant := SelectVariant(config, pictureGiven);
    var complete := PaintTexts(canvas, req, variant);
    assert canvas.drawn == [Background(req, template)] + TextStage(req, variant).draws;
    if !complete {
      ending := Threw;
      return;
    }
    if template.Loaded? && pictureGiven {
      if !picture.Loaded? {
        ending := Stalled;
        return;
      }
      var painted := PaintPicture(canvas, req.picture.value, variant, picture.width, picture.height);
      if !painted {
        ending := Threw;
        return;
      }
    }
    if req.hasCallback {
      callbacks := 1;
    }
    ending := Completed;
  }
}
