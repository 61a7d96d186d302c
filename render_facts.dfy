/**
 * What the render plan guarantees: the fixed size, the background first,
 * the three texts in fixed order from the variant chosen by the picture
 * alone, the picture drawn only on the template-and-picture-decoded path,
 * the callback firing exactly once where it should and never twice, and a
 * change to one field's placement moving only that field's draw.
 */
module RenderFacts {
  import opened Options
  import opened Layout
  import opened Geometry
  import Canvas
  import opened Render

  /** The draw index of each text field. */
  function FieldIndex(field: string): nat {
    if field == NameField then 1 else if field == ClassField then 2 else 3
  }

  /** The request string written for each text field. */
  function FieldText(req: Request, field: string): string {
    if field == NameField then req.fullName else if field == ClassField then req.className else req.signature
  }

  /** With a well-formed configuration all three texts are drawn from the chosen variant. */
  lemma TextsComplete(req: Request, c: Config)
    requires WellFormed(c)
    ensures var v := c[VariantKey(PictureGiven(req.picture))];
      TextStage(req, SelectVariant(c, PictureGiven(req.picture)))
        == Stage([TextDraw(req.fullName, v[NameField].style),
                  TextDraw(req.className, v[ClassField].style),
                  TextDraw(req.signature, v[SignatureField].style)], true)
  {
  }

  /** Whatever the configuration, the first draw of a render whose template
      handler ran is the template stretched over the whole certificate, or on
      a template error the grey placeholder fill. */
  lemma BackgroundComesFirst(req: Request, c: Config, template: Decode, picture: Decode)
    requires !template.Pending?
    ensures var o := Plan(req, c, template, picture);
      && |o.draws| >= 1
      && (template.Loaded? ==> o.draws[0] == Canvas.Image(Canvas.TemplateImage(TemplateUrl(req.templateSrc)),
                                                         0.0, 0.0, 3579.0, 2551.0, []))
      && (template.Failed? ==> o.draws[0] == Canvas.FilledRect("#f0f0f0", 0.0, 0.0, 3579.0, 2551.0, []))
  {
  }

  /** On both paths, draws 1 to 3 write name, class and signature in that order,
      each right-aligned with its own placement from the variant the picture selects. */
  lemma TextsInFixedOrder(req: Request, c: Config, template: Decode, picture: Decode)
    requires WellFormed(c) && !template.Pending?
    ensures var o := Plan(req, c, template, picture);
      var v := c[VariantKey(PictureGiven(req.picture))];
      && |o.draws| >= 4
      && o.draws[1] == TextDraw(req.fullName, v[NameField].style)
      && o.draws[2] == TextDraw(req.className, v[ClassField].style)
      && o.draws[3] == TextDraw(req.signature, v[SignatureField].style)
      && forall i | 1 <= i < 4 :: o.draws[i].Text? && o.draws[i].align == Canvas.Right && o.draws[i].font.weight == 900
  {
  }

  /** The render depends on the configuration only through the variant the
      picture selects: configurations that agree on that variant render alike. */
  lemma OnlySelectedVariantMatters(req: Request, c1: Config, c2: Config, template: Decode, picture: Decode)
    requires var key := VariantKey(PictureGiven(req.picture));
      (key in c1 <==> key in c2) && (key in c1 ==> c1[key] == c2[key])
    ensures Plan(req, c1, template, picture) == Plan(req, c2, template, picture)
  {
  }

  /** With a well-formed configuration no handler throws, the callback fires
      exactly once on the three completing paths (template decoded without a
      picture, template and picture decoded, template failed) and otherwise
      never; in particular a picture that fails to decode leaves the render stalled. */
  lemma CallbackExactlyOnce(req: Request, c: Config, template: Decode, picture: Decode)
    requires WellFormed(c)
    ensures var o := Plan(req, c, template, picture);
      var completes := !template.Pending? && (template.Failed? || !PictureGiven(req.picture) || picture.Loaded?);
      && o.ending != Threw
      && (o.ending == Completed <==> completes)
      && (o.callbacks == 1 <==> completes && req.hasCallback)
      && (o.callbacks != 1 ==> o.callbacks == 0)
  {
  }

  /** On a template error the picture is never drawn, even when one was supplied. */
  lemma TemplateErrorNeverDrawsPicture(req: Request, c: Config, picture: Decode)
    ensures forall d | d in Plan(req, c, Failed, picture).draws :: !IsPictureDraw(d)
  {
  }

  /** With a well-formed configuration, the picture is drawn exactly when the
      template decoded, a picture was supplied and it decoded; it is then the
      fifth and last draw, cover-fitted to the picture variant's frame. */
  lemma PictureDrawnIff(req: Request, c: Config, template: Decode, picture: Decode)
    requires WellFormed(c)
    ensures var o := Plan(req, c, template, picture);
      var drawn := template.Loaded? && PictureGiven(req.picture) && picture.Loaded?;
      && ((exists i | 0 <= i < |o.draws| :: IsPictureDraw(o.draws[i])) <==> drawn)
      && (drawn ==>
            && |o.draws| == 5
            && o.draws[4] == PictureDraw(req.picture.value, c[WithPictureKey][PictureField].frame, picture.width, picture.height))
      && (!drawn && !template.Pending? ==> |o.draws| == 4)
  {
    TextsComplete(req, c);
    var o := Plan(req, c, template, picture);
    if template.Pending? {
      assert o.draws == [];
    } else {
      assert forall i | 0 <= i < 4 :: !IsPictureDraw(o.draws[i]);
      if template.Loaded? && PictureGiven(req.picture) && picture.Loaded? {
        assert IsPictureDraw(o.draws[4]);
      } else {
        assert |o.draws| == 4;
      }
    }
  }

  /** A picture frame with a negative radius makes tracing the clip circle
      throw once the picture has decoded: the texts stay, the picture is never
      drawn and the callback never fires. */
  lemma NegativeRadiusThrows(req: Request, c: Config, picture: Decode)
    requires WithPictureKey in c && TextComplete(c[WithPictureKey]) && HasFrame(c[WithPictureKey])
    requires c[WithPictureKey][PictureField].frame.radius < 0.0
    requires PictureGiven(req.picture) && picture.Loaded?
    ensures var o := Plan(req, c, Loaded(CertificateWidth, CertificateHeight), picture);
      && o.ending == Threw && o.callbacks == 0 && |o.draws| == 4
      && forall i | 0 <= i < |o.draws| :: !IsPictureDraw(o.draws[i])
  {
  }

  /** Updating the default picture frame to radius -1 and rendering with a
      decoded template and picture ends in a throw with no callback. */
  lemma ScenarioNegativeRadiusUpdate(req: Request, picture: Decode)
    requires PictureGiven(req.picture) && picture.Loaded?
    ensures var c := Merge(DefaultConfig(),
                           map[WithPictureKey := map[PictureField := PicturePlacement(PictureFrame(3085.0, 1045.0, -1.0, 1.1))]]);
      var o := Plan(req, c, Loaded(CertificateWidth, CertificateHeight), picture);
      o.ending == Threw && o.callbacks == 0
  {
  }

  /** Replacing the placement of one text field in the selected variant changes
      that field's draw and no other part of the render. */
  lemma FieldIsolation(req: Request, c: Config, template: Decode, picture: Decode, field: string, style: TextStyle)
    requires WellFormed(c) && IsTextField(field) && !template.Pending?
    ensures var key := VariantKey(PictureGiven(req.picture));
      var o := Plan(req, c, template, picture);
      var o' := Plan(req, c[key := c[key][field := TextPlacement(style)]], template, picture);
      && |o'.draws| == |o.draws| && o'.callbacks == o.callbacks && o'.ending == o.ending
      && o'.draws[FieldIndex(field)] == TextDraw(FieldText(req, field), style)
      && forall i | 0 <= i < |o.draws| && i != FieldIndex(field) :: o'.draws[i] == o.draws[i]
  {
  }

  /** A certificate without a picture whose template is missing: grey background,
      three right-aligned texts at their default places, one callback. */
  lemma ScenarioTemplateMissing()
    ensures Plan(Request("Ahmad Youssef", "Grade 10", "A.Y.", None, Some("templates/without-certificate.jpg"), true),
                 DefaultConfig(), Failed, Pending)
      == Outcome(3579, 2551, [
           Canvas.FilledRect("#f0f0f0", 0.0, 0.0, 3579.0, 2551.0, []),
           Canvas.Text("Ahmad Youssef", Canvas.Font(900, 150.0, DefaultFontFamily), "#212121", Canvas.Right, 2100.0, 1325.0, []),
           Canvas.Text("Grade 10", Canvas.Font(900, 150.0, DefaultFontFamily), "#212121", Canvas.Right, 2100.0, 1525.0, []),
           Canvas.Text("A.Y.", Canvas.Font(900, 130.0, DefaultFontFamily), "#212121", Canvas.Right, 2980.0, 1910.0, [])
         ], 1, Completed)
  {
  }

  /** The same request with a 1200 by 800 picture and a decoded template: the
      picture is scaled by 1.1 * max(640/1200, 640/800) = 0.88 to 1056 by 704 and
      centred on (3085, 1045) inside the circle of radius 320. */
  lemma ScenarioWidePicture()
    ensures Plan(Request("Ahmad Youssef", "Grade 10", "A.Y.", Some("data:image/jpeg;base64,AA=="),
                         Some("templates/with-certificate.jpg"), true),
                 DefaultConfig(), Loaded(3579, 2551), Loaded(1200, 800)).draws[4]
      == Canvas.Image(Canvas.PictureImage("data:image/jpeg;base64,AA=="), 2557.0, 693.0, 1056.0, 704.0,
                      [Canvas.Circle(3085.0, 1045.0, 320.0)])
  {
  }
}
