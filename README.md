# Certificate renderer — a Dafny model

This project models the logic inside `script.js`, a browser script that draws a
personalised certificate. The script writes a name, a class and a signature onto
a background template, and can add a round profile picture. Four parts are modelled:

- **Layout configuration store** (`layout.dfy`, module `Layout`). The global
  configuration has two variants, `withPicture` and `withoutPicture`. Each variant
  maps field names to placement records. The store is a class with a `Config`
  field. `Update` merges an update into it one top-level key at a time, in place,
  and only one level deep. `Snapshot` returns a detached copy.
- **Drawing surface** (`canvas.dfy`, module `Canvas`). `Canvas2D` holds the
  2D-context state the renderer sets before each draw: size, font, fill colour,
  text alignment, clip regions and the save/restore stack. It also keeps a log of
  draws, each recorded with the state it was made under.
- **Render** (`render.dfy`, `render_facts.dfy`). `Plan` describes the whole result
  of one render as a value: the final size, the draws in order, how many times the
  callback fired, and how the render ended. `GenerateCertificate` builds the same
  result step by step on a fresh `Canvas2D`, and it is proved equal to `Plan`.
  The decodes of the template and of the picture are inputs. Each is loaded (with
  its pixel size), failed, or pending forever. Cover-fit geometry (`geometry.dfy`)
  uses `real` arithmetic.
- **Submit and upload rules** (`submit.dfy`). These cover refusing a form that has
  an empty required field, choosing the picture source (cropped image, then the
  raw file, then none), choosing the template, building the request passed to the
  renderer, and validating an uploaded file by size and type.

Constants come from the code: the canvas is 3579×2551, the placeholder fill is
`#f0f0f0`, text weight is 900, the upload limit is 10·1024·1024 bytes, and the
default placements are those at `script.js:4-64`. A fresh surface has the HTML
canvas defaults: 300×150, font `10px sans-serif`, fill `#000000`, alignment
`start`. Setting the surface size clears it and resets that state.

Every text draw is right-aligned: the script sets `textAlign = 'right'` before
each `fillText` (script.js:120,126,132). A picture that fails to decode has no
error handler, so the callback never fires; the model ends that path as `Stalled`
with no callback (`RenderFacts.CallbackExactlyOnce`).

Two situations make the script throw inside an image handler:

- A missing variant or field raises a TypeError when its properties are read.
- A negative picture radius makes `ctx.arc` (script.js:142) throw after the
  `save`, so there is no picture draw, no `restore` and no callback
  (`RenderFacts.NegativeRadiusThrows`).

In both cases the model keeps the draws made up to that point, fires no
callback, and ends the render as `Threw`. A configuration is well-formed when it
has both variants, all three text placements in each, and a picture frame with a
non-negative radius in `withPicture`. The default configuration is well-formed.
An update is well-shaped when every record fits its field name and every picture
frame has a non-negative radius. Well-shaped updates keep a configuration
well-formed (`Layout.MergePreservesWellFormed`). Other updates are accepted by the
script as they are, and `RenderFacts.ScenarioNegativeRadiusUpdate` shows one that
makes the next render with a picture throw.

## Model

| member | source | states |
|---|---|---|
| `Layout.DefaultConfig` | script.js:4-64 | the initial configuration has exactly the two variants; both carry name, class and signature text placements; only `withPicture` carries a picture frame, and its radius is non-negative |
| `Layout.Merge` | script.js:67-73 | an update never adds or removes a top-level key |
| `Layout.MergeIgnoresUnknownKeys` | script.js:68-69 | update keys that name no existing variant have no effect |
| `Layout.MergeLeavesUnnamedVariants` | script.js:68-72 | a variant not named in the update is unchanged |
| `Layout.MergeIsShallow` | script.js:69-70 | within a named variant, each supplied field replaces the old record as a whole; unsupplied fields keep their records; the variant's field names become the old ones plus the supplied ones |
| `Layout.MergeIdempotent` | script.js:67-73 | applying the same update twice has the same effect as applying it once |
| `Layout.MergePreservesWellFormed` | script.js:67-73 | a well-formed configuration stays well-formed under an update whose records fit their field names and whose picture frames have a non-negative radius |
| `Layout.ConfigStore.constructor` | script.js:4-64 | the store starts with the default configuration |
| `Layout.ConfigStore.Update` | script.js:67-73 | the key-by-key in-place loop leaves the store equal to the merge of the old configuration with the update, whatever order the keys are visited in, and keeps it well-formed |
| `Layout.ConfigStore.Snapshot` | script.js:76-78 | the returned copy equals the current configuration |
| `Layout.SnapshotIsDetached` | script.js:76-78 | a copy taken before an update still holds the old configuration; a copy taken after holds the merged one |
| `Geometry.CoverScale` | script.js:147-151 | the factor is non-negative for a non-negative radius and scale; partners: `Geometry.CoverScaleFitsShorterSide` and `Geometry.CoverFitCoversCircle` |
| `Geometry.CoverScaleFitsShorterSide` | script.js:147-151 | for a non-negative radius, the factor maps the picture's shorter side exactly onto the frame's diameter times its scale |
| `Geometry.CoverRect` | script.js:147-157 | the drawn picture is centred on the frame's centre and keeps the picture's aspect ratio |
| `Geometry.CoverFitSpansDiameter` | script.js:147-153 | for non-negative radius and scale, both drawn sides are at least 2·radius·scale, and the smaller side equals it |
| `Geometry.CoverFitCoversCircle` | script.js:140-157 | with scale at least 1, every point of the clip circle lies inside the drawn picture |
| `Geometry.WithinRadiusOnAxis` | script.js:142 | a point inside the clip circle lies within one radius of its centre along each axis |
| `Canvas.Canvas2D.constructor` | script.js:85-86 | a new surface is 300×150, blank, in the default drawing state |
| `Canvas.Canvas2D.SetSize` | script.js:90-91 | setting the size clears the surface and resets its drawing state |
| `Canvas.Canvas2D.FillText` | script.js:121 | a text draw is logged with the current font, fill colour, alignment and clip |
| `Canvas.Canvas2D.FillRect` | script.js:176 | a rectangle fill is logged with the current fill colour and clip |
| `Canvas.Canvas2D.DrawImage` | script.js:157 | an image draw is logged with its rectangle and the current clip |
| `Canvas.Canvas2D.Save` | script.js:140 | the current drawing state is pushed |
| `Canvas.Canvas2D.ClipCircle` | script.js:141-144 | the trace succeeds if and only if the radius is non-negative; the clip then gains the traced circle, and otherwise it is unchanged |
| `Canvas.Canvas2D.Restore` | script.js:158 | the last saved state is popped and reinstated; with nothing saved, nothing changes |
| `Render.PictureGiven` | script.js:101-103 | a picture counts as given if and only if it is present and not the empty string; partner: `Render.VariantKey` and `RenderFacts.PictureDrawnIff` |
| `Render.StyleOf` | script.js:118-130 | a text placement is found if and only if the variant holds a text record under that field, and it is that record; partner: `RenderFacts.FieldIsolation` |
| `Render.FrameOf` | script.js:142 | a frame is found if and only if the variant holds a picture record under `picture`, and it is that record; partner: `RenderFacts.PictureDrawnIff` |
| `Render.TextStage` | script.js:115-133 | at most three draws, all right-aligned texts in weight 900 with no clip; the stage is complete if and only if the variant has all three text fields, exactly when it made three draws; partner: `RenderFacts.TextsInFixedOrder` |
| `Render.Background` | script.js:171-176 | the first draw is the template image (drawn at script.js:94) if and only if it decoded and the `#f0f0f0` fill if and only if it failed, always at the origin, 3579×2551 and unclipped; partner: `RenderFacts.BackgroundComesFirst` |
| `Render.PictureDraw` | script.js:147-157 | the picture draw is the picture image, clipped to exactly the frame's circle, centred on it and with the picture's aspect ratio; partner: `Geometry.CoverFitCoversCircle` |
| `Render.VariantKey` | script.js:101-103 | the `withPicture` variant is chosen if and only if a picture is given |
| `Render.SelectVariant` | script.js:179-181 | the selected variant is the configuration's entry under that key, and is absent when the key is missing |
| `Render.TemplateUrl` | script.js:213 | the template reference is used when present and non-empty; otherwise the placeholder URL is used |
| `Render.Plan` | script.js:84-214 | the size is 3579×2551 once the template handler runs; a pending template leaves a blank default surface; the callback fires at most once, and only when one was given and the render completed; a negative picture radius ends the render as thrown before the picture draw |
| `Render.PaintField` | script.js:118-121 | one text field is written right-aligned, in weight 900, with its own size, family, colour and anchor, and the surface's font, fill colour and alignment are left at those values |
| `Render.PaintTexts` | script.js:118-133 | name, class and signature are written in that order, stopping at the first field the variant lacks |
| `Render.PaintPicture` | script.js:136-158 | the picture is painted if and only if the variant has a frame with a non-negative radius; it is then drawn cover-fitted inside the frame's circle, and the restore brings back the saved stack and the empty clip; otherwise nothing is drawn and the save is left unmatched, as when the script throws reading a missing frame or tracing a negative radius |
| `Render.GenerateCertificate` | script.js:84-214 | the step-by-step render on a fresh surface ends with the size, draws, callback count and ending that `Plan` gives |
| `RenderFacts.TextsComplete` | script.js:194-207 | with a well-formed configuration, all three texts are drawn from the variant the picture selects |
| `RenderFacts.BackgroundComesFirst` | script.js:171-176 | the first draw is the template stretched over 3579×2551, or the `#f0f0f0` fill when the template failed |
| `RenderFacts.TextsInFixedOrder` | script.js:115-133 | on both paths, draws 1–3 are name, class and signature, in that order, right-aligned, each with its own placement from the selected variant |
| `RenderFacts.OnlySelectedVariantMatters` | script.js:100-103 | configurations that agree on the selected variant render identically, so the choice depends only on the picture |
| `RenderFacts.CallbackExactlyOnce` | script.js:136-211 | with a well-formed configuration (which includes a non-negative picture radius), the callback fires exactly once when the template decoded with no picture, when the template and the picture decoded, and when the template failed; otherwise it never fires; a failed picture decode stalls the render |
| `RenderFacts.TemplateErrorNeverDrawsPicture` | script.js:171-212 | on the template-error path no picture is drawn, even when one was supplied |
| `RenderFacts.PictureDrawnIff` | script.js:135-169 | the picture is drawn if and only if the template decoded and a picture was given and decoded; it is then the fifth and last draw, cover-fitted to the `withPicture` frame |
| `RenderFacts.NegativeRadiusThrows` | script.js:136-142 | with a negative radius in the `withPicture` frame and a decoded picture, the render throws after the background and three texts: four draws, no picture draw, no callback |
| `RenderFacts.ScenarioNegativeRadiusUpdate` | script.js:136-142 | after updating the default frame's radius to -1, a render with a decoded picture throws with no callback |
| `RenderFacts.FieldIsolation` | script.js:118-133 | replacing one text field's placement in the selected variant changes that field's draw and nothing else |
| `RenderFacts.ScenarioTemplateMissing` | script.js:171-211 | with the default configuration, no picture and a missing template: a grey fill, then three texts at (2100,1325), (2100,1525) and (2980,1910), then one callback |
| `RenderFacts.ScenarioWidePicture` | script.js:147-157 | a 1200×800 picture in the default frame is scaled by 0.88 to 1056×704 and drawn at (2557,693) inside the radius-320 circle |
| `Submit.SelectTemplate` | script.js:600-602 | the picture template is chosen exactly when a picture is used |
| `Submit.Submit` | script.js:594-624 | a submission is refused if and only if a required field is empty; otherwise it carries the form's names and the picture source the precedence rule picks, with the picture template going with a picture source and the plain template with none |
| `Submit.PictureSourceOf` | script.js:605-621 | a cropped image comes from the form's non-empty crop, a raw file is the first chosen file, and any picture requires the box to be ticked; partner: `Submit.PicturePrecedence` |
| `Submit.PicturePrecedence` | script.js:605-624 | an unticked picture box means no picture; the cropped image is used if and only if the box is ticked and the crop is non-empty; the first chosen file is used if and only if the box is ticked, there is no such crop and a file was chosen; there is no picture exactly in the remaining cases |
| `Submit.Dispatch` | script.js:609-636 | no request is made if and only if the submission was refused or its raw file could not be read; a request carries the form's names and template, a callback, and the crop, the read file or no picture according to the source; partner: `Submit.TemplateAgreesWithVariant` |
| `Submit.TemplateAgreesWithVariant` | script.js:605-636 | the template sent to the renderer names the picture template exactly when the renderer selects the `withPicture` variant, and a callback is always passed |
| `Submit.RejectedNeverRenders` | script.js:594-597 | a refused submission never reaches the renderer |
| `Submit.OccursIffSomewhere` | script.js:413 | the substring search succeeds exactly when the pattern occurs at some index |
| `Submit.ValidateUpload` | script.js:406-417 | a file is refused as too large if and only if it exceeds 10 MiB; it is refused as not an image only when "image" does not occur in its type, and accepted only when it does; partner: `Submit.UploadRule` |
| `Submit.UploadRule` | script.js:406-417 | a file is accepted if and only if it is at most 10 MiB and "image" occurs in its type; it is refused as too large exactly when it exceeds 10 MiB |
| `Submit.ImageTypesAccepted` | script.js:413 | every `image/...` type within the size limit is accepted |
| `Submit.UnanchoredTypeMatch` | script.js:413 | any type that contains "image" anywhere is accepted, because the match is not anchored |

## Left out

- DOM construction and styling of the cropper modal, the language toggle, the
  picture-checkbox label handling, and `displayCertificate`'s scrolling. These are
  page plumbing with no decision logic.
- Cropper.js (zoom, rotate, crop to 480×360). It is a third-party library. The
  crop result enters the model only as the optional cropped data URL of a `Form`.
- Asynchrony. FileReader, image decoding and the `setTimeout` animations are not
  modelled. Each decode is an input outcome, and so is the result of reading a
  raw file. A read that never completes leads to no render (`Submit.Dispatch`).
- `Render.Plan`: the renderer reads the configuration twice, once when the
  template handler runs and again when the picture handler runs. The model uses
  one configuration for both. An update made between the two reads is not modelled.
- Rasterisation. Fonts, text measurement, clip pixels and `toDataURL` are not
  modelled. Draws are abstract log entries, and the font is a (weight, size,
  family) value rather than a CSS string.
- Floating-point rounding in the scale and offset computation. The model uses
  `real`.
- Decoded images of zero width or height. Dimensions are positive integers.
- Analytics (`gtag`), `console.log` and `alert`. An alert appears as a refusal
  verdict (`Submit.Rejected`, `Submit.TooLarge`, `Submit.NotAnImage`).
- `getDeviceType`, the download file name and the link click. They are
  user-agent sniffing and I/O.
- The `htmlRoot` argument and the `isArabic` flag derived from it. They do not
  affect the output.
- The check that `window.generateCertificate` is defined. It always is, within
  this script.
- JavaScript values of other shapes. Only placement records of the two modelled
  kinds are covered. Not covered: update values that are not objects, records
  set to `undefined`, and inherited property names such as `toString` that pass
  the script's truthiness check for a top-level key.
- `Render.PaintField`: the configured colours and font families are assumed to
  parse. A real canvas ignores an unparsable `fillStyle` or `font` and keeps the
  previous value; the model always records the configured value.
- `Layout.ConfigStore.Update`: placement records are held as values.
  `Object.assign` (script.js:70) stores the caller's objects by reference, so a
  later mutation of those objects by the caller, or a record shared between the
  two variants, would show through in the script; that aliasing is not modelled.
- `Render.StyleOf` and `Render.FrameOf` treat a record of the wrong kind under a
  field name, such as a picture frame stored under `name`, like a missing record.
  The script would instead draw with undefined properties. The default
  configuration, updated only with records that fit their field names, never
  contains such a record.
- The script visits update keys in insertion order. The model visits them in any
  order, and the result is proved to be the same.
