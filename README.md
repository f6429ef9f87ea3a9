# Slide-show creator: a verified model of the deck assembler

`SlideShowCreator` builds a PowerPoint deck from a list of image files. It copies a template
presentation and then, in `CreateSlides`, adds one slide per image. The slides keep the input
order. Each slide reuses the first layout of the first slide master and holds one picture.

This Dafny project models the core of that class. The modules are:

- `Identifiers`: the slide-id counter.
  - It is a C# `uint` that starts at 256 and is incremented once per image.
  - It wraps at 2^32.
  - Each slide's relationship id is `"rel"` followed by the counter's decimal digits.
- `Geometry`: the two-step pixel rescale of `GetImageData`, in two versions.
  - One uses mathematical integers.
  - One uses the source's 32-bit `int` product and truncating division.
- `ImageFormats`: `GetImageData`.
  - It classifies the decoded bitmap's raw format as one of five image part types, or throws an error that names the file.
  - It rescales the pixel size.
  - It hands the result to the EMU conversion.
- `Paths`: `Path.GetFileNameWithoutExtension`, which gives each picture its name and description.
- `SlideFragment`: `GenerateSlidePart`, a pure function that builds the slide's XML tree as a datatype.
- `Assembly`: the package and the loop.
  - The package is abstracted to its slide masters, the presentation part's children keyed by relationship id, and the optional slide-id list.
  - `CreateSlidesSpec` and `CreateSlideShowSpec` are functions that say what a build does.
  - The classes `PresentationPackage` and `SlideShowCreator` carry the imperative version: a `while` loop that changes the package in place, proved against those functions.
  - The lemmas state the closed form of a build:
    - which slides exist, and their ids and relationship ids;
    - that the first layout is shared, and the `"relId1"` image wiring;
    - that the error path stops at the first failing image and keeps the slides added before it;
    - the number of `Step` notifications.

The loop is proved once for an abstract per-image builder `build`. The predicate
`BuildsSlides` ties `build` to the builder `CreateSlides` actually uses, which is
`GetImageData` followed by the slide part. An exception becomes a `BuildError` value, and the
build's result is a `Progress`: the package, the notification count and the error, if any.
On an exception the package keeps the slides committed before it, because the document's
changes are kept when it is closed.

The rescale follows the code. Both steps use floor division. The second step starts from the
dimensions the first step produced, so a 2048 x 1080 image becomes 1024 x 2160 and then
3072 x 720 (`Geometry.RescaleTwoPass`). Computing the second step with the original width
would give 6144 x 720; line 219 uses the width the first resize produced.

## Model

| member | source | states |
|---|---|---|
| Identifiers.Increment | PPTSlideShowCreator/SlideShowCreator.cs:146 | `currentSlideId++` on a `uint` adds one below 2^32 - 1 and wraps from 2^32 - 1 to 0 |
| Identifiers.SlideIdAtClosedForm | PPTSlideShowCreator/SlideShowCreator.cs:83-146 | the counter for the k-th image (0-based) is (256 + k) mod 2^32 |
| Identifiers.SlideIdAtNoWrap | PPTSlideShowCreator/SlideShowCreator.cs:83-146 | without wrap-around the k-th image gets id 256 + k, so each iteration advances the id by exactly one |
| Identifiers.SlideIdsInRangeIff | PPTSlideShowCreator/SlideShowCreator.cs:80-83 | the ids of n images all lie in the ST_SlideId range [256, 2^31) if and only if 256 + n <= 2^31 |
| Identifiers.SlideIdsIncreasing | PPTSlideShowCreator/SlideShowCreator.cs:142-146 | while the counter does not wrap, the ids of earlier images are strictly smaller than those of later ones |
| Identifiers.SlideIdWrapsAround | PPTSlideShowCreator/SlideShowCreator.cs:83-146 | the ids repeat with period 2^32: image k + 2^32 gets the id of image k |
| Identifiers.DecimalIsNumeral | PPTSlideShowCreator/SlideShowCreator.cs:116 | the text appended to "rel" is a non-empty string of digits, with a leading zero only for 0 |
| Identifiers.DecimalRoundTrip | PPTSlideShowCreator/SlideShowCreator.cs:116 | reading the decimal text of n back gives n |
| Identifiers.RelIdRoundTrip | PPTSlideShowCreator/SlideShowCreator.cs:116 | the slide id can be recovered from its relationship id "rel" + id |
| Identifiers.RelIdInjective | PPTSlideShowCreator/SlideShowCreator.cs:115-116 | two relationship ids are equal if and only if their slide ids are equal |
| Identifiers.RelIdsDistinct | PPTSlideShowCreator/SlideShowCreator.cs:115-116 | without wrap-around the relationship ids of one build are pairwise distinct |
| Geometry.Rescale | PPTSlideShowCreator/SlideShowCreator.cs:211-221 | an image within 1024 x 720 keeps its size; the result is never taller than 720; it is wider than 1024 only when its height is exactly 720 |
| Geometry.RescaleKeepsPixelCount | PPTSlideShowCreator/SlideShowCreator.cs:211-221 | a real image stays a real image, and the pixel count does not grow and drops by less than 1024 + 720 (the policy keeps area, not aspect ratio) |
| Geometry.RescaleWidthUnbounded | PPTSlideShowCreator/SlideShowCreator.cs:217-221 | the rescaled width has no bound: any bound is exceeded by a tall enough image |
| Geometry.RescaleTwoPass | PPTSlideShowCreator/SlideShowCreator.cs:211-221 | the second step starts from the first step's output: 2048 x 1080 becomes 1024 x 2160, then 3072 x 720 |
| Geometry.WrapInt32 | PPTSlideShowCreator/SlideShowCreator.cs:214 | unchecked `int` arithmetic gives a value in the `int` range that is congruent to the exact value modulo 2^32 (wrap-around, not saturation), and equal to it when it fits |
| Geometry.DivInt32 | PPTSlideShowCreator/SlideShowCreator.cs:214 | C# `int` division by a positive divisor truncates toward zero: floor for non-negative dividends, the negated floor of the negation otherwise |
| Geometry.RescaleInt32WithoutOverflow | PPTSlideShowCreator/SlideShowCreator.cs:211-221 | while width * height fits in an `int`, the 32-bit code computes the same size as the mathematical rescale |
| Geometry.RescaleInt32Overflows | PPTSlideShowCreator/SlideShowCreator.cs:214 | for a 46341 x 46341 bitmap the 32-bit code asks for a 1024 x -2097147 image, while the intended rescale gives a positive size |
| ImageFormats.Classify | PPTSlideShowCreator/SlideShowCreator.cs:196-209 | succeeds exactly for BMP, GIF, JPEG, PNG and TIFF, with the part type of the same format; otherwise fails with "Unsupported image file format: " followed by the path |
| ImageFormats.ClassifySourceFormat | PPTSlideShowCreator/SlideShowCreator.cs:196-205 | classification and the part type's source format are inverse on the five supported formats |
| ImageFormats.UnsupportedMessageNamesPath | PPTSlideShowCreator/SlideShowCreator.cs:208 | the unsupported-format message ends with exactly the path of the file |
| ImageFormats.GetImageData | PPTSlideShowCreator/SlideShowCreator.cs:173-234 | succeeds exactly for a supported format, otherwise fails with the message that names the file; on success returns the file's bytes unchanged, the matching part type, the rescaled pixel size, and the EMU size of that rescaled size at the bitmap's resolutions |
| ImageFormats.ImageDataGeometry | PPTSlideShowCreator/SlideShowCreator.cs:211-228 | the pixel size handed to the EMU conversion is positive and no taller than 720, and equals the bitmap's size when that is within 1024 x 720 |
| Paths.FileNameIsLastComponent | PPTSlideShowCreator/SlideShowCreator.cs:113 | the file name is the longest suffix of the path that holds no directory or volume separator |
| Paths.WithoutExtensionCutsLastDot | PPTSlideShowCreator/SlideShowCreator.cs:113 | the name is cut just before its last '.', and a name without '.' is kept whole |
| Paths.FileNameWithoutExtensionHasNoSeparator | PPTSlideShowCreator/SlideShowCreator.cs:113 | the picture name never contains a separator |
| SlideFragment.GenerateSlidePartShape | PPTSlideShowCreator/SlideShowCreator.cs:238-276 | the slide has exactly one picture, whose name, description and EMU extents are the arguments; drawing ids 1 and 4; one image reference "relId1"; an unnamed group with the all-zero transform; a rectangle at (100,100) with locked aspect and stretch fill; the master colour mapping |
| SlideFragment.GeneratedIdsDistinct | PPTSlideShowCreator/SlideShowCreator.cs:245-256 | the drawing ids of a generated slide are pairwise distinct |
| SlideFragment.GenerateSlidePartInjective | PPTSlideShowCreator/SlideShowCreator.cs:238-276 | equal slides come from equal arguments: the builder keeps all four inputs |
| Assembly.NewSlidePartWired | PPTSlideShowCreator/SlideShowCreator.cs:122-137 | a new slide part links to the given layout, has one image part under "relId1", which is the id its picture embeds, holding the image's bytes and part type; its picture is named and described by the file name without extension and sized in EMU |
| Assembly.SlideForOutcome | PPTSlideShowCreator/SlideShowCreator.cs:113-137 | building an image's slide fails exactly on an unsupported format, with the message naming the file; on success the slide is wired to the layout |
| Assembly.IterationStep | PPTSlideShowCreator/SlideShowCreator.cs:108-146 | one iteration raises Step when subscribed; on success (image supported and relationship id unused) it adds the slide under "rel" + id and appends (id, relId) with nothing else changed; on failure the package is unchanged and the error says why |
| Assembly.Slides | PPTSlideShowCreator/SlideShowCreator.cs:107-147 | after any number of iterations the slide-id list exists |
| Assembly.Prepared | PPTSlideShowCreator/SlideShowCreator.cs:103-105 | a missing slide-id list becomes an empty one; an existing list, the masters and the parts are kept |
| Assembly.NewEntries | PPTSlideShowCreator/SlideShowCreator.cs:140-143 | the list of the first m entries has length m, and its k-th entry is (id of image k, "rel" + that id) |
| Assembly.NewRelIds | PPTSlideShowCreator/SlideShowCreator.cs:116-123 | the relationship ids of the first m images are all in the set |
| Assembly.NewRelIdsOnly | PPTSlideShowCreator/SlideShowCreator.cs:116-123 | every member of that set is the relationship id of one of the first m images |
| Assembly.ErrorIsFinal | PPTSlideShowCreator/SlideShowCreator.cs:107-147 | once an iteration has thrown, later iterations change nothing (the exception leaves the loop) |
| Assembly.StopsEarly | PPTSlideShowCreator/SlideShowCreator.cs:107-147 | a build that throws at iteration n ends in the state of iteration n |
| Assembly.CommitNextList | PPTSlideShowCreator/SlideShowCreator.cs:139-143 | a committed iteration keeps the masters and appends its own entry to the slide-id list |
| Assembly.CommitNextKeys | PPTSlideShowCreator/SlideShowCreator.cs:122-123 | a committed iteration adds one fresh key and keeps the template's parts |
| Assembly.CommitNextSlides | PPTSlideShowCreator/SlideShowCreator.cs:122-124 | adding image m's slide under its fresh key keeps the earlier slides and commits image m |
| Assembly.KeepsCommitted | PPTSlideShowCreator/SlideShowCreator.cs:123 | adding a part under a fresh key leaves a committed slide in place |
| Assembly.CommitNext | PPTSlideShowCreator/SlideShowCreator.cs:108-147 | a committed iteration extends the closed form (list, keys, kept parts, slides) by one image |
| Assembly.ReachedAtStart | PPTSlideShowCreator/SlideShowCreator.cs:104-108 | before the first iteration nothing is committed and nothing has gone wrong |
| Assembly.ReachedAfterError | PPTSlideShowCreator/SlideShowCreator.cs:107-147 | an iteration after an exception leaves the closed form as it was |
| Assembly.ReachedAfterStep | PPTSlideShowCreator/SlideShowCreator.cs:108-147 | an iteration after n clean ones either commits image n or stops at it |
| Assembly.ReachedAfterCommit | PPTSlideShowCreator/SlideShowCreator.cs:108-147 | committing image n after n clean iterations gives the closed form with n + 1 images |
| Assembly.ReachedAfterFailure | PPTSlideShowCreator/SlideShowCreator.cs:108-147 | image n throwing after n clean iterations leaves n images committed, one more notification, and the reason |
| Assembly.ReachedNext | PPTSlideShowCreator/SlideShowCreator.cs:108-147 | one more iteration keeps the closed form |
| Assembly.SlidesCommitted | PPTSlideShowCreator/SlideShowCreator.cs:107-147 | after n iterations, m images are committed in order, and nothing else has changed; m == n exactly when nothing was thrown; otherwise image m threw, after its Step |
| Assembly.BuilderCommitted | PPTSlideShowCreator/SlideShowCreator.cs:118-137 | a slide committed by that builder is exactly the slide made from its image, and it is wired to the shared layout |
| Assembly.BuilderStops | PPTSlideShowCreator/SlideShowCreator.cs:120-123 | that builder stops at an image exactly when its format is unsupported (with the message naming it) or its relationship id is already taken |
| Assembly.CommittedByBuilder | PPTSlideShowCreator/SlideShowCreator.cs:118-137 | in a package that builder has committed, each committed image has its slide, and every new part is a wired slide |
| Assembly.LoopList | PPTSlideShowCreator/SlideShowCreator.cs:107-147 | after the loop the slide-id list is the starting list followed by the entries of the first m images; masters and existing parts are untouched; no exception exactly when m is the number of images; Step was raised once per image attempted |
| Assembly.LoopSlides | PPTSlideShowCreator/SlideShowCreator.cs:107-147 | with that builder, each committed image keys its own slide, and every new part is a slide wired to the layout |
| Assembly.LoopStops | PPTSlideShowCreator/SlideShowCreator.cs:107-147 | with that builder, a loop that threw stopped at image m, whose format is unsupported or whose relationship id was taken |
| Assembly.CreateSlidesOutcome | PPTSlideShowCreator/SlideShowCreator.cs:75-155 | whatever the template: masters and template parts are untouched, existing slides stay first, followed by the entries of the first m images (those committed before any exception), and the build ends without exception exactly when all images were committed |
| Assembly.CreateSlidesSlides | PPTSlideShowCreator/SlideShowCreator.cs:97-137 | each committed image keys, under its relationship id, the slide part made from it, and every added part is a slide linked to the first layout of the first master |
| Assembly.CreateSlidesStops | PPTSlideShowCreator/SlideShowCreator.cs:118-123 | a build that threw stopped at image m: its format is unsupported (the message names the file), or its relationship id was taken |
| Assembly.CreateSlidesNotifications | PPTSlideShowCreator/SlideShowCreator.cs:110-111 | with a subscriber, Step fires once per image attempted, including the failing one; without one, nothing is notified |
| Assembly.CreateSlidesIds | PPTSlideShowCreator/SlideShowCreator.cs:80-146 | on a template without slides and with 256 + n <= 2^31: entry k has id 256 + k, in the ST_SlideId range, with relationship id "rel" + id; ids strictly increase and relationship ids are pairwise distinct; every image is listed when nothing was thrown |
| Assembly.CreateSlidesEntrySlides | PPTSlideShowCreator/SlideShowCreator.cs:116-143 | on a template without slides, the relationship id of entry k of the slide-id list keys the slide made from image k |
| Assembly.EntriesKeySlides | PPTSlideShowCreator/SlideShowCreator.cs:140-143 | the entries of the first m images key their slides |
| Assembly.NewEntriesInRange | PPTSlideShowCreator/SlideShowCreator.cs:80-83 | without wrap-around the first m entries carry ids 256 + k, in range and increasing, with distinct relationship ids |
| Assembly.CreateSlideShowEmpty | PPTSlideShowCreator/SlideShowCreator.cs:52-53 | with no images, CreateSlides is not called: the package and the notifications are unchanged |
| Assembly.CreateSlidesNeedsLayout | PPTSlideShowCreator/SlideShowCreator.cs:95-101 | a template without a master or a layout makes CreateSlides throw before it changes the package |
| Assembly.SlideShowCreator.constructor | PPTSlideShowCreator/SlideShowCreator.cs:314-317 | a builder starts with its Step subscription set and no notification raised |
| Assembly.SlideShowCreator.CreateSlides | PPTSlideShowCreator/SlideShowCreator.cs:75-155 | changes the package and the notification count to exactly what `CreateSlidesSpec` gives for the old package, and returns its exception |
| Assembly.SlideShowCreator.AppendSlides | PPTSlideShowCreator/SlideShowCreator.cs:107-147 | the `foreach` loop with its `uint` counter ends in exactly the state `Slides` gives after all images |
| Assembly.SlideShowCreator.AddSlide | PPTSlideShowCreator/SlideShowCreator.cs:108-146 | one loop body changes the package and the count exactly as `IterationStep` says |
| Assembly.SlideShowCreator.CreateSlideShow | PPTSlideShowCreator/SlideShowCreator.cs:52-53 | calls CreateSlides only for a non-empty image list, and ends in the state `CreateSlideShowSpec` gives |

## Left out

- The pixel-to-EMU conversion (lines 225-228) is floating-point arithmetic. It is the parameter `toEmu`, applied to the rescaled size and the bitmap's resolution.
- A check that rejects a resolution of 0 or below is not in the code, and it is not modelled.
- File I/O and bitmap decoding are not modelled: `File.WriteAllBytes`, `File.Copy`, `File.OpenRead` and the `Bitmap` decode (lines 26, 46, 180-185). An image arrives already decoded: its path, bytes, raw format tag, pixel size and resolutions. The exceptions a missing or undecodable file would throw are therefore not modelled.
- `Utils.ResizeImage` is a call into code that is not part of this model. It is taken to return an image of exactly the requested size. The resized bitmap only sets the EMU size: the image part gets the file's original bytes, in the code and in the model.
- The Open XML SDK is abstracted to values. Saving parts (lines 124, 137, 150-153), `GenerateImagePart`'s stream copy (lines 278-286), and validation and its console report (lines 56-71, 288-300) are not modelled.
- `AddNewPart` with a relationship id the presentation part already uses is modelled as an exception (`RelationshipIdInUse`). The library's own behaviour there is not part of this model.
- ImageFormats.GetImageData: the EMU size is computed from the decoded file's horizontal and vertical resolution. Lines 226-228 read the resolution of the bitmap `Utils.ResizeImage` returned (lines 215 and 220), so the model assumes the resize keeps the resolution of the original bitmap. A resize that resets it would give other EMU values.
- `GenerateSlidePart` drops three elements that carry no attribute and no child: `NonVisualGroupShapeDrawingProperties` and both `ApplicationNonVisualDrawingProperties` (lines 246, 247 and 259). They are not in `SlideFragment.Slide`.
- `GetImageFileNames` (lines 157-171) enumerates a directory, and it is not modelled.
- The threads of `CreateSlideShowThread` and `CreateSlideShowNoPar` (lines 306-323) are not modelled. Only the Step subscription they set up is kept, as `stepSubscribed`.
- The `Step` event is modelled as a notification counter. What the subscriber does is not modelled.

## Findings

| source | as written | input that shows it | evidently intended | confidence | as-written member | corrected member |
|---|---|---|---|---|---|---|
| PPTSlideShowCreator/SlideShowCreator.cs:214 | `imageFile.Height * imageFile.Width` is an unchecked 32-bit `int` product, so it wraps once the pixel count exceeds 2^31 - 1, and the requested height turns negative | a 46341 x 46341 bitmap: the product wraps to -2147479015, and the first resize asks for 1024 x -2097147 | the product computed without overflow (for example in `long`), so that the resized image keeps the pixel count | not executed; a bitmap that large may also fail to decode | Geometry.RescaleInt32Overflows | Geometry.Rescale |

`Geometry.RescaleInt32` is the code as written. The rest of the model uses `Geometry.Rescale`, the same policy on unbounded integers. `Geometry.RescaleKeepsPixelCount` proves the intended property for it: a positive size that keeps the pixel count up to rounding. `Geometry.RescaleInt32WithoutOverflow` shows that the two agree whenever the product fits.
