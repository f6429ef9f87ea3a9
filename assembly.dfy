/**
 CreateSlides and CreateSlideShow: the package assembler. The package is abstracted to the
 slide masters (each with its layouts), the presentation part's relationships keyed by
 relationship id, and the presentation's optional slide-id list. For each image, in input
 order, the builder notifies its Step subscriber, reads the image, adds a slide part under
 "rel" + id, links it to the first layout of the first master, gives it one image part
 under "relId1", appends (id, relId) to the slide-id list and advances the id.
 */
module Assembly {
  import opened Wrappers
  import opened Identifiers
  import opened ImageFormats
  import opened SlideFragment
  import opened Paths

  datatype SlideMasterPart = SlideMasterPart(uri: string, layouts: seq<string>)
  datatype ImagePart = ImagePart(partType: ImagePartType, bytes: seq<Byte>)
  /** A slide part: its fragment, the layout part it links to, its image parts by local relationship id. */
  datatype SlidePart = SlidePart(slide: Slide, layout: string, images: map<string, ImagePart>)
  /** A part reached from the presentation part: one the template brought, or a slide the builder added. */
  datatype PresentationChild = TemplatePart(uri: string) | NewSlide(part: SlidePart)
  datatype SlideIdEntry = SlideIdEntry(id: UInt32, relId: string)
  datatype PackageValue = PackageValue(
    masters: seq<SlideMasterPart>,
    parts: map<string, PresentationChild>,
    slideIdList: Option<seq<SlideIdEntry>>)

  datatype BuildError =
    | NoSlideMaster          // SlideMasterParts.First() on an empty sequence
    | NoSlideLayout          // SlideLayoutParts.First() on an empty sequence
    | Image(error: ImageError)
    | RelationshipIdInUse(relId: string)  // AddNewPart with an id the presentation part already uses

  /** The state a build reaches: the package, the Step notifications so far, and the exception, if any. */
  datatype Progress = Progress(pkg: PackageValue, steps: nat, error: Option<BuildError>)

  /** The hard-coded relationship id of every slide's image part. */
  const ImagePartRelId: string := "relId1"

  predicate HasLayout(p: PackageValue) {
    |p.masters| > 0 && |p.masters[0].layouts| > 0
  }

  /** The layout every new slide reuses: the first layout of the first master. */
  function SharedLayout(p: PackageValue): string
    requires HasLayout(p)
  {
    p.masters[0].layouts[0]
  }

  /** The slides already in the package before the build. */
  function ExistingSlides(p: PackageValue): seq<SlideIdEntry> {
    if p.slideIdList.Some? then p.slideIdList.value else []
  }

  /** A child is a slide wired as the builder wires it: linked to the layout, with one image part
      whose relationship id is the one the slide's picture embeds. */
  predicate SlideWired(c: PresentationChild, layout: string) {
    && c.NewSlide?
    && c.part.layout == layout
    && c.part.images.Keys == {ImagePartRelId}
    && ImageReferences(c.part.slide) == c.part.images.Keys
  }

  /** The slide part for one image: its fragment, the shared layout, its image bytes under "relId1". */
  function NewSlidePart(img: ImageFile, data: ImageData, layout: string): SlidePart {
    var name := FileNameWithoutExtension(img.path);
    SlidePart(GenerateSlidePart(name, name, data.widthEmu, data.heightEmu), layout,
              map[ImagePartRelId := ImagePart(data.partType, data.bytes)])
  }

  /**
   A new slide part is wired to the layout and references just its own image, which holds
   the image's bytes; its picture is named and described by the file name without extension
   and sized in EMUs.
   */
  lemma NewSlidePartWired(img: ImageFile, data: ImageData, layout: string)
    ensures var r := NewSlidePart(img, data, layout);
      && SlideWired(NewSlide(r), layout)
      && r.images[ImagePartRelId] == ImagePart(data.partType, data.bytes)
      && var name := FileNameWithoutExtension(img.path);
      && PictureOf(r.slide) == Some(PictureSummary(name, name, data.widthEmu, data.heightEmu))
  {
    var name := FileNameWithoutExtension(img.path);
    GenerateSlidePartShape(name, name, data.widthEmu, data.heightEmu);
  }

  /**
   The per-image work of an iteration: read the image, then build its slide part. An
   unsupported format throws before AddNewPart, so the package is not touched.
   */
  function SlideFor(img: ImageFile, toEmu: EmuConversion, layout: string): Result<SlidePart, BuildError> {
    match GetImageData(img, toEmu)
    case Failure(e) => Failure(Image(e))
    case Success(data) => Success(NewSlidePart(img, data, layout))
  }

  /** Reading an image fails exactly on an unsupported format, naming the file; otherwise the slide is wired. */
  lemma SlideForOutcome(img: ImageFile, toEmu: EmuConversion, layout: string)
    ensures var r := SlideFor(img, toEmu, layout);
      && (r.Success? <==> IsSupported(img.rawFormat))
      && (r.Failure? ==> r.error == Image(UnsupportedFormat(UnsupportedPrefix + img.path)))
      && (r.Success? ==> SlideWired(NewSlide(r.value), layout))
  {
    if IsSupported(img.rawFormat) {
      NewSlidePartWired(img, GetImageData(img, toEmu).value, layout);
    }
  }

  /** A slide builder maps an image to its slide part or to the exception reading it throws. */
  type SlideBuilder = ImageFile -> Result<SlidePart, BuildError>

  /** The builder CreateSlides uses: fixed EMU conversion and shared layout. */
  function Builder(toEmu: EmuConversion, layout: string): SlideBuilder {
    img => SlideFor(img, toEmu, layout)
  }

  /** One iteration of the loop, with the image's id: notify, build, then add under "rel" + id. */
  function IterationStep(pkg: PackageValue, steps: nat, subscribed: bool, build: SlideBuilder,
                         img: ImageFile, id: UInt32): (r: Progress)
    requires pkg.slideIdList.Some?
    ensures r.steps == (if subscribed then steps + 1 else steps)
    ensures r.error.Some? ==> r.pkg == pkg && FailedOn(r.error.value, pkg, build, img, id)
    ensures r.error.None? <==> build(img).Success? && RelId(id) !in pkg.parts
    ensures r.error.None? ==>
      && r.pkg.masters == pkg.masters
      && r.pkg.parts == pkg.parts[RelId(id) := NewSlide(build(img).value)]
      && r.pkg.slideIdList == Some(pkg.slideIdList.value + [SlideIdEntry(id, RelId(id))])
  {
    var steps' := if subscribed then steps + 1 else steps;
    var relId := RelId(id);
    match build(img)
    case Failure(e) => Progress(pkg, steps', Some(e))
    case Success(part) =>
      if relId in pkg.parts then Progress(pkg, steps', Some(RelationshipIdInUse(relId)))
      else Progress(pkg.(parts := pkg.parts[relId := NewSlide(part)],
                         slideIdList := Some(pkg.slideIdList.value + [SlideIdEntry(id, relId)])),
                    steps', None)
  }

  /** The state after the first n iterations; the first exception ends the loop. */
  function Slides(p0: PackageValue, steps0: nat, subscribed: bool, build: SlideBuilder,
                  images: seq<ImageFile>, n: nat): (r: Progress)
    requires n <= |images| && p0.slideIdList.Some?
    ensures r.pkg.slideIdList.Some?
    decreases n
  {
    if n == 0 then Progress(p0, steps0, None)
    else
      var prev := Slides(p0, steps0, subscribed, build, images, n - 1);
      if prev.error.Some? then prev
      else IterationStep(prev.pkg, prev.steps, subscribed, build, images[n - 1], SlideIdAt(n - 1))
  }

  /** What CreateSlides does to a package. */
  function CreateSlidesSpec(p0: PackageValue, steps0: nat, subscribed: bool,
                            images: seq<ImageFile>, toEmu: EmuConversion): Progress
  {
    if |p0.masters| == 0 then Progress(p0, steps0, Some(NoSlideMaster))
    else if |p0.masters[0].layouts| == 0 then Progress(p0, steps0, Some(NoSlideLayout))
    else
      Slides(Prepared(p0), steps0, subscribed, Builder(toEmu, SharedLayout(p0)), images, |images|)
  }

  /** The package the loop starts from: the template, with an empty slide-id list when it had none. */
  function Prepared(p0: PackageValue): (p1: PackageValue)
    ensures p1.slideIdList == Some(ExistingSlides(p0))
    ensures p1.masters == p0.masters && p1.parts == p0.parts
  {
    if p0.slideIdList.None? then p0.(slideIdList := Some([])) else p0
  }

  /** What CreateSlideShow does to the copied template: CreateSlides runs only for a non-empty list. */
  function CreateSlideShowSpec(p0: PackageValue, steps0: nat, subscribed: bool,
                               images: seq<ImageFile>, toEmu: EmuConversion): Progress
  {
    if |images| > 0 then CreateSlidesSpec(p0, steps0, subscribed, images, toEmu)
    else Progress(p0, steps0, None)
  }

  // ---- the closed form of a build ----

  /** The slide-id entries of the first m images. */
  function NewEntries(m: nat): (r: seq<SlideIdEntry>)
    ensures |r| == m
    ensures forall k :: 0 <= k < m ==> r[k] == SlideIdEntry(SlideIdAt(k), RelId(SlideIdAt(k)))
  {
    if m == 0 then [] else NewEntries(m - 1) + [SlideIdEntry(SlideIdAt(m - 1), RelId(SlideIdAt(m - 1)))]
  }

  /** The relationship ids of the first m images. */
  function NewRelIds(m: nat): (r: set<string>)
    ensures forall k :: 0 <= k < m ==> RelId(SlideIdAt(k)) in r
  {
    if m == 0 then {} else NewRelIds(m - 1) + {RelId(SlideIdAt(m - 1))}
  }

  /** Every member of NewRelIds(m) is the relationship id of one of the first m images. */
  lemma {:induction false} NewRelIdsOnly(m: nat, rel: string)
    requires rel in NewRelIds(m)
    ensures exists k :: 0 <= k < m && rel == RelId(SlideIdAt(k))
  {
    if rel != RelId(SlideIdAt(m - 1)) {
      NewRelIdsOnly(m - 1, rel);
    }
  }

  /** The slide for the image with this id is in the package, as the builder makes it. */
  predicate SlideCommitted(p: PackageValue, build: SlideBuilder, img: ImageFile, id: UInt32) {
    && build(img).Success?
    && RelId(id) in p.parts
    && p.parts[RelId(id)] == NewSlide(build(img).value)
  }

  /** p is p0 with the slides of the first m images added, and nothing else changed. */
  ghost predicate Committed(p0: PackageValue, p: PackageValue, build: SlideBuilder,
                            images: seq<ImageFile>, m: nat)
  {
    && m <= |images|
    && p0.slideIdList.Some?
    && p.masters == p0.masters
    && p.slideIdList == Some(p0.slideIdList.value + NewEntries(m))
    && p.parts.Keys == p0.parts.Keys + NewRelIds(m)
    && (forall r :: r in p0.parts ==> p.parts[r] == p0.parts[r])
    && (forall k :: 0 <= k < m ==> RelId(SlideIdAt(k)) !in p0.parts)
    && (forall k :: 0 <= k < m ==> SlideCommitted(p, build, images[k], SlideIdAt(k)))
  }

  /** Why the loop stopped at an image: reading it threw, or its relationship id was taken. */
  predicate FailedOn(e: BuildError, p: PackageValue, build: SlideBuilder, img: ImageFile, id: UInt32) {
    || (build(img).Failure? && e == build(img).error)
    || (build(img).Success? && e == RelationshipIdInUse(RelId(id)) && RelId(id) in p.parts)
  }

  /** Once an iteration has thrown, later iterations change nothing. */
  lemma {:induction false} ErrorIsFinal(p0: PackageValue, steps0: nat, subscribed: bool, build: SlideBuilder,
                                        images: seq<ImageFile>, n: nat, n': nat)
    requires n <= n' <= |images| && p0.slideIdList.Some?
    requires Slides(p0, steps0, subscribed, build, images, n).error.Some?
    ensures Slides(p0, steps0, subscribed, build, images, n') == Slides(p0, steps0, subscribed, build, images, n)
    decreases n' - n
  {
    if n' > n {
      ErrorIsFinal(p0, steps0, subscribed, build, images, n, n' - 1);
    }
  }

  /** A committed iteration keeps the masters and appends its entry to the slide-id list. */
  lemma CommitNextList(p0: PackageValue, p: PackageValue, build: SlideBuilder, images: seq<ImageFile>,
                       m: nat, steps: nat, subscribed: bool)
    requires m < |images| && Committed(p0, p, build, images, m)
    requires IterationStep(p, steps, subscribed, build, images[m], SlideIdAt(m)).error.None?
    ensures var q := IterationStep(p, steps, subscribed, build, images[m], SlideIdAt(m)).pkg;
      q.masters == p0.masters && q.slideIdList == Some(p0.slideIdList.value + NewEntries(m + 1))
  {
    var q := IterationStep(p, steps, subscribed, build, images[m], SlideIdAt(m)).pkg;
    assert q.slideIdList.value == p0.slideIdList.value + NewEntries(m + 1);
  }

  /** A committed iteration adds exactly one key, a fresh one, and keeps the template's parts. */
  lemma CommitNextKeys(p0: PackageValue, p: PackageValue, build: SlideBuilder, images: seq<ImageFile>,
                       m: nat, steps: nat, subscribed: bool)
    requires m < |images| && Committed(p0, p, build, images, m)
    requires IterationStep(p, steps, subscribed, build, images[m], SlideIdAt(m)).error.None?
    ensures var q := IterationStep(p, steps, subscribed, build, images[m], SlideIdAt(m)).pkg;
      && q.parts.Keys == p0.parts.Keys + NewRelIds(m + 1)
      && (forall r :: r in p0.parts ==> q.parts[r] == p0.parts[r])
      && (forall k :: 0 <= k < m + 1 ==> RelId(SlideIdAt(k)) !in p0.parts)
  {
  }

  /** Adding the slide of image m under its fresh key keeps the earlier slides and commits its own. */
  lemma CommitNextSlides(p: PackageValue, q: PackageValue, build: SlideBuilder, images: seq<ImageFile>, m: nat)
    requires m < |images| && build(images[m]).Success? && RelId(SlideIdAt(m)) !in p.parts
    requires q.parts == p.parts[RelId(SlideIdAt(m)) := NewSlide(build(images[m]).value)]
    requires forall k :: 0 <= k < m ==> SlideCommitted(p, build, images[k], SlideIdAt(k))
    ensures forall k :: 0 <= k < m + 1 ==> SlideCommitted(q, build, images[k], SlideIdAt(k))
  {
    var rel := RelId(SlideIdAt(m));
    var c := NewSlide(build(images[m]).value);
    forall k | 0 <= k < m ensures SlideCommitted(q, build, images[k], SlideIdAt(k)) {
      KeepsCommitted(p, q, build, images[k], SlideIdAt(k), rel, c);
    }
  }

  /** Adding a part under a fresh key keeps a committed slide committed. */
  lemma KeepsCommitted(p: PackageValue, q: PackageValue, build: SlideBuilder, img: ImageFile, id: UInt32,
                         rel: string, c: PresentationChild)
    requires SlideCommitted(p, build, img, id) && rel !in p.parts && q.parts == p.parts[rel := c]
    ensures SlideCommitted(q, build, img, id)
  {
  }

  /** A build that throws at iteration n ends in the state of that iteration. */
  lemma StopsEarly(p0: PackageValue, steps0: nat, subscribed: bool, build: SlideBuilder,
                   images: seq<ImageFile>, n: nat, r: Progress)
    requires n <= |images| && p0.slideIdList.Some?
    requires Slides(p0, steps0, subscribed, build, images, n) == r && r.error.Some?
    ensures Slides(p0, steps0, subscribed, build, images, |images|) == r
  {
    ErrorIsFinal(p0, steps0, subscribed, build, images, n, |images|);
  }

  /** Committing the next image keeps the closed form, one image further. */
  lemma CommitNext(p0: PackageValue, p: PackageValue, build: SlideBuilder, images: seq<ImageFile>,
                   m: nat, steps: nat, subscribed: bool)
    requires m < |images| && Committed(p0, p, build, images, m)
    requires IterationStep(p, steps, subscribed, build, images[m], SlideIdAt(m)).error.None?
    ensures Committed(p0, IterationStep(p, steps, subscribed, build, images[m], SlideIdAt(m)).pkg,
                      build, images, m + 1)
  {
    CommitNextList(p0, p, build, images, m, steps, subscribed);
    CommitNextKeys(p0, p, build, images, m, steps, subscribed);
    var q := IterationStep(p, steps, subscribed, build, images[m], SlideIdAt(m)).pkg;
    CommitNextSlides(p, q, build, images, m);
  }

  /** The closed form of the state after n iterations, with m images committed. */
  ghost predicate Reached(p0: PackageValue, steps0: nat, subscribed: bool, build: SlideBuilder,
                          images: seq<ImageFile>, n: nat, r: Progress)
  {
    && p0.slideIdList.Some? && r.pkg.slideIdList.Some?
    && var m := |r.pkg.slideIdList.value| - |p0.slideIdList.value|;
    && 0 <= m <= n
    && Committed(p0, r.pkg, build, images, m)
    && (r.error.None? <==> m == n)
    && r.steps == steps0 + (if subscribed then (if r.error.None? then m else m + 1) else 0)
    && (r.error.Some? ==> m < |images| && FailedOn(r.error.value, r.pkg, build, images[m], SlideIdAt(m)))
  }

  /** An iteration after an exception leaves the closed form as it was, one iteration later. */
  lemma ReachedAfterError(p0: PackageValue, steps0: nat, subscribed: bool, build: SlideBuilder,
                          images: seq<ImageFile>, n: nat, prev: Progress)
    requires n < |images| && Reached(p0, steps0, subscribed, build, images, n, prev) && prev.error.Some?
    ensures Reached(p0, steps0, subscribed, build, images, n + 1, prev)
  {
  }

  /** An iteration after n clean ones either commits image n or stops at it. */
  lemma ReachedAfterStep(p0: PackageValue, steps0: nat, subscribed: bool, build: SlideBuilder,
                         images: seq<ImageFile>, n: nat, prev: Progress)
    requires n < |images| && Reached(p0, steps0, subscribed, build, images, n, prev) && prev.error.None?
    ensures Reached(p0, steps0, subscribed, build, images, n + 1,
                    IterationStep(prev.pkg, prev.steps, subscribed, build, images[n], SlideIdAt(n)))
  {
    var r := IterationStep(prev.pkg, prev.steps, subscribed, build, images[n], SlideIdAt(n));
    if r.error.None? {
      ReachedAfterCommit(p0, steps0, subscribed, build, images, n, prev, r);
    } else {
      ReachedAfterFailure(p0, steps0, subscribed, build, images, n, prev, r);
    }
  }

  /** Committing image n after n clean iterations gives the closed form with n + 1 images. */
  lemma ReachedAfterCommit(p0: PackageValue, steps0: nat, subscribed: bool, build: SlideBuilder,
                           images: seq<ImageFile>, n: nat, prev: Progress, r: Progress)
    requires n < |images| && Reached(p0, steps0, subscribed, build, images, n, prev) && prev.error.None?
    requires r == IterationStep(prev.pkg, prev.steps, subscribed, build, images[n], SlideIdAt(n)) && r.error.None?
    ensures Reached(p0, steps0, subscribed, build, images, n + 1, r)
  {
    assert |prev.pkg.slideIdList.value| - |p0.slideIdList.value| == n;
    CommitNext(p0, prev.pkg, build, images, n, prev.steps, subscribed);
    assert |r.pkg.slideIdList.value| - |p0.slideIdList.value| == n + 1;
  }

  /** Image n throwing after n clean iterations leaves n images committed and records why. */
  lemma ReachedAfterFailure(p0: PackageValue, steps0: nat, subscribed: bool, build: SlideBuilder,
                            images: seq<ImageFile>, n: nat, prev: Progress, r: Progress)
    requires n < |images| && Reached(p0, steps0, subscribed, build, images, n, prev) && prev.error.None?
    requires r == IterationStep(prev.pkg, prev.steps, subscribed, build, images[n], SlideIdAt(n)) && r.error.Some?
    ensures Reached(p0, steps0, subscribed, build, images, n + 1, r)
  {
    assert |prev.pkg.slideIdList.value| - |p0.slideIdList.value| == n;
    assert r.pkg == prev.pkg;
    assert FailedOn(r.error.value, r.pkg, build, images[n], SlideIdAt(n));
  }

  /**
   After n iterations exactly m images have been committed, in order: m == n when no
   exception was thrown, and otherwise image m threw, after its Step notification.
   */
  lemma {:induction false} SlidesCommitted(p0: PackageValue, steps0: nat, subscribed: bool, build: SlideBuilder,
                                           images: seq<ImageFile>, n: nat)
    requires n <= |images| && p0.slideIdList.Some?
    ensures Reached(p0, steps0, subscribed, build, images, n, Slides(p0, steps0, subscribed, build, images, n))
  {
    if n == 0 {
      ReachedAtStart(p0, steps0, subscribed, build, images);
    } else {
      SlidesCommitted(p0, steps0, subscribed, build, images, n - 1);
      ReachedNext(p0, steps0, subscribed, build, images, n - 1, Slides(p0, steps0, subscribed, build, images, n - 1));
    }
  }

  /** One more iteration of the loop keeps the closed form. */
  lemma ReachedNext(p0: PackageValue, steps0: nat, subscribed: bool, build: SlideBuilder,
                    images: seq<ImageFile>, n: nat, prev: Progress)
    requires n < |images| && p0.slideIdList.Some?
    requires prev == Slides(p0, steps0, subscribed, build, images, n)
    requires Reached(p0, steps0, subscribed, build, images, n, prev)
    ensures Reached(p0, steps0, subscribed, build, images, n + 1, Slides(p0, steps0, subscribed, build, images, n + 1))
  {
    if prev.error.Some? {
      ReachedAfterError(p0, steps0, subscribed, build, images, n, prev);
    } else {
      ReachedAfterStep(p0, steps0, subscribed, build, images, n, prev);
    }
  }

  /** Before the first iteration nothing is committed and nothing has gone wrong. */
  lemma ReachedAtStart(p0: PackageValue, steps0: nat, subscribed: bool, build: SlideBuilder, images: seq<ImageFile>)
    requires p0.slideIdList.Some?
    ensures Reached(p0, steps0, subscribed, build, images, 0, Progress(p0, steps0, None))
  {
    assert p0.slideIdList.value + NewEntries(0) == p0.slideIdList.value;
  }

  // ---- what a build guarantees ----

  /** The slide CreateSlides makes for a supported image, keyed by this id. */
  predicate HasSlideOf(p: PackageValue, layout: string, img: ImageFile, toEmu: EmuConversion, id: UInt32) {
    && IsSupported(img.rawFormat)
    && RelId(id) in p.parts
    && p.parts[RelId(id)] == NewSlide(NewSlidePart(img, GetImageData(img, toEmu).value, layout))
  }

  /** Why CreateSlides stopped at an image: its format is unsupported, or its relationship id was taken. */
  predicate StoppedAt(e: BuildError, p: PackageValue, img: ImageFile, id: UInt32) {
    || (e == Image(UnsupportedFormat(UnsupportedPrefix + img.path)) && !IsSupported(img.rawFormat))
    || (e == RelationshipIdInUse(RelId(id)) && IsSupported(img.rawFormat) && RelId(id) in p.parts)
  }

  /** build makes, for every image, the slide SlideFor makes with this conversion and layout. */
  ghost predicate BuildsSlides(build: SlideBuilder, toEmu: EmuConversion, layout: string) {
    forall img {:trigger SlideFor(img, toEmu, layout)} :: build(img) == SlideFor(img, toEmu, layout)
  }

  lemma BuilderBuildsSlides(toEmu: EmuConversion, layout: string)
    ensures BuildsSlides(Builder(toEmu, layout), toEmu, layout)
  {
    forall img ensures Builder(toEmu, layout)(img) == SlideFor(img, toEmu, layout) {
    }
  }

  /** A slide committed by the builder CreateSlides uses is the one made from its image, wired to the layout. */
  lemma BuilderCommitted(p: PackageValue, build: SlideBuilder, layout: string, img: ImageFile,
                         toEmu: EmuConversion, id: UInt32)
    requires BuildsSlides(build, toEmu, layout)
    ensures SlideCommitted(p, build, img, id) <==> HasSlideOf(p, layout, img, toEmu, id)
    ensures SlideCommitted(p, build, img, id) ==> SlideWired(p.parts[RelId(id)], layout)
  {
    assert build(img) == SlideFor(img, toEmu, layout);
    SlideForOutcome(img, toEmu, layout);
  }

  /** The builder CreateSlides uses stops at an image exactly for the two reasons of StoppedAt. */
  lemma BuilderStops(e: BuildError, p: PackageValue, build: SlideBuilder, layout: string, img: ImageFile,
                     toEmu: EmuConversion, id: UInt32)
    requires BuildsSlides(build, toEmu, layout)
    ensures FailedOn(e, p, build, img, id) <==> StoppedAt(e, p, img, id)
  {
    assert build(img) == SlideFor(img, toEmu, layout);
    SlideForOutcome(img, toEmu, layout);
  }

  /** In a package the builder CreateSlides uses has committed, every new part is a wired slide. */
  lemma CommittedByBuilder(p0: PackageValue, p: PackageValue, build: SlideBuilder, layout: string,
                           images: seq<ImageFile>, toEmu: EmuConversion, m: nat)
    requires BuildsSlides(build, toEmu, layout) && Committed(p0, p, build, images, m)
    ensures forall k :: 0 <= k < m ==> HasSlideOf(p, layout, images[k], toEmu, SlideIdAt(k))
    ensures forall rel :: rel in p.parts && rel !in p0.parts ==> SlideWired(p.parts[rel], layout)
  {
    forall k | 0 <= k < m
      ensures HasSlideOf(p, layout, images[k], toEmu, SlideIdAt(k))
    {
      BuilderCommitted(p, build, layout, images[k], toEmu, SlideIdAt(k));
    }
    forall rel | rel in p.parts && rel !in p0.parts
      ensures SlideWired(p.parts[rel], layout)
    {
      NewRelIdsOnly(m, rel);
      var k :| 0 <= k < m && rel == RelId(SlideIdAt(k));
      BuilderCommitted(p, build, layout, images[k], toEmu, SlideIdAt(k));
    }
  }

  /**
   After the loop the slide-id list is the starting one followed by the entries of the first
   m images; masters and the parts already there are untouched; the loop ends without
   exception exactly when m is the number of images; and the Step subscriber was notified
   once per image attempted.
   */
  lemma LoopList(p1: PackageValue, steps0: nat, subscribed: bool, build: SlideBuilder, images: seq<ImageFile>)
    requires p1.slideIdList.Some?
    ensures var r := Slides(p1, steps0, subscribed, build, images, |images|);
      && r.pkg.slideIdList.Some?
      && var m := |r.pkg.slideIdList.value| - |p1.slideIdList.value|;
      && 0 <= m <= |images|
      && r.pkg.slideIdList.value == p1.slideIdList.value + NewEntries(m)
      && r.pkg.masters == p1.masters
      && (forall rel :: rel in p1.parts ==> rel in r.pkg.parts && r.pkg.parts[rel] == p1.parts[rel])
      && (r.error.None? <==> m == |images|)
      && r.steps == steps0 + (if subscribed then (if r.error.None? then m else m + 1) else 0)
  {
    SlidesCommitted(p1, steps0, subscribed, build, images, |images|);
  }

  /** With the builder CreateSlides uses, each committed image has its slide, and every new part is a wired slide. */
  lemma LoopSlides(p1: PackageValue, steps0: nat, subscribed: bool, build: SlideBuilder, layout: string,
                   images: seq<ImageFile>, toEmu: EmuConversion)
    requires p1.slideIdList.Some? && BuildsSlides(build, toEmu, layout)
    ensures var r := Slides(p1, steps0, subscribed, build, images, |images|);
      && r.pkg.slideIdList.Some?
      && var m := |r.pkg.slideIdList.value| - |p1.slideIdList.value|;
      && (forall k :: 0 <= k < m && k < |images| ==> HasSlideOf(r.pkg, layout, images[k], toEmu, SlideIdAt(k)))
      && (forall rel :: rel in r.pkg.parts && rel !in p1.parts ==> SlideWired(r.pkg.parts[rel], layout))
  {
    var r := Slides(p1, steps0, subscribed, build, images, |images|);
    SlidesCommitted(p1, steps0, subscribed, build, images, |images|);
    var m := |r.pkg.slideIdList.value| - |p1.slideIdList.value|;
    CommittedByBuilder(p1, r.pkg, build, layout, images, toEmu, m);
  }

  /** With the builder CreateSlides uses, a loop that threw stopped at image m for one of the reasons of StoppedAt. */
  lemma LoopStops(p1: PackageValue, steps0: nat, subscribed: bool, build: SlideBuilder, layout: string,
                  images: seq<ImageFile>, toEmu: EmuConversion)
    requires p1.slideIdList.Some? && BuildsSlides(build, toEmu, layout)
    ensures var r := Slides(p1, steps0, subscribed, build, images, |images|);
      && r.pkg.slideIdList.Some?
      && var m := |r.pkg.slideIdList.value| - |p1.slideIdList.value|;
      && (r.error.Some? ==> 0 <= m < |images| && StoppedAt(r.error.value, r.pkg, images[m], SlideIdAt(m)))
  {
    var r := Slides(p1, steps0, subscribed, build, images, |images|);
    SlidesCommitted(p1, steps0, subscribed, build, images, |images|);
    var m := |r.pkg.slideIdList.value| - |p1.slideIdList.value|;
    if r.error.Some? {
      BuilderStops(r.error.value, r.pkg, build, layout, images[m], toEmu, SlideIdAt(m));
    }
  }

  /**
   Whatever the template: masters and template parts are untouched, the slides already
   listed stay first and are followed by the entries of the first m images, and the build
   ends without exception exactly when every image was committed.
   */
  lemma CreateSlidesOutcome(p0: PackageValue, steps0: nat, subscribed: bool,
                            images: seq<ImageFile>, toEmu: EmuConversion)
    requires HasLayout(p0)
    ensures var r := CreateSlidesSpec(p0, steps0, subscribed, images, toEmu);
      && r.pkg.slideIdList.Some?
      && var m := |r.pkg.slideIdList.value| - |ExistingSlides(p0)|;
      && 0 <= m <= |images|
      && r.pkg.slideIdList.value == ExistingSlides(p0) + NewEntries(m)
      && r.pkg.masters == p0.masters
      && (forall rel :: rel in p0.parts ==> rel in r.pkg.parts && r.pkg.parts[rel] == p0.parts[rel])
      && (r.error.None? <==> m == |images|)
  {
    LoopList(Prepared(p0), steps0, subscribed, Builder(toEmu, SharedLayout(p0)), images);
  }

  /**
   Each of the first m images keys, under its relationship id, the slide part made from it,
   and every part CreateSlides adds is a slide wired to the shared layout.
   */
  lemma CreateSlidesSlides(p0: PackageValue, steps0: nat, subscribed: bool,
                           images: seq<ImageFile>, toEmu: EmuConversion)
    requires HasLayout(p0)
    ensures var r := CreateSlidesSpec(p0, steps0, subscribed, images, toEmu);
      && r.pkg.slideIdList.Some?
      && var m := |r.pkg.slideIdList.value| - |ExistingSlides(p0)|;
      && (forall k :: 0 <= k < m && k < |images| ==> HasSlideOf(r.pkg, SharedLayout(p0), images[k], toEmu, SlideIdAt(k)))
      && (forall rel :: rel in r.pkg.parts && rel !in p0.parts ==> SlideWired(r.pkg.parts[rel], SharedLayout(p0)))
  {
    BuilderBuildsSlides(toEmu, SharedLayout(p0));
    LoopSlides(Prepared(p0), steps0, subscribed, Builder(toEmu, SharedLayout(p0)), SharedLayout(p0), images, toEmu);
  }

  /** A build that threw stopped at image m: its format is unsupported, or its relationship id was taken. */
  lemma CreateSlidesStops(p0: PackageValue, steps0: nat, subscribed: bool,
                          images: seq<ImageFile>, toEmu: EmuConversion)
    requires HasLayout(p0)
    ensures var r := CreateSlidesSpec(p0, steps0, subscribed, images, toEmu);
      && r.pkg.slideIdList.Some?
      && var m := |r.pkg.slideIdList.value| - |ExistingSlides(p0)|;
      && (r.error.Some? ==> 0 <= m < |images| && StoppedAt(r.error.value, r.pkg, images[m], SlideIdAt(m)))
  {
    BuilderBuildsSlides(toEmu, SharedLayout(p0));
    LoopStops(Prepared(p0), steps0, subscribed, Builder(toEmu, SharedLayout(p0)), SharedLayout(p0), images, toEmu);
  }

  /** The Step subscriber is notified once per image attempted, the failing one included. */
  lemma CreateSlidesNotifications(p0: PackageValue, steps0: nat, images: seq<ImageFile>, toEmu: EmuConversion)
    requires HasLayout(p0)
    ensures var r := CreateSlidesSpec(p0, steps0, true, images, toEmu);
      var m := |r.pkg.slideIdList.value| - |ExistingSlides(p0)|;
      r.steps - steps0 == (if r.error.None? then |images| else m + 1)
    ensures CreateSlidesSpec(p0, steps0, false, images, toEmu).steps == steps0
  {
    LoopList(Prepared(p0), steps0, true, Builder(toEmu, SharedLayout(p0)), images);
    LoopList(Prepared(p0), steps0, false, Builder(toEmu, SharedLayout(p0)), images);
  }

  /**
   On a template without slides (what the builder assumes) and with 256 + n <= 2^31, the
   k-th committed image gets id 256 + k and relationship id "rel" + (256 + k): ids are in
   the ST_SlideId range and strictly increasing, relationship ids pairwise distinct.
   */
  lemma CreateSlidesIds(p0: PackageValue, steps0: nat, subscribed: bool,
                        images: seq<ImageFile>, toEmu: EmuConversion)
    requires HasLayout(p0) && ExistingSlides(p0) == []
    requires MinSlideId + |images| <= SlideIdLimit
    ensures var r := CreateSlidesSpec(p0, steps0, subscribed, images, toEmu);
      && r.pkg.slideIdList.Some?
      && var list := r.pkg.slideIdList.value;
      && |list| <= |images|
      && (r.error.None? ==> |list| == |images|)
      && (forall k :: 0 <= k < |list| ==>
            && list[k].id == MinSlideId + k
            && InSlideIdRange(list[k].id)
            && list[k].relId == RelId(list[k].id))
      && (forall j, k :: 0 <= j < k < |list| ==> list[j].id < list[k].id && list[j].relId != list[k].relId)
  {
    CreateSlidesOutcome(p0, steps0, subscribed, images, toEmu);
    var r := CreateSlidesSpec(p0, steps0, subscribed, images, toEmu);
    var list := r.pkg.slideIdList.value;
    NewEntriesInRange(list, |list|, |images|);
  }

  /** On a template without slides, the k-th entry of the slide-id list keys the slide part made from image k. */
  lemma CreateSlidesEntrySlides(p0: PackageValue, steps0: nat, subscribed: bool,
                                images: seq<ImageFile>, toEmu: EmuConversion)
    requires HasLayout(p0) && ExistingSlides(p0) == []
    ensures var r := CreateSlidesSpec(p0, steps0, subscribed, images, toEmu);
      && r.pkg.slideIdList.Some?
      && |r.pkg.slideIdList.value| <= |images|
      && forall k :: 0 <= k < |r.pkg.slideIdList.value| ==>
        HasSlideOf(r.pkg, SharedLayout(p0), images[k], toEmu, r.pkg.slideIdList.value[k].id)
  {
    CreateSlidesOutcome(p0, steps0, subscribed, images, toEmu);
    CreateSlidesSlides(p0, steps0, subscribed, images, toEmu);
    var r := CreateSlidesSpec(p0, steps0, subscribed, images, toEmu);
    EntriesKeySlides(r.pkg, r.pkg.slideIdList.value, SharedLayout(p0), images, toEmu);
  }

  /** The entries of the first m images key their slides when the slides are keyed by SlideIdAt. */
  lemma EntriesKeySlides(p: PackageValue, list: seq<SlideIdEntry>, layout: string, images: seq<ImageFile>,
                         toEmu: EmuConversion)
    requires list == NewEntries(|list|) && |list| <= |images|
    requires forall k :: 0 <= k < |list| && k < |images| ==> HasSlideOf(p, layout, images[k], toEmu, SlideIdAt(k))
    ensures forall k :: 0 <= k < |list| ==> HasSlideOf(p, layout, images[k], toEmu, list[k].id)
  {
  }

  /** Without wrap-around the first m entries carry ids 256 + k, in range, increasing, with distinct relationship ids. */
  lemma NewEntriesInRange(list: seq<SlideIdEntry>, m: nat, n: nat)
    requires list == NewEntries(m) && m <= n && MinSlideId + n <= SlideIdLimit
    ensures forall k :: 0 <= k < m ==>
      list[k].id == SlideIdAt(k) == MinSlideId + k && InSlideIdRange(list[k].id) && list[k].relId == RelId(list[k].id)
    ensures forall j, k :: 0 <= j < k < m ==> list[j].id < list[k].id && list[j].relId != list[k].relId
  {
    SlideIdsInRangeIff(n);
    SlideIdsIncreasing(m);
    RelIdsDistinct(m);
    forall k | 0 <= k < m ensures SlideIdAt(k) == MinSlideId + k {
      SlideIdAtNoWrap(k);
    }
  }

  /** With an empty image list CreateSlides is not called: the package and the notifications are untouched. */
  lemma CreateSlideShowEmpty(p0: PackageValue, steps0: nat, subscribed: bool, toEmu: EmuConversion)
    ensures CreateSlideShowSpec(p0, steps0, subscribed, [], toEmu) == Progress(p0, steps0, None)
  {
  }

  /** A template without a master or a layout makes CreateSlides throw before it touches the package. */
  lemma CreateSlidesNeedsLayout(p0: PackageValue, steps0: nat, subscribed: bool,
                                images: seq<ImageFile>, toEmu: EmuConversion)
    requires !HasLayout(p0)
    ensures var r := CreateSlidesSpec(p0, steps0, subscribed, images, toEmu);
      r.pkg == p0 && r.steps == steps0 && r.error.Some?
  {
  }

  // ---- the objects ----

  /** The presentation document being built. */
  class PresentationPackage {
    var masters: seq<SlideMasterPart>
    var parts: map<string, PresentationChild>
    var slideIdList: Option<seq<SlideIdEntry>>

    constructor (masters: seq<SlideMasterPart>, parts: map<string, PresentationChild>,
                 slideIdList: Option<seq<SlideIdEntry>>)
      ensures Value() == PackageValue(masters, parts, slideIdList)
    {
      this.masters := masters;
      this.parts := parts;
      this.slideIdList := slideIdList;
    }

    function Value(): PackageValue
      reads this
    {
      PackageValue(masters, parts, slideIdList)
    }
  }

  /** The builder: whether its Step event has a subscriber, and how often it has been raised. */
  class SlideShowCreator {
    var stepSubscribed: bool
    var stepCount: nat

    constructor (stepSubscribed: bool)
      ensures this.stepSubscribed == stepSubscribed && stepCount == 0
    {
      this.stepSubscribed := stepSubscribed;
      stepCount := 0;
    }

    method CreateSlides(pkg: PresentationPackage, images: seq<ImageFile>, toEmu: EmuConversion)
      returns (err: Option<BuildError>)
      modifies this, pkg
      ensures stepSubscribed == old(stepSubscribed)
      ensures var r := CreateSlidesSpec(old(pkg.Value()), old(stepCount), stepSubscribed, images, toEmu);
        pkg.Value() == r.pkg && stepCount == r.steps && err == r.error
    {
      if |pkg.masters| == 0 {
        return Some(NoSlideMaster);
      }
      if |pkg.masters[0].layouts| == 0 {
        return Some(NoSlideLayout);
      }
      var layout := pkg.masters[0].layouts[0];
      if pkg.slideIdList.None? {
        pkg.slideIdList := Some([]);
      }
      BuilderBuildsSlides(toEmu, layout);
      err := AppendSlides(pkg, images, layout, toEmu, Builder(toEmu, layout));
    }

    /**
     The foreach loop of CreateSlides over a package whose slide-id list exists: image k gets
     id SlideIdAt(k); the first exception ends the loop. `build` stands for the image-to-slide
     work of an iteration, so that the loop is proved once for any such function.
     */
    method AppendSlides(pkg: PresentationPackage, images: seq<ImageFile>, layout: string,
                        toEmu: EmuConversion, ghost build: SlideBuilder)
      returns (err: Option<BuildError>)
      requires pkg.slideIdList.Some?
      requires BuildsSlides(build, toEmu, layout)
      modifies this`stepCount, pkg
      ensures var r := Slides(old(pkg.Value()), old(stepCount), stepSubscribed, build, images, |images|);
        pkg.Value() == r.pkg && stepCount == r.steps && err == r.error
    {
      ghost var p1 := pkg.Value();
      ghost var steps0 := stepCount;
      var currentSlideId: UInt32 := MinSlideId;
      var i := 0;
      while i < |images|
        invariant 0 <= i <= |images|
        invariant currentSlideId == SlideIdAt(i)
        invariant pkg.slideIdList.Some?
        invariant Slides(p1, steps0, stepSubscribed, build, images, i) == Progress(pkg.Value(), stepCount, None)
      {
        ghost var before := pkg.Value();
        ghost var stepsBefore := stepCount;
        err := AddSlide(pkg, images[i], currentSlideId, layout, toEmu, build);
        ghost var next := IterationStep(before, stepsBefore, stepSubscribed, build, images[i], currentSlideId);
        assert Slides(p1, steps0, stepSubscribed, build, images, i + 1) == next;
        if err.Some? {
          StopsEarly(p1, steps0, stepSubscribed, build, images, i + 1, next);
          return;
        }
        currentSlideId := Increment(currentSlideId);
        i := i + 1;
      }
      err := None;
    }

    /**
     One iteration of the loop for the image with this id: raise Step, read the image, add
     its slide part under "rel" + id, link the layout, attach the image under "relId1" and
     append the slide-id entry. The first exception leaves the package as it was.
     */
    method AddSlide(pkg: PresentationPackage, img: ImageFile, id: UInt32, layout: string,
                    toEmu: EmuConversion, ghost build: SlideBuilder)
      returns (err: Option<BuildError>)
      requires pkg.slideIdList.Some?
      requires BuildsSlides(build, toEmu, layout)
      modifies this`stepCount, pkg
      ensures var r := IterationStep(old(pkg.Value()), old(stepCount), stepSubscribed, build, img, id);
        pkg.Value() == r.pkg && stepCount == r.steps && err == r.error
    {
      if stepSubscribed {
        stepCount := stepCount + 1;
      }
      var relId := RelId(id);
      var data := GetImageData(img, toEmu);
      assert build(img) == SlideFor(img, toEmu, layout);
      if data.Failure? {
        return Some(Image(data.error));
      }
      if relId in pkg.parts {
        return Some(RelationshipIdInUse(relId));
      }
      pkg.parts := pkg.parts[relId := NewSlide(NewSlidePart(img, data.value, layout))];
      pkg.slideIdList := Some(pkg.slideIdList.value + [SlideIdEntry(id, relId)]);
      err := None;
    }

    method CreateSlideShow(pkg: PresentationPackage, images: seq<ImageFile>, toEmu: EmuConversion)
      returns (err: Option<BuildError>)
      modifies this, pkg
      ensures stepSubscribed == old(stepSubscribed)
      ensures var r := CreateSlideShowSpec(old(pkg.Value()), old(stepCount), stepSubscribed, images, toEmu);
        pkg.Value() == r.pkg && stepCount == r.steps && err == r.error
    {
      if |images| > 0 {
        err := CreateSlides(pkg, images, toEmu);
      } else {
        err := None;
      }
    }
  }
}
