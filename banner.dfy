/**
  * The page's global state and the functions that change it or draw from
  * it (script.js): the settings the form controls write, the uploaded asset,
  * the logo image, and the 2D context every render draws into.
  */
module Banner {
  import opened Wrappers
  import opened Geometry
  import opened Words
  import opened Canvas
  import opened Wrap
  import opened Layout

  /** Appending drawing commands in two steps or in one gives the same list. */
  lemma AppendAssociates(a: seq<DrawCmd>, b: seq<DrawCmd>, c: seq<DrawCmd>)
    ensures (a + b) + c == a + (b + c)
  {
  }

  class BannerPage {
    const ctx: Context
    var backgroundColor: string
    var title: string
    var fontSize: int
    var showLogo: bool
    var assetType: string
    var uploadedAsset: Option<Asset>
    var logo: LogoState

    /** The settings a render reads. */
    function State(): BannerState
      reads this
    {
      BannerState(backgroundColor, title, fontSize, showLogo, assetType, uploadedAsset, logo)
    }

    /**
      * Page load: the globals take their initial values, initializeCanvas
      * creates the context and requests the logo, and the first banner is
      * rendered.
      */
    constructor (metrics: Metrics)
      ensures fresh(ctx) && ctx.metrics == metrics
      ensures State() == DEFAULT_STATE.(logo := Loading) && AssetMatchesSelection(State())
      ensures ctx.commands == Frame(State(), metrics)
      ensures ctx.state == FrameStateAfter(INITIAL_STATE, State())
    {
      backgroundColor := WHITE;
      title := "";
      fontSize := 32;
      showLogo := true;
      assetType := "photo";
      uploadedAsset := None;
      logo := Absent;
      ctx := new Context(metrics);
      new;
      logo := Loading;
      ghost var settings := State();
      GenerateBanner();
      assert State() == settings;
    }

    /** The logo image finished loading: it is drawn from now on, and the banner is rendered again. */
    method LogoLoaded(image: Image)
      requires AssetMatchesSelection(State())
      modifies this, ctx
      ensures AssetMatchesSelection(State())
      ensures State() == old(State()).(logo := Ready(image))
      ensures ctx.commands == old(ctx.commands) + Frame(State(), ctx.metrics)
      ensures ctx.state == FrameStateAfter(old(ctx.state), State())
    {
      logo := Ready(image);
      ghost var settings := State();
      GenerateBanner();
      assert State() == settings;
    }

    /** The logo image failed to load: the global is cleared, and the banner is rendered again. */
    method LogoFailed()
      requires AssetMatchesSelection(State())
      modifies this, ctx
      ensures AssetMatchesSelection(State())
      ensures State() == old(State()).(logo := Absent)
      ensures ctx.commands == old(ctx.commands) + Frame(State(), ctx.metrics)
      ensures ctx.state == FrameStateAfter(old(ctx.state), State())
    {
      logo := Absent;
      ghost var settings := State();
      GenerateBanner();
      assert State() == settings;
    }

    /** setBackgroundColor. */
    method SetBackgroundColor(color: string)
      modifies this
      ensures State() == old(State()).(backgroundColor := color)
    {
      backgroundColor := color;
    }

    /** toggleLogo. */
    method ToggleLogo(show: bool)
      modifies this
      ensures State() == old(State()).(showLogo := show)
    {
      showLogo := show;
    }

    /** The background colour radio handler: setBackgroundColor, then a render. */
    method BackgroundColorChanged(color: string)
      requires AssetMatchesSelection(State())
      modifies this, ctx
      ensures AssetMatchesSelection(State())
      ensures State() == old(State()).(backgroundColor := color)
      ensures ctx.commands == old(ctx.commands) + Frame(State(), ctx.metrics)
      ensures ctx.state == FrameStateAfter(old(ctx.state), State())
    {
      SetBackgroundColor(color);
      ghost var settings := State();
      GenerateBanner();
      assert State() == settings;
    }

    /** The logo checkbox handler: toggleLogo, then a render. */
    method LogoToggled(show: bool)
      requires AssetMatchesSelection(State())
      modifies this, ctx
      ensures AssetMatchesSelection(State())
      ensures State() == old(State()).(showLogo := show)
      ensures ctx.commands == old(ctx.commands) + Frame(State(), ctx.metrics)
      ensures ctx.state == FrameStateAfter(old(ctx.state), State())
    {
      ToggleLogo(show);
      ghost var settings := State();
      GenerateBanner();
      assert State() == settings;
    }

    /** The title field's input handler: the new title, then a render. */
    method TitleInput(text: string)
      requires AssetMatchesSelection(State())
      modifies this, ctx
      ensures AssetMatchesSelection(State())
      ensures State() == old(State()).(title := text)
      ensures ctx.commands == old(ctx.commands) + Frame(State(), ctx.metrics)
      ensures ctx.state == FrameStateAfter(old(ctx.state), State())
    {
      title := text;
      ghost var settings := State();
      GenerateBanner();
      assert State() == settings;
    }

    /**
      * The font-size slider's input handler: the new size, then a render.
      * The size is taken as the slider gives it; no bound is imposed.
      */
    method FontSizeInput(size: int)
      requires AssetMatchesSelection(State())
      modifies this, ctx
      ensures AssetMatchesSelection(State())
      ensures State() == old(State()).(fontSize := size)
      ensures ctx.commands == old(ctx.commands) + Frame(State(), ctx.metrics)
      ensures ctx.state == FrameStateAfter(old(ctx.state), State())
    {
      fontSize := size;
      ghost var settings := State();
      GenerateBanner();
      assert State() == settings;
    }

    /**
      * The asset-type radio handler: records the chosen type and, when an
      * asset is loaded, rewrites only that asset's type and renders again.
      */
    method SelectAssetType(kind: string)
      modifies this, ctx
      ensures AssetMatchesSelection(State())
      ensures old(uploadedAsset).None? ==> State() == old(State()).(assetType := kind)
      ensures old(uploadedAsset).Some? ==>
        State() == old(State()).(assetType := kind, asset := Some(old(uploadedAsset).value.(kind := kind)))
      ensures old(uploadedAsset).None? ==> ctx.commands == old(ctx.commands) && ctx.state == old(ctx.state)
      ensures old(uploadedAsset).Some? ==>
        && ctx.commands == old(ctx.commands) + Frame(State(), ctx.metrics)
        && ctx.state == FrameStateAfter(old(ctx.state), State())
    {
      assetType := kind;
      if uploadedAsset.Some? {
        uploadedAsset := Some(uploadedAsset.value.(kind := kind));
        GenerateBanner();
      }
    }

    /**
      * loadAndDrawAsset, with reading and decoding the file given as their
      * outcome `read`. No file clears the asset and renders. A file that
      * fails the type or size check is refused; a file that cannot be read
      * or decoded changes nothing; a decoded image becomes the asset, with
      * the type chosen when the upload started, and the banner is rendered.
      */
    method LoadAndDrawAsset(file: Option<FileInfo>, kind: string, read: ReadOutcome) returns (outcome: UploadOutcome)
      modifies this, ctx
      ensures file.None? ==> outcome == Cleared && State() == old(State()).(asset := None)
      ensures file.Some? && ValidateUpload(file.value).Some? ==>
        outcome == Rejected(ValidateUpload(file.value).value)
      ensures file.Some? && ValidateUpload(file.value).None? ==>
        outcome == match read
          case ReadFailed => Unreadable
          case DecodeFailed => Undecodable
          case Decoded(_) => Accepted
      ensures outcome == Accepted ==>
        State() == old(State()).(asset := Some(Asset(read.image, kind, read.image.width, read.image.height)))
      ensures outcome == Cleared || outcome == Accepted ==>
        && ctx.commands == old(ctx.commands) + Frame(State(), ctx.metrics)
        && ctx.state == FrameStateAfter(old(ctx.state), State())
      ensures outcome != Cleared && outcome != Accepted ==>
        State() == old(State()) && ctx.commands == old(ctx.commands) && ctx.state == old(ctx.state)
    {
      if file.None? {
        uploadedAsset := None;
        ghost var settings := State();
        GenerateBanner();
        assert State() == settings;
        return Cleared;
      }
      var error := ValidateUpload(file.value);
      if error.Some? {
        return Rejected(error.value);
      }
      match read
      case ReadFailed =>
        outcome := Unreadable;
      case DecodeFailed =>
        outcome := Undecodable;
      case Decoded(image) =>
        uploadedAsset := Some(Asset(image, kind, image.width, image.height));
        ghost var settings := State();
        GenerateBanner();
        assert State() == settings;
        outcome := Accepted;
    }

    /** The upload field's change handler: loadAndDrawAsset with the asset type selected now. */
    method AssetChosen(file: Option<FileInfo>, read: ReadOutcome) returns (outcome: UploadOutcome)
      requires AssetMatchesSelection(State())
      modifies this, ctx
      ensures AssetMatchesSelection(State())
      ensures file.None? ==> outcome == Cleared && State() == old(State()).(asset := None)
      ensures file.Some? && ValidateUpload(file.value).Some? ==>
        outcome == Rejected(ValidateUpload(file.value).value)
      ensures file.Some? && ValidateUpload(file.value).None? ==>
        outcome == match read
          case ReadFailed => Unreadable
          case DecodeFailed => Undecodable
          case Decoded(_) => Accepted
      ensures outcome == Accepted ==>
        && read.Decoded?
        && State() == old(State()).(asset := Some(Asset(read.image, old(assetType), read.image.width, read.image.height)))
      ensures outcome == Cleared || outcome == Accepted ==>
        && ctx.commands == old(ctx.commands) + Frame(State(), ctx.metrics)
        && ctx.state == FrameStateAfter(old(ctx.state), State())
      ensures outcome != Cleared && outcome != Accepted ==>
        State() == old(State()) && ctx.commands == old(ctx.commands) && ctx.state == old(ctx.state)
    {
      outcome := LoadAndDrawAsset(file, assetType, read);
    }

    /**
      * clearAll: every setting back to its initial value (the logo image is
      * kept) and the canvas cleared, without drawing a new banner.
      */
    method ClearAll()
      modifies this, ctx
      ensures AssetMatchesSelection(State())
      ensures State() == DEFAULT_STATE.(logo := old(logo))
      ensures ctx.commands == old(ctx.commands) + [Clear(CANVAS_AREA)]
      ensures ctx.state == old(ctx.state)
    {
      title := "";
      fontSize := 32;
      backgroundColor := WHITE;
      showLogo := true;
      assetType := "photo";
      uploadedAsset := None;
      ctx.ClearRect(CANVAS_AREA);
    }

    /** generateBanner: clears the canvas and draws background, asset, logo and title, in that order. */
    method GenerateBanner()
      modifies ctx
      ensures ctx.commands == old(ctx.commands) + Frame(State(), ctx.metrics)
      ensures ctx.state == FrameStateAfter(old(ctx.state), State())
    {
      ghost var before := ctx.commands;
      ctx.ClearRect(CANVAS_AREA);
      DrawBackground();
      ghost var background := [Clear(CANVAS_AREA), Fill(CANVAS_AREA, backgroundColor)];
      assert ctx.commands == before + background;
      DrawAsset();
      ghost var asset := AssetLayer(uploadedAsset);
      DrawLogo();
      ghost var logoLayer := LogoLayer(showLogo, logo);
      assert ctx.commands == before + (background + asset + logoLayer);
      ghost var drawn := ctx.commands;
      DrawTitle(title, fontSize);
      ghost var titleLayer := TitleLayer(title, fontSize, backgroundColor, showLogo, logo, ctx.metrics);
      assert ctx.commands == drawn + titleLayer;
      ghost var frame := background + asset + logoLayer + titleLayer;
      assert Frame(State(), ctx.metrics) == frame;
      AppendAssociates(before, background + asset + logoLayer, titleLayer);
    }

    /** drawBackground: the whole canvas in the background colour. */
    method DrawBackground()
      modifies ctx
      ensures ctx.commands == old(ctx.commands) + [Fill(CANVAS_AREA, backgroundColor)]
      ensures ctx.state == old(ctx.state).(fillStyle := backgroundColor)
    {
      ctx.state := ctx.state.(fillStyle := backgroundColor);
      ctx.FillRect(CANVAS_AREA);
    }

    /** drawTitle: nothing for a blank title, else the wrapped title in the contrasting colour. */
    method DrawTitle(text: string, size: int)
      modifies ctx
      ensures ctx.commands == old(ctx.commands) + TitleLayer(text, size, backgroundColor, showLogo, logo, ctx.metrics)
      ensures ctx.state == TitleStateAfter(old(ctx.state), text, size, backgroundColor)
    {
      if Trim(text) == [] {
        return;
      }
      DrawTitleLines(text, size);
    }

    /** drawTitle past its blank check: the title's attributes, then the wrapped lines. */
    method DrawTitleLines(text: string, size: int)
      requires Trim(text) != []
      modifies ctx
      ensures ctx.commands == old(ctx.commands) + TitleLayer(text, size, backgroundColor, showLogo, logo, ctx.metrics)
      ensures ctx.state == TitleStateAfter(old(ctx.state), text, size, backgroundColor)
    {
      ctx.state := ctx.state.(font := TitleFont(size), textAlign := Left, textBaseline := Middle);
      var textColor := ContrastingTextColor(backgroundColor);
      ctx.state := ctx.state.(fillStyle := textColor);
      var layout := LayoutTitle(showLogo, logo, size);
      TitleLayerInState(text, size, backgroundColor, showLogo, logo, ctx.metrics, ctx.state);
      WrapText(ctx, text, layout.leftMargin, layout.top, layout.maxWidth, layout.lineHeight);
    }

    /** drawLogo: the loaded logo in its slot, else the placeholder; nothing when the logo is hidden. */
    method DrawLogo()
      modifies ctx
      ensures ctx.commands == old(ctx.commands) + LogoLayer(showLogo, logo)
      ensures ctx.state == LogoStateAfter(old(ctx.state), showLogo, logo)
    {
      if !showLogo {
        return;
      }
      if logo.Ready? {
        ctx.DrawImage(logo.image, None, Rect(20.0, 20.0, LOGO_SIZE, LOGO_SIZE));
      } else {
        DrawPlaceholderLogo();
      }
    }

    /** drawPlaceholderLogo: a light grey square with a grey border and a centred "LOGO". */
    method DrawPlaceholderLogo()
      modifies ctx
      ensures ctx.commands == old(ctx.commands) + PlaceholderLayer()
      ensures ctx.state == PlaceholderStateAfter(old(ctx.state))
    {
      var x, y, size := 20.0, 20.0, LOGO_SIZE;
      ctx.state := ctx.state.(fillStyle := "#e0e0e0");
      ctx.FillRect(Rect(x, y, size, size));
      ctx.state := ctx.state.(strokeStyle := "#ccc", lineWidth := 2.0);
      ctx.StrokeRect(Rect(x, y, size, size));
      ctx.state := ctx.state.(fillStyle := "#999", font := Font(16, TITLE_FAMILY), textAlign := Center,
                              textBaseline := Middle);
      ctx.FillText("LOGO", x + size / 2.0, y + size / 2.0);
    }

    /** drawAsset: a "photo" is cropped into the right half, a "3d" asset fitted; other kinds draw nothing. */
    method DrawAsset()
      modifies ctx
      ensures ctx.commands == old(ctx.commands) + AssetLayer(uploadedAsset)
      ensures ctx.state == old(ctx.state)
    {
      if uploadedAsset.None? {
        return;
      }
      var asset := uploadedAsset.value;
      var startX := CANVAS_WIDTH - ASSET_WIDTH;
      var startY := 0.0;
      if asset.kind == "photo" {
        DrawImageCropped(asset.image, startX, startY, ASSET_WIDTH, ASSET_HEIGHT);
      } else if asset.kind == "3d" {
        DrawImageFitted(asset.image, startX, startY, ASSET_WIDTH, ASSET_HEIGHT);
      }
    }

    /** drawImageCropped: the cover-fit part of `image` stretched over the target rectangle. */
    method DrawImageCropped(image: Image, x: real, y: real, width: real, height: real)
      requires width > 0.0 && height > 0.0
      modifies ctx
      ensures ctx.commands == old(ctx.commands) + [CroppedPicture(image, Rect(x, y, width, height))]
      ensures ctx.state == old(ctx.state)
    {
      var source := CoverSource(image.width as real, image.height as real, width, height);
      ctx.DrawImage(image, Some(source), Rect(x, y, width, height));
    }

    /** drawImageFitted: the whole of `image`, contain-fitted and centred in the target rectangle. */
    method DrawImageFitted(image: Image, x: real, y: real, maxWidth: real, maxHeight: real)
      requires maxWidth > 0.0 && maxHeight > 0.0
      modifies ctx
      ensures ctx.commands == old(ctx.commands) + [FittedPicture(image, Rect(x, y, maxWidth, maxHeight))]
      ensures ctx.state == old(ctx.state)
    {
      var dest := ContainRect(Rect(x, y, maxWidth, maxHeight), image.width as real, image.height as real);
      ctx.DrawImage(image, None, dest);
    }
  }
}
