/**
  * What one render of the banner draws, as pure functions of the settings
  * (script.js, generateBanner and the draw* functions it calls): the
  * layers in order, the title's placement and colour, the asset's crop or
  * fit, the logo or its placeholder; and the checks an uploaded file must
  * pass (loadAndDrawAsset).
  */
module Layout {
  import opened Wrappers
  import opened Geometry
  import opened Words
  import opened Canvas
  import opened Wrap

  const CANVAS_WIDTH: real := 900.0
  const CANVAS_HEIGHT: real := 300.0
  const LOGO_SIZE: real := 80.0
  const ASSET_WIDTH: real := 450.0
  const ASSET_HEIGHT: real := 300.0

  /** The whole canvas. */
  const CANVAS_AREA := Rect(0.0, 0.0, CANVAS_WIDTH, CANVAS_HEIGHT)

  /** The right-hand rectangle the uploaded asset is drawn into. */
  const ASSET_AREA := Rect(CANVAS_WIDTH - ASSET_WIDTH, 0.0, ASSET_WIDTH, ASSET_HEIGHT)

  /** The top-left square of the logo or its placeholder. */
  const LOGO_SLOT := Rect(20.0, 20.0, LOGO_SIZE, LOGO_SIZE)

  const TITLE_FAMILY := "Arial, sans-serif"

  const WHITE := "#FFFFFF"
  const BLACK := "#000000"
  const DARK_GREY := "#333333"

  /** Uploads above this many bytes (5 MiB) are refused. */
  const MAX_UPLOAD_BYTES: nat := 5 * 1024 * 1024

  /** An uploaded image and how it is shown: "photo" (cropped) or "3d" (fitted). */
  datatype Asset = Asset(image: Image, kind: string, originalWidth: Pixels, originalHeight: Pixels)

  /**
    * The logo global: null (never requested, or failed to load), requested
    * but not yet complete, or loaded.
    */
  datatype LogoState = Absent | Loading | Ready(image: Image)

  /** The settings a render reads: the page's global variables. */
  datatype BannerState = BannerState(
    backgroundColor: string,
    title: string,
    fontSize: int,
    showLogo: bool,
    assetType: string,
    asset: Option<Asset>,
    logo: LogoState)

  /** The settings the page starts with, before the logo is requested. */
  const DEFAULT_STATE := BannerState(WHITE, "", 32, true, "photo", None, Absent)

  /** An uploaded asset is shown in the display mode currently selected. */
  predicate AssetMatchesSelection(s: BannerState)
  {
    s.asset.Some? ==> s.asset.value.kind == s.assetType
  }

  // ---------------------------------------------------------------- colour

  /**
    * getContrastingTextColor: white text exactly on a background written
    * "#000000" (compared as a string, so "#000" does not count), dark grey
    * on every other background.
    */
  function ContrastingTextColor(backgroundColor: string): (colour: string)
    ensures colour == WHITE <==> backgroundColor == BLACK
    ensures colour != WHITE ==> colour == DARK_GREY
  {
    if backgroundColor == BLACK then WHITE else DARK_GREY
  }

  // ----------------------------------------------------------------- trim

  /**
    * The code points String.prototype.trim removes: the white space
    * characters (tab, vertical tab, form feed, space, no-break space, the
    * Unicode space separators, the byte order mark) and the line terminators.
    */
  predicate IsWhitespace(c: char)
  {
    var n := c as int;
    || n == 0x09 || n == 0x0A || n == 0x0B || n == 0x0C || n == 0x0D || n == 0x20
    || n == 0xA0 || n == 0x1680 || (0x2000 <= n <= 0x200A) || n == 0x2028 || n == 0x2029
    || n == 0x202F || n == 0x205F || n == 0x3000 || n == 0xFEFF
  }

  /** Nothing but white space. */
  predicate Blank(s: string)
  {
    forall i :: 0 <= i < |s| ==> IsWhitespace(s[i])
  }

  /** `s` without its leading white space. */
  function TrimStart(s: string): (r: string)
    ensures |r| <= |s| && r == s[|s| - |r|..]
    ensures forall i :: 0 <= i < |s| - |r| ==> IsWhitespace(s[i])
    ensures r != [] ==> !IsWhitespace(r[0])
  {
    if s != [] && IsWhitespace(s[0]) then TrimStart(s[1..]) else s
  }

  /** `s` without its trailing white space. */
  function TrimEnd(s: string): (r: string)
    ensures |r| <= |s| && r == s[..|r|]
    ensures forall i :: |r| <= i < |s| ==> IsWhitespace(s[i])
    ensures r != [] ==> !IsWhitespace(r[|r| - 1])
  {
    if s != [] && IsWhitespace(s[|s| - 1]) then TrimEnd(s[..|s| - 1]) else s
  }

  /** String.prototype.trim. */
  function Trim(s: string): string
  {
    TrimEnd(TrimStart(s))
  }

  /** A string trims to nothing exactly when it is all white space. */
  lemma TrimEmptyIffBlank(s: string)
    ensures Trim(s) == [] <==> Blank(s)
  {
    var r := TrimStart(s);
    if r != [] {
      assert r[0] == s[|s| - |r|];
      assert TrimEnd(r) != [];
    }
  }

  // --------------------------------------------------------------- title

  /** Where and how large the title is set. */
  datatype TitleLayout = TitleLayout(leftMargin: real, top: real, maxWidth: real, lineHeight: real)

  /** The title keeps clear of the logo slot when the logo global is set and shown. */
  predicate ReservesLogoSpace(showLogo: bool, logo: LogoState)
  {
    showLogo && !logo.Absent?
  }

  /**
    * drawTitle's geometry: the text starts 10px right of the logo slot when
    * room is kept for the logo and 30px from the edge otherwise, is centred
    * on the canvas height, ends 20px before the asset area, and its lines
    * are 1.2 font sizes apart.
    */
  function LayoutTitle(showLogo: bool, logo: LogoState, fontSize: int): (l: TitleLayout)
    ensures ReservesLogoSpace(showLogo, logo) ==> l.leftMargin == LOGO_SLOT.x + LOGO_SLOT.w + 10.0
    ensures !ReservesLogoSpace(showLogo, logo) ==> l.leftMargin == 30.0
    ensures l.leftMargin + l.maxWidth + 20.0 == ASSET_AREA.x
    ensures l.top == CANVAS_AREA.y + CANVAS_AREA.h / 2.0
    ensures l.lineHeight == fontSize as real * 1.2
  {
    var leftMargin := if ReservesLogoSpace(showLogo, logo) then LOGO_SIZE + 30.0 else 30.0;
    TitleLayout(leftMargin, CANVAS_HEIGHT / 2.0, (CANVAS_WIDTH / 2.0) - leftMargin - 20.0, fontSize as real * 1.2)
  }

  /** The font the title is set and measured in. */
  function TitleFont(fontSize: int): Font
  {
    Font(fontSize, TITLE_FAMILY)
  }

  /** The attributes the title's lines are drawn with. */
  function TitleStyle(fontSize: int, backgroundColor: string): TextStyle
  {
    TextStyle(ContrastingTextColor(backgroundColor), TitleFont(fontSize), Left, Middle)
  }

  /** The lines the title wraps into. */
  function TitleLines(title: string, fontSize: int, showLogo: bool, logo: LogoState, metrics: Metrics): seq<string>
  {
    WrapLines(Split(title), MeasureIn(metrics, TitleFont(fontSize)), LayoutTitle(showLogo, logo, fontSize).maxWidth)
  }

  /** The commands drawTitle issues: nothing for a blank title, else the wrapped lines. */
  function TitleLayer(title: string, fontSize: int, backgroundColor: string, showLogo: bool, logo: LogoState,
                      metrics: Metrics): seq<DrawCmd>
  {
    if Trim(title) == [] then []
    else
      var l := LayoutTitle(showLogo, logo, fontSize);
      TextBlock(TitleLines(title, fontSize, showLogo, logo, metrics), l.leftMargin, l.top, l.lineHeight,
                TitleStyle(fontSize, backgroundColor))
  }

  /**
    * Once the context holds the title's font, alignment, baseline and colour,
    * the title layer is the block wrapText draws with that state at drawTitle's
    * margin, height, width and line spacing.
    */
  lemma TitleLayerInState(title: string, fontSize: int, backgroundColor: string, showLogo: bool, logo: LogoState,
                          metrics: Metrics, st: DrawingState)
    requires Trim(title) != []
    requires st == TitleStateAfter(st, title, fontSize, backgroundColor)
    ensures var l := LayoutTitle(showLogo, logo, fontSize);
      TitleLayer(title, fontSize, backgroundColor, showLogo, logo, metrics)
      == TextBlock(WrapLines(Split(title), MeasureIn(metrics, st.font), l.maxWidth), l.leftMargin, l.top, l.lineHeight,
                   TextStyleOf(st))
  {
    assert TextStyleOf(st) == TitleStyle(fontSize, backgroundColor);
  }

  /** The context attributes after drawTitle. */
  function TitleStateAfter(st: DrawingState, title: string, fontSize: int, backgroundColor: string): DrawingState
  {
    if Trim(title) == [] then st
    else st.(font := TitleFont(fontSize), textAlign := Left, textBaseline := Middle,
             fillStyle := ContrastingTextColor(backgroundColor))
  }

  /** The string each command writes, in order ("" for commands that write none). */
  function TextsOf(cmds: seq<DrawCmd>): seq<string>
  {
    seq(|cmds|, k requires 0 <= k < |cmds| => if cmds[k].Text? then cmds[k].text else "")
  }

  // ---------------------------------------------------------------- logo

  /** The grey square with a border and a centred "LOGO" label (drawPlaceholderLogo). */
  function PlaceholderLayer(): seq<DrawCmd>
  {
    [ Fill(LOGO_SLOT, "#e0e0e0"),
      Stroke(LOGO_SLOT, "#ccc", 2.0),
      Text("LOGO", LOGO_SLOT.x + LOGO_SIZE / 2.0, LOGO_SLOT.y + LOGO_SIZE / 2.0,
           TextStyle("#999", Font(16, TITLE_FAMILY), Center, Middle)) ]
  }

  /** The context attributes after drawPlaceholderLogo. */
  function PlaceholderStateAfter(st: DrawingState): DrawingState
  {
    st.(fillStyle := "#999", strokeStyle := "#ccc", lineWidth := 2.0, font := Font(16, TITLE_FAMILY),
        textAlign := Center, textBaseline := Middle)
  }

  /** The commands drawLogo issues: the loaded logo in its slot, else the placeholder. */
  function LogoLayer(showLogo: bool, logo: LogoState): seq<DrawCmd>
  {
    if !showLogo then []
    else if logo.Ready? then [Picture(logo.image, None, LOGO_SLOT)]
    else PlaceholderLayer()
  }

  /** The context attributes after drawLogo. */
  function LogoStateAfter(st: DrawingState, showLogo: bool, logo: LogoState): DrawingState
  {
    if !showLogo || logo.Ready? then st else PlaceholderStateAfter(st)
  }

  // --------------------------------------------------------------- asset

  /** drawImageCropped: the centred part of `image` with the area's proportions, stretched over `area`. */
  function CroppedPicture(image: Image, area: Rect): DrawCmd
    requires area.w > 0.0 && area.h > 0.0
  {
    Picture(image, Some(CoverSource(image.width as real, image.height as real, area.w, area.h)), area)
  }

  /** drawImageFitted: the whole `image`, as large as fits in `area` and centred in it. */
  function FittedPicture(image: Image, area: Rect): DrawCmd
    requires area.w > 0.0 && area.h > 0.0
  {
    Picture(image, None, ContainRect(area, image.width as real, image.height as real))
  }

  /** The commands drawAsset issues: "photo" is cropped, "3d" is fitted, any other kind draws nothing. */
  function AssetLayer(asset: Option<Asset>): seq<DrawCmd>
  {
    match asset
    case None => []
    case Some(a) =>
      if a.kind == "photo" then [CroppedPicture(a.image, ASSET_AREA)]
      else if a.kind == "3d" then [FittedPicture(a.image, ASSET_AREA)]
      else []
  }

  // --------------------------------------------------------------- frame

  /** Everything generateBanner draws, back to front: clear, background, asset, logo, title. */
  function Frame(s: BannerState, metrics: Metrics): seq<DrawCmd>
  {
    [Clear(CANVAS_AREA), Fill(CANVAS_AREA, s.backgroundColor)]
    + AssetLayer(s.asset)
    + LogoLayer(s.showLogo, s.logo)
    + TitleLayer(s.title, s.fontSize, s.backgroundColor, s.showLogo, s.logo, metrics)
  }

  /** The context attributes after generateBanner. */
  function FrameStateAfter(st: DrawingState, s: BannerState): DrawingState
  {
    TitleStateAfter(LogoStateAfter(st.(fillStyle := s.backgroundColor), s.showLogo, s.logo),
                    s.title, s.fontSize, s.backgroundColor)
  }

  // -------------------------------------------------------------- upload

  /** A chosen file as the page sees it before reading it. */
  datatype FileInfo = FileInfo(mimeType: string, size: nat)

  /** How reading and decoding a file that passed the checks ended. */
  datatype ReadOutcome = ReadFailed | DecodeFailed | Decoded(image: Image)

  datatype UploadError = InvalidType | TooLarge

  /** What an upload did. */
  datatype UploadOutcome = Cleared | Rejected(error: UploadError) | Unreadable | Undecodable | Accepted

  /** The MIME type starts with "image/". */
  predicate IsImageType(mimeType: string)
  {
    "image/" <= mimeType
  }

  /**
    * loadAndDrawAsset's checks: the type is checked first, so a file that is
    * neither an image nor small enough is refused for its type; a size of
    * exactly 5 MiB passes.
    */
  function ValidateUpload(file: FileInfo): (error: Option<UploadError>)
    ensures error == Some(InvalidType) <==> !IsImageType(file.mimeType)
    ensures error == Some(TooLarge) <==> IsImageType(file.mimeType) && file.size > MAX_UPLOAD_BYTES
    ensures error == None <==> IsImageType(file.mimeType) && file.size <= MAX_UPLOAD_BYTES
  {
    if !IsImageType(file.mimeType) then Some(InvalidType)
    else if file.size > MAX_UPLOAD_BYTES then Some(TooLarge)
    else None
  }

  // ----------------------------------------------------------- properties

  /** The title draws nothing exactly when it is blank. */
  lemma TitleBlankDrawsNothing(title: string, fontSize: int, backgroundColor: string, showLogo: bool,
                               logo: LogoState, metrics: Metrics)
    ensures TitleLayer(title, fontSize, backgroundColor, showLogo, logo, metrics) == [] <==> Blank(title)
  {
    TrimEmptyIffBlank(title);
    if !Blank(title) {
      WrapLineCount(Split(title), MeasureIn(metrics, TitleFont(fontSize)), LayoutTitle(showLogo, logo, fontSize).maxWidth);
    }
  }

  /**
    * A title that is not blank is drawn as one line or more, never more
    * lines than it has space-separated words; the lines written one after
    * the other are the title plus one space.
    */
  lemma TitleKeepsText(title: string, fontSize: int, backgroundColor: string, showLogo: bool,
                       logo: LogoState, metrics: Metrics)
    requires !Blank(title)
    ensures var cmds := TitleLayer(title, fontSize, backgroundColor, showLogo, logo, metrics);
      && 1 <= |cmds| <= Spaces(title) + 1
      && TextsOf(cmds) == TitleLines(title, fontSize, showLogo, logo, metrics)
      && Concat(TextsOf(cmds)) == title + " "
  {
    TrimEmptyIffBlank(title);
    var measure := MeasureIn(metrics, TitleFont(fontSize));
    var maxWidth := LayoutTitle(showLogo, logo, fontSize).maxWidth;
    WrapLineCount(Split(title), measure, maxWidth);
    WrapKeepsText(title, measure, maxWidth);
  }

  /**
    * Every title line starts at the left margin, in the contrasting colour
    * and the title font; when room is kept for the logo that margin is 10px
    * right of the logo slot.
    */
  lemma TitleAtMargin(title: string, fontSize: int, backgroundColor: string, showLogo: bool,
                      logo: LogoState, metrics: Metrics)
    ensures var cmds := TitleLayer(title, fontSize, backgroundColor, showLogo, logo, metrics);
      forall k :: 0 <= k < |cmds| ==>
        && cmds[k].Text?
        && cmds[k].x == LayoutTitle(showLogo, logo, fontSize).leftMargin
        && cmds[k].style == TextStyle(ContrastingTextColor(backgroundColor), Font(fontSize, TITLE_FAMILY), Left, Middle)
        && (ReservesLogoSpace(showLogo, logo) ==> cmds[k].x >= LOGO_SLOT.x + LOGO_SLOT.w + 10.0)
  {
    if Trim(title) != [] {
      var l := LayoutTitle(showLogo, logo, fontSize);
      var lines := TitleLines(title, fontSize, showLogo, logo, metrics);
      var cmds := TextBlock(lines, l.leftMargin, l.top, l.lineHeight, TitleStyle(fontSize, backgroundColor));
      assert TitleLayer(title, fontSize, backgroundColor, showLogo, logo, metrics) == cmds;
      forall k | 0 <= k < |cmds|
        ensures cmds[k].Text? && cmds[k].x == l.leftMargin
        ensures cmds[k].style == TextStyle(ContrastingTextColor(backgroundColor), Font(fontSize, TITLE_FAMILY), Left, Middle)
      {
      }
    }
  }

  /** The title's lines form a block centred on the canvas's mid-height. */
  lemma TitleCentred(title: string, fontSize: int, backgroundColor: string, showLogo: bool,
                     logo: LogoState, metrics: Metrics)
    requires !Blank(title)
    ensures var cmds := TitleLayer(title, fontSize, backgroundColor, showLogo, logo, metrics);
      && |cmds| >= 1
      && (forall k :: 0 <= k < |cmds| ==> cmds[k].Text?)
      && cmds[0].y + cmds[|cmds| - 1].y == CANVAS_HEIGHT
      && forall k :: 0 <= k < |cmds| - 1 ==> cmds[k + 1].y - cmds[k].y == fontSize as real * 1.2
  {
    TitleBlankDrawsNothing(title, fontSize, backgroundColor, showLogo, logo, metrics);
    TrimEmptyIffBlank(title);
    var l := LayoutTitle(showLogo, logo, fontSize);
    var lines := TitleLines(title, fontSize, showLogo, logo, metrics);
    var cmds := TextBlock(lines, l.leftMargin, l.top, l.lineHeight, TitleStyle(fontSize, backgroundColor));
    assert TitleLayer(title, fontSize, backgroundColor, showLogo, logo, metrics) == cmds;
    BlockCentred(|cmds|, CANVAS_HEIGHT / 2.0, fontSize as real * 1.2);
    forall k | 0 <= k < |cmds| - 1
      ensures cmds[k + 1].y - cmds[k].y == fontSize as real * 1.2
    {
      var kk: nat := k;
      assert kk + 1 < |cmds|;
    }
  }

  /**
    * When the logo failed to load (the global is null) but is still shown,
    * the placeholder is drawn in the logo slot, yet no room is kept for it:
    * every title line starts at 30px, within the slot's horizontal span
    * (20px to 100px). Whether the text meets the placeholder also depends on
    * the font size and the number of lines, which set the lines' heights.
    */
  lemma FailedLogoTitleInLogoColumn(s: BannerState, metrics: Metrics)
    requires s.showLogo && s.logo == Absent && !Blank(s.title)
    ensures LogoLayer(s.showLogo, s.logo) == PlaceholderLayer()
    ensures var cmds := TitleLayer(s.title, s.fontSize, s.backgroundColor, s.showLogo, s.logo, metrics);
      && |cmds| >= 1
      && forall k :: 0 <= k < |cmds| ==> cmds[k].Text? && LOGO_SLOT.x < cmds[k].x < LOGO_SLOT.x + LOGO_SLOT.w
  {
    TitleBlankDrawsNothing(s.title, s.fontSize, s.backgroundColor, s.showLogo, s.logo, metrics);
    TitleAtMargin(s.title, s.fontSize, s.backgroundColor, s.showLogo, s.logo, metrics);
  }

  /**
    * The asset stays in the right-hand area: a photo is drawn over the whole
    * area from a centred part of the image with the area's proportions; a
    * 3D asset is drawn whole, undistorted and centred inside the area; any
    * other kind is not drawn.
    */
  lemma AssetPlacement(asset: Option<Asset>)
    ensures var cmds := AssetLayer(asset);
      && (forall k :: 0 <= k < |cmds| ==> cmds[k].Picture? && Inside(cmds[k].dest, ASSET_AREA))
      && (asset.Some? && asset.value.kind == "photo" ==>
            var image := asset.value.image;
            var area := ImageArea(image.width as real, image.height as real);
            && |cmds| == 1 && cmds[0].dest == ASSET_AREA && cmds[0].source.Some?
            && Inside(cmds[0].source.value, area) && Centred(cmds[0].source.value, area)
            && HasAspect(cmds[0].source.value, ASSET_WIDTH, ASSET_HEIGHT))
      && (asset.Some? && asset.value.kind == "3d" ==>
            var image := asset.value.image;
            && |cmds| == 1 && cmds[0].source == None
            && Centred(cmds[0].dest, ASSET_AREA)
            && HasAspect(cmds[0].dest, image.width as real, image.height as real))
      && (asset.None? || (asset.value.kind != "photo" && asset.value.kind != "3d") ==> cmds == [])
  {
  }

  /**
    * The first render after a title is typed into the fresh page: white
    * background, the placeholder while the logo is still loading, no asset,
    * and the title's lines in dark grey starting at x = 110.
    */
  lemma FirstFrame(s: BannerState, metrics: Metrics)
    requires s.backgroundColor == WHITE && s.showLogo && s.logo == Loading && s.asset == None
    requires !Blank(s.title)
    ensures var cmds := Frame(s, metrics);
      && 6 <= |cmds| <= 6 + Spaces(s.title)
      && cmds[..5] == [Clear(CANVAS_AREA), Fill(CANVAS_AREA, WHITE)] + PlaceholderLayer()
      && forall k :: 5 <= k < |cmds| ==> cmds[k].Text? && cmds[k].x == 110.0 && cmds[k].style.colour == DARK_GREY
  {
    var title := TitleLayer(s.title, s.fontSize, s.backgroundColor, s.showLogo, s.logo, metrics);
    TitleKeepsText(s.title, s.fontSize, s.backgroundColor, s.showLogo, s.logo, metrics);
    TitleAtMargin(s.title, s.fontSize, s.backgroundColor, s.showLogo, s.logo, metrics);
    var layers := [Clear(CANVAS_AREA), Fill(CANVAS_AREA, WHITE)] + PlaceholderLayer();
    assert Frame(s, metrics) == layers + title;
  }
}
