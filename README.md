# Email banner generator — a Dafny model

The email banner generator is a single-page tool. It draws a 900 × 300 banner on an HTML canvas from a handful of settings:
- a background colour;
- a title;
- a font size;
- whether the logo is shown;
- an optional uploaded image ("asset"), shown either cropped ("photo") or fitted ("3d").

Every change to a setting re-renders the banner. A render clears the canvas and draws four layers in this order:
1. the background;
2. the asset, in the right-hand 450 × 300 area;
3. the logo, or a grey "LOGO" placeholder, in the 80 × 80 slot at (20, 20);
4. the title. It is word-wrapped greedily, in a colour that contrasts with the background, and centred on the canvas's mid-height.

All of this lives in `script.js`. The model follows it function by function.

| file | module | what it models |
|---|---|---|
| `geometry.dfy` | `Geometry` | the placement arithmetic of `drawImageCropped` (cover-fit) and `drawImageFitted` (contain-fit) |
| `canvas.dfy` | `Canvas` | the browser's 2D context, reduced to what the page assigns and calls; see below |
| `words.dfy` | `Words` | `text.split(' ')` and the strings the wrap loop builds from the words |
| `wrap.dfy` | `Wrap` | `wrapText`: the greedy wrap, as a specification function and as the loop the source runs; the centred drawing of the lines |
| `layout.dfy` | `Layout` | what one render draws, as functions of the settings; the contrast rule; `trim`; the title's layout; the upload checks |
| `banner.dfy` | `Banner` | the page's globals as the class `BannerPage`, with one method per function or event handler that changes them or draws |

The 2D context is the class `Canvas.Context`. It holds the drawing attributes the page sets: fill and stroke colour, line width, font, text alignment and baseline. It also holds the ordered list of drawing commands issued so far. Every drawing method of `BannerPage` is proved to append exactly the commands that a pure layer function of `Layout` computes. Every drawing method is also proved to leave the context's attributes as a matching `…StateAfter` function says. The properties of the drawing are proved about those layer functions.

Text widths (`measureText`) come from a `metrics` function, which is a parameter of the context. The wrap's properties hold for every such function.

Some behaviours of the code are easy to misread; the model follows the code in each:
- **Title margin after a failed logo.** The code reserves the 110px title margin only when `showLogo && logoImage` (script.js:80). The logo load's error handler sets `logoImage` to `null` (script.js:50), while `drawLogo` still draws the placeholder whenever the image is not loaded (script.js:133-143). So after a failed logo load the placeholder is drawn but no room is kept for it: every title line starts at 30px, within the horizontal span of the logo slot (20px to 100px). `Layout.FailedLogoTitleInLogoColumn` proves this. Whether the text actually meets the placeholder also depends on the font size and the number of lines. While the logo is still loading, `logoImage` is a non-null object, so the margin is 110px; `Layout.FirstFrame` shows that render.
- **Font size.** The code takes the slider's value as it comes (script.js:357), with no bound of its own, and so does the model.
- **The wrap's first word.** The code never moves the first word to a line of its own, and it compares the width of the line *with a trailing space*. So a single word wider than the limit stays on its line, and only such a one-word line can overflow (`Wrap.WrapLinesFit`).
- **File read errors.** The code reports an image that fails to decode (script.js:199-201), but the file reader has no error handler, so a read failure is silent. In both cases nothing changes.
- **The asset's display mode.** Every handler keeps an uploaded asset in the display mode currently selected (`Layout.AssetMatchesSelection`), as long as each upload is decoded before the next event; see "Left out" for the interleaving that breaks it.

## Model

| member | source | states |
|---|---|---|
| Geometry.CoverSource | script.js:223-241 | The source window cropped from an iw × ih image lies inside the image, is centred in it, is non-empty, has the target's proportions, and spans the image's full width or full height |
| Geometry.CoverSourceIsLargest | script.js:223-241 | Every other window with the target's proportions that fits in the image is no wider and no taller than the cropped window: the crop removes as little as possible |
| Geometry.ContainRect | script.js:243-262 | The fitted image lies inside the target, is centred in it, is non-empty, keeps the image's proportions, and fills the target's width or its height |
| Geometry.ContainRectIsLargest | script.js:243-262 | Every other rectangle with the image's proportions that fits in the target is no wider and no taller than the fitted one: the image is drawn as large as fits |
| Words.Split | script.js:89 | `split(' ')` gives one more piece than the text has spaces, and no piece contains a space |
| Words.JoinSplit | script.js:89 | Joining the pieces of a split with single spaces gives the text back |
| Words.SplitJoin | script.js:89 | Splitting space-free words joined by single spaces gives the words back, so the split loses nothing |
| Words.RenderJoin | script.js:96 | A line built word by word as `line + word + ' '` is the words joined by spaces, followed by one space |
| Words.ConcatRender | script.js:95-107 | Rendering lines word group by word group and concatenating them gives the rendering of all the words in order |
| Wrap.WrapAfter | script.js:95-106 | Where the loop stands after n words, as the closed lines and the open line (word lists): the n-th word closes the open line exactly when the open line plus that word and a space measures wider than the limit and it is not the first word. A definition; its properties are the lemmas below |
| Wrap.WrapLines | script.js:95-107 | The lines the loop pushes: the closed lines plus the final open line, each rendered as its words followed by spaces. A definition; its properties are WrapLineCount, WrapKeepsText, WrapLinesFit and WrapLinesFull |
| Wrap.WrapAfterIsGreedy | script.js:95-106 | After each word, the lines closed so far plus the open line hold exactly the words seen, in order. No line is empty. A line of two or more words fits the width. Each line's first word would have overflowed the line before |
| Wrap.WrapGroupsIsGreedy | script.js:95-107 | The finished wrap of a non-empty word list satisfies the greedy-wrap conditions |
| Wrap.WrapLineCount | script.js:95-107 | The wrap gives at least one line and never more lines than words |
| Wrap.WrapKeepsText | script.js:89-107 | The lines concatenated give the text followed by one space: no word is dropped, split or reordered |
| Wrap.WrapLinesFit | script.js:100-105 | A line that measures wider than the limit holds a single word |
| Wrap.WrapLinesFull | script.js:100-102 | Every line but the last is maximal: with the next line's first word and a space added, it would measure wider than the limit |
| Wrap.LineStep | script.js:95-106 | One loop step either closes the current line and starts a new one with the word, exactly when the test line is too wide and it is not the first word, or extends the line with the word |
| Wrap.ComputeLines | script.js:89-107 | The loop computes exactly the lines of the greedy wrap specification |
| Wrap.BlockCentred | script.js:110-115 | The first and last baselines are equally far from the block's centre, and consecutive baselines are one line height apart |
| Wrap.DrawLines | script.js:110-116 | One fillText per line, in order, at x and at the centred baselines; the context's attributes are unchanged |
| Wrap.WrapText | script.js:88-117 | Draws the greedy wrap of the text, measured in the context's current font, as a block centred on y |
| Layout.ContrastingTextColor | script.js:119-126 | The text is white exactly when the background is `#000000`; otherwise it is `#333333` |
| Layout.TrimStart | script.js:67 | Drops exactly the leading whitespace: the result is a suffix, everything dropped is whitespace, and the result does not start with whitespace |
| Layout.TrimEnd | script.js:67 | Drops exactly the trailing whitespace: the result is a prefix, everything dropped is whitespace, and the result does not end with whitespace |
| Layout.Trim | script.js:67 | `text.trim()`: leading then trailing whitespace removed. A definition; TrimStart, TrimEnd and TrimEmptyIffBlank state what it removes |
| Layout.TrimEmptyIffBlank | script.js:67 | A trimmed title is empty exactly when every character is whitespace |
| Layout.LayoutTitle | script.js:79-85 | The left margin is 110 when the logo is shown and the logo global is non-null, else 30. The maximum width ends 20px before the asset area. The block is centred at height 150. The line height is 1.2 × font size |
| Layout.ValidateUpload | script.js:174-184 | A non-image type is refused for its type, whatever its size. An image larger than 5242880 bytes is refused as too large. An image of at most 5242880 bytes, exactly 5 MiB included, passes |
| Layout.TitleLayer | script.js:66-117 | The commands drawTitle issues: none for a blank title, otherwise one text command per wrapped line at the title's layout and style. A definition; its properties are the Title lemmas below |
| Layout.PlaceholderLayer | script.js:145-165 | The placeholder's three commands: the #e0e0e0 square, its #ccc 2px border and the centred "LOGO" in #999 16px. A definition, drawn by DrawPlaceholderLogo |
| Layout.LogoLayer | script.js:133-143 | Nothing when the logo is hidden, the image in the 80 × 80 slot when loaded, the placeholder otherwise. A definition, drawn by DrawLogo |
| Layout.AssetLayer | script.js:207-221 | Nothing without an asset, the cover-fit crop for "photo", the contain-fit image for "3d", nothing for any other type. A definition; AssetPlacement states its properties |
| Layout.Frame | script.js:264-278 | One render: clear, background fill, asset layer, logo layer, title layer, in that order. A definition; GenerateBanner is proved to draw it and FirstFrame describes one |
| Layout.TitleBlankDrawsNothing | script.js:66-67 | The title layer is empty exactly when the title is blank |
| Layout.TitleKeepsText | script.js:66-107 | A non-blank title is drawn as at least one and at most (spaces + 1) lines, and the drawn strings concatenate to the title plus a space |
| Layout.TitleAtMargin | script.js:69-85 | Every title line starts at the left margin, in the contrasting colour, in `<size>px Arial, sans-serif`, left-aligned with a middle baseline. When room is kept for the logo, the lines start right of the logo slot |
| Layout.TitleCentred | script.js:81-115 | The title's lines are text commands. The first and last baselines are symmetric about the canvas's mid-height (they sum to 300), and consecutive baselines are 1.2 × font size apart |
| Layout.FailedLogoTitleInLogoColumn | script.js:48-85 | With the logo shown but its global cleared by a failed load, the placeholder is drawn and every title line starts at an x strictly within the logo slot's horizontal span (20 < x < 100); nothing is claimed about the lines' heights |
| Layout.AssetPlacement | script.js:207-221 | Asset drawing stays inside the right-hand area. A photo fills the area from a centred crop with the area's proportions. A 3D asset is drawn whole, centred and undistorted. Any other type draws nothing |
| Layout.FirstFrame | script.js:264-287 | A first render with a title, white background and the logo still loading issues, in this order: a clear, the white fill, the three placeholder commands, then one to (spaces + 1) dark-grey title lines at x = 110 |
| Banner.BannerPage.constructor | script.js:20-54 | Page load leaves the default settings with the logo requested, with no asset (so the display-mode invariant holds). The first render has drawn exactly the frame of those settings on a fresh context |
| Banner.BannerPage.LogoLoaded | script.js:44-47 | A loaded logo becomes the drawn logo, and the banner is re-rendered with nothing else changed; the display-mode invariant is kept |
| Banner.BannerPage.LogoFailed | script.js:48-52 | A failed logo clears the logo global, and the banner is re-rendered with nothing else changed; the display-mode invariant is kept |
| Banner.BannerPage.SetBackgroundColor | script.js:56-59 | Only the background colour changes |
| Banner.BannerPage.ToggleLogo | script.js:128-131 | Only the logo flag changes |
| Banner.BannerPage.BackgroundColorChanged | script.js:342-347 | The colour is set, then the frame of the new settings is drawn; the display-mode invariant is kept |
| Banner.BannerPage.TitleInput | script.js:350-353 | The title is set, then the frame of the new settings is drawn; the display-mode invariant is kept |
| Banner.BannerPage.FontSizeInput | script.js:356-360 | The font size is set, unclamped, then the frame of the new settings is drawn; the display-mode invariant is kept |
| Banner.BannerPage.LogoToggled | script.js:363-366 | The logo flag is set, then the frame of the new settings is drawn; the display-mode invariant is kept |
| Banner.BannerPage.SelectAssetType | script.js:369-377 | The selected type always changes. A loaded asset takes the new type and the banner is re-rendered. Without an asset nothing is drawn. Afterwards the asset, if any, is in the selected display mode |
| Banner.BannerPage.LoadAndDrawAsset | script.js:167-205 | No file clears the asset and re-renders. A file refused by the type or size check changes nothing and reports the check's error. An unreadable or undecodable file changes nothing. A decoded image becomes the asset, with the type given and its natural size, and the banner is re-rendered |
| Banner.BannerPage.AssetChosen | script.js:380-383 | The upload handler behaves as loadAndDrawAsset with the currently selected type: no file clears the asset and re-renders; a type or size failure is reported as that error; each read outcome maps to its result; an accepted upload stores the decoded image with the selected type; refusals change nothing; the asset keeps the selected display mode |
| Banner.BannerPage.ClearAll | script.js:309-338 | Every setting returns to its initial value, the logo image is kept, and the canvas is cleared without a new render; the display-mode invariant holds afterwards |
| Banner.BannerPage.GenerateBanner | script.js:264-287 | Appends exactly the frame: clear, background, asset, logo, title, in that order; the context's attributes end as the layers leave them |
| Banner.BannerPage.DrawBackground | script.js:61-64 | One fill of the whole canvas in the background colour |
| Banner.BannerPage.DrawTitle | script.js:66-86 | Draws nothing for a blank title. Otherwise it sets the title font, alignment and contrasting colour, and draws the title layer |
| Banner.BannerPage.DrawTitleLines | script.js:70-85 | The non-blank half of drawTitle: sets the attributes, then draws the wrapped lines at the title's layout |
| Banner.BannerPage.DrawLogo | script.js:133-143 | Draws nothing when the logo is hidden, the image in its slot when loaded, and the placeholder otherwise |
| Banner.BannerPage.DrawPlaceholderLogo | script.js:145-165 | A light-grey square, its grey border and a centred "LOGO" label, in the logo slot |
| Banner.BannerPage.DrawAsset | script.js:207-221 | Draws the asset layer: a photo cropped, a 3D asset fitted, and nothing for no asset or any other type |
| Banner.BannerPage.DrawImageCropped | script.js:223-241 | One drawImage of the cover-fit source window stretched over the target |
| Banner.BannerPage.DrawImageFitted | script.js:243-262 | One drawImage of the whole image at its contain-fit rectangle |

## Left out

- The DOM wiring is left out:
  - `bindEventListeners` attaching the handlers (script.js:340-389) is not modelled; each handler is a method of `BannerPage`;
  - element lookups;
  - the preview overlay and the download button's state (script.js:280-284, 327-330);
  - the form reset in `clearAll`.
- `downloadBanner` (script.js:289-307) is left out: it encodes the canvas as a PNG and triggers a browser download. This is browser I/O with nothing to prove about the model's state.
- `showError`, `showSuccess` and `console` logging are left out. The user-visible messages are represented by the `UploadOutcome` a method returns.
- Asynchrony is left out. Reading a file and decoding an image are callbacks. They are modelled as the `ReadOutcome` parameter, which holds the result the callbacks would deliver. The logo's load and error callbacks are the methods `LogoLoaded` and `LogoFailed`. The model does not capture interleavings of a callback with other events; the effect of each event is captured.
- Rasterisation, anti-aliasing and the browser's double-precision arithmetic are left out. Coordinates are exact reals, and a render is the list of drawing commands with their attributes.
- `measureText` is left out as code. Text widths come from the `metrics` parameter, and every property holds for any metrics.
- `ctx.fontWeight = 'bold'` (script.js:71) is left out. It is not a canvas attribute and has no effect on drawing.
- Colour strings are compared as written. The browser's normalisation of `fillStyle` is left out, so only the exact string `#000000` selects white text, as in the code.
- Banner.BannerPage.FontSizeInput: a negative size is recorded as the font `Font(size, …)`, while the browser ignores the invalid CSS font `-5px Arial, sans-serif` (script.js:70) and keeps measuring and drawing in the previous font. This does not matter for the page, because the slider never yields a negative value.
- `parseInt` returning `NaN` is left out. The slider always yields an integer, and `FontSizeInput` takes an `int`.
- Images of width or height 0 are left out: the model's `Pixels` type is positive. In the source a zero width gives an aspect ratio of 0, a zero height gives Infinity, and 0 × 0 gives NaN; none of these cases arises in the model.
- Banner.BannerPage.DrawImageCropped: requires a positive target size, because the source's aspect ratio would otherwise divide by zero. The page only calls it with 450 × 300.
- Banner.BannerPage.DrawImageFitted: requires a positive target size, for the same reason and with the same call.
- `logoImage.src` assignment and fetching `assets/logo.png` are left out. The fetch's result arrives through `LogoLoaded` or `LogoFailed`.
- The display-mode invariant across an upload: the upload handler captures the selected type when the file is chosen (script.js:382), and the decoded image is stored with that type later (script.js:190-195). A type change in between (script.js:370-375) leaves the stored asset in the old mode, breaking the invariant that the asset shows the selected mode. The model treats each upload as completing within its event, so it does not capture this interleaving.
