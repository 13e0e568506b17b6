# The console's drawing canvas, its parsers and its small protocols, verified

This project models, in Dafny 4.11, the parts of the Moybyte console whose fast form has to
agree with a simple one, and proves that it does.

* **The canvas** (`device/device_canvas.py`). A cart's verbs draw into an RGB565 buffer.
  Sprites wait in a flat int16 queue and are drawn in runs; colours are read through tables
  kept composed as the palettes change; palette states have content-keyed ids, and sprite
  bakes are filed under them; a viewport moves the origin. `Drawing` says what each verb does
  when it is done at once, and `Canvas`, a class with the source's own fields, is proved to
  come to that over any run of calls (`Canvas.DeviceCanvas.Play`).
* **The bakes on loan** (`_BAKED`, `_OWNERS`, `moy_glass`). Off-heap rows lent to a lifetime,
  each held by one image, swept before anything reads them.
* **Sharding** (`tools/ci_shard.py`). Heaviest first onto the lightest shard, with Graham's
  4/3 - 1/(3n) bound.
* **Two parsers**. The WebAssembly head reader and import scan (`device/moycore_glue.py`) and
  the TOML-subset reader (`tools/board_config.py`), each against an encoder written here;
  `TomlFaults` says what the reader refuses, where it crashes and what it lets pass.
* **Four small protocols**: the bounded diagnostic ring, the update's verdict across reboots,
  a cart's frame on its way to the glass with patches over it, and reading a frame back to
  indices.

`Surface`, `Palette`, `Drawing` and `Shards`' upper half are the simple forms, and `Laws` says
what they come to, a pixel at a time and in plain arithmetic: which word an index shows after
each palette verb, which way a flip bit mirrors, which pixels a shape takes. `PaletteState`,
`SpriteImages`, `Canvas`, `Bakes.Register`, `Toml.Parser`, `DiagRing.Ring`,
`OtaHealth.SlotHealth`, `Present.CartFrame` and `Patches.PanelCanvas` are the source's classes,
updated in place, each method proved to leave exactly what the simple form says.

Run `dafny verify dfyconfig.toml`.

## What is trusted

* The kernels of `native/moy_gfx` and the pixel accelerator are given by what each pixel ends
  up holding: a clipped fill, a clipped keyed copy, a clipped whole-number scale, and a batch
  as its sprites one after another. The accelerator's bilinear scale is taken as exact.
* `native/moy_glass` is a table of rows with a role, an owner and a size, given back when the
  owner's lifetime ends. Whether memory is refused is a parameter of each request.
* The bootloader runs a fresh image once, and drops it for the other slot unless that boot
  confirmed it; the kernel activates a slot only from a confirmed image.
* `int`, `float`, `str.isalnum`, `str.strip` and the UTF-8 decoder are parameters of the
  parsers, with the few facts about them that reading needs.

## Where a promise needs a condition

The code's own comments or the plain reading promise more than the code does in these places.
The model keeps the code, shows an input that breaks the promise, and proves exactly when it
holds.

* A multi-line string that ends in an escaped quote does not read back
  (`tools/board_config.py:117-154`): `TomlText.MultiBasicReadsExactly`,
  `TomlText.QuoteAtTheEnd`.
* `reset_state` files the identity palette under id 0 whatever base table is in place
  (`device/device_canvas.py:851`), so ids stop telling palettes apart across a palette swap,
  and a sprite can be stamped in another palette's words: `PaletteIds.IdsTellPalettesExactly`
  and `PaletteIds.ForgetfulRun` of the ids, `SpriteCache.CachedStampsExactly` and
  `SpriteCache.ForgetfulStamp` of what is stamped.
* A visible colour that is the colour key is baked as another word
  (`device/device_canvas.py:2004-2007`): `Surface.StampingExactly`, `Surface.SeenKey`.
* `blit565`'s key is honoured by the kernel alone, and at scale 1 alone
  (`device/device_canvas.py:2297-2373`): `Blits.KeyedLanesAgreeExactly`, `Blits.KeyIgnored`.
* The queue's positions are clamped to int16 before the camera is taken off
  (`device/device_canvas.py:2128-2163`), so a camera past 32767 loses sprites:
  `Queue.CameraFitsExactly` by camera and clip, `Queue.ClampHarmlessExactly` by position,
  `Queue.FarCameraLosesSprites`.
* A fill pattern counts from the buffer's corner and not the viewport's:
  `Viewports.PatternFitsExactly`, `Viewports.PatternShifts`; a viewport at multiples of four
  takes every pattern (`Viewports.AlignedFits`).
* A pixel read outside the window sees the buffer: `Viewports.ReadsAgreeExactly`,
  `Viewports.ReadPastTheWindow`.
* A backdrop refused a bake of another size has already given the old one back, and its
  image still draws from it (`device/device_canvas.py:2375-2393`): `Bakes.NeverStaleExactly`
  over runs, `Bakes.SafeBackdropExactly` before the call, `Bakes.RefusedBackdropIsStale`.
* An install whose marker cannot be opened leaves an older one to speak for it
  (`device/moy_ota.py:291-322`): `OtaHealth.VerdictsTrueExactly` over runs,
  `OtaHealth.UnopenedExactly` before the call, `OtaHealth.UnarmedInstallMisreads`.
* A confirm whose mark is refused still retires the marker
  (`device/moy_ota_health.py:136-152`): `OtaHealth.RefusedMarkExactly`,
  `OtaHealth.RefusedMarkIsSilent`.

## Model

| member | source | states |
|---|---|---|
| Canvas.DeviceCanvas.Play | device/device_canvas.py:822-890 | For any run of sprite, image, shape, pixel, camera, clip, palette, pattern, viewport and reset verbs, the buffer after a last flush and every pixel read on the way are those of drawing each thing at once; the queue ends empty |
| Canvas.DeviceCanvas.Call | device/device_canvas.py:865-890 | Any one verb takes the frame its caller sees to the frame the simple form draws, and every image's bakes stay good |
| Canvas.DeviceCanvas.FlushBatch | device/device_canvas.py:2187-2232 | Draining draws exactly what was queued: the frame seen does not change, the queue is empty and the buffer is the frame seen |
| Canvas.DeviceCanvas.BeginBatch | device/device_canvas.py:2114-2126 | A new sheet, key, scale or writer drains first and then owns the queue; the frame seen does not change |
| Canvas.DeviceCanvas.Push | device/device_canvas.py:2159-2163 | Four numbers written past the queue's end are one sprite more seen, over all before it, and nothing drawn yet |
| Canvas.DeviceCanvas.Enqueue | device/device_canvas.py:2146-2163 | A sprite put on a standing run as int16 words is seen as drawn last, where the clamp is harmless |
| Canvas.DeviceCanvas.SprTile | device/device_canvas.py:2128-2163 | A tile drawn through the queue is seen as drawn at once, for every position the clamp does not move on the surface |
| Canvas.DeviceCanvas.SprGate | device/device_canvas.py:2165-2185 | A second, token-tagged writer interleaves with the first, each sprite seen in the order called |
| Canvas.DeviceCanvas.FillRect | device/device_canvas.py:1242-1288 | A rectangle under camera, clip and viewport fills just the pixels of the surface it covers, over everything queued before it |
| Canvas.DeviceCanvas.Rect | device/device_canvas.py:1353-1362 | A rectangle, patterned when a pattern is set, as the simple form draws it |
| Canvas.DeviceCanvas.Rectb | device/device_canvas.py:1364-1376 | Four sides drawn in turn are the outline |
| Canvas.DeviceCanvas.Pset | device/device_canvas.py:1313-1338 | A pixel write inside the clip, after what is queued |
| Canvas.DeviceCanvas.Pget | device/device_canvas.py:1313-1338 | A pixel read sees what is queued, and answers the index of the word there |
| Canvas.DeviceCanvas.Cls | device/device_canvas.py:1290-1311 | Clearing takes the whole surface, camera and clip aside, and no other pixel of the buffer |
| Canvas.DeviceCanvas.Image | device/device_canvas.py:1911-1958 | A sprite stamped from the bake the image keeps is the sprite drawn directly |
| Canvas.DeviceCanvas.Camera | device/device_canvas.py:865-873 | What is queued is drawn under the camera it was queued under; the previous camera is answered |
| Canvas.DeviceCanvas.Clip | device/device_canvas.py:875-890 | The clip is cut to the surface, and what is queued keeps the old one |
| Canvas.DeviceCanvas.Remap | device/device_canvas.py:938-1050 | A palette verb changes only what is drawn after it |
| Canvas.DeviceCanvas.Fillp | device/device_canvas.py:1799-1823 | A pattern drains nothing and changes no queued sprite |
| Canvas.DeviceCanvas.Viewport | device/device_canvas.py:1052-1083 | The window moves and the state resets, what was queued drawn under the old one |
| Canvas.DeviceCanvas.ResetState | device/device_canvas.py:822-863 | Camera, clip, pattern and every table go back to a fresh canvas's, the pixels seen kept |
| Laws.PalShows | device/device_canvas.py:938-1003 | After pal(a, b) index a shows the word colour b has, under the screen palette and over the base; every other index shows what it did |
| Laws.ScreenShows | device/device_canvas.py:938-1003 | After pal(a, b, 1) colour a has the base's word b, through whichever indices show it, and no other changes |
| Laws.PaltShows | device/device_canvas.py:1014-1050 | palt(c, on) leaves index c undrawn or draws it; the words and the other indices stay |
| Laws.ResetsShow | device/device_canvas.py:822-863 | pal() gives each index its own base word, palt() draws every index, and a reset does both |
| Laws.SwapShows | device/device_canvas.py:1178-1221 | A cart's table: every index shows, of it, the word it showed of the last; a table of another length changes nothing |
| Laws.PalKept | device/device_canvas.py:938-1003 | The gate words a canvas keeps are those, after pal(a, b) |
| Laws.SpritePixelIs | device/device_canvas.py:1993-2007 | Unflipped, a pixel shows the sprite's index at ((x-px)/scale, (y-py)/scale) through the table, and is left alone exactly for the clear index, a negative one, one left undrawn, and outside the clip or the sprite |
| Laws.FlipsAre | device/device_canvas.py:1993-2007 | Flip 1 draws the sprite with its rows reversed, 2 with its rows in reverse order, 3 both; no other bit counts |
| Laws.ImageDraws | device/device_canvas.py:1911-1958 | An image is its sprite at the camera, at no less than scale one |
| Laws.TilesAreTheSheet | device/device_canvas.py:2128-2163 | The tiles are the sheet's pixels, sixteen to a row, eight pixels square, numbered along the rows |
| Laws.TileDraws | device/device_canvas.py:2128-2163 | A tile drawn is that sprite at the camera; an id the sheet does not hold draws nothing |
| Laws.HolesAre | device/device_canvas.py:1799-1838 | A pattern's holes are where its sixteen bits say, row by row from the top left, repeated over the buffer |
| Laws.RectPixel | device/device_canvas.py:1242-1288 | A rectangle takes exactly the pixels in the clip whose place under the camera is in it, each its colour, or in a hole the second colour or nothing |
| Laws.RectbPixel | device/device_canvas.py:1364-1376 | An outline takes those on its first and last rows and columns |
| Laws.PsetPixel | device/device_canvas.py:1313-1338 | A pixel write takes the one pixel, if the clip has it, whatever the pattern |
| Laws.PgetReads | device/device_canvas.py:1313-1338 | A pixel read answers the lowest index whose stock word is there, and 0 for a word of none or off the buffer |
| Laws.ClsPixel | device/device_canvas.py:1290-1311 | A clear takes exactly the surface, whatever the camera, the clip and the pattern |
| Laws.CameraIs | device/device_canvas.py:865-873 | What is drawn at the camera's position comes at the surface's corner; nothing else changes |
| Laws.ClipIs | device/device_canvas.py:875-890 | The clip is the rectangle's pixels counted from the surface's corner and on the surface, or all of it |
| Laws.FillpIs | device/device_canvas.py:1799-1823 | fillp keeps sixteen bits and a colour of sixty-four, or none; without arguments there are no holes |
| Laws.ResetIs | device/device_canvas.py:822-863 | reset_state leaves the corner the origin, the whole surface the clip, no pattern and every index its base word and drawn; pixels and surface stay |
| Laws.ViewportIs | device/device_canvas.py:1052-1083 | The surface becomes the w by h pixels from (x, y), cut to the buffer, and the state resets |
| Queue.QueuedAsDrawn | device/device_canvas.py:2128-2163 | A sprite in its stored form (int16 position, two flip bits) draws what it would have drawn at once |
| Queue.ClampHarmlessExactly | device/device_canvas.py:2128-2163 | The int16 clamp changes no picture if and only if every pixel on show falls in the same texel from either position |
| Queue.CameraFitsExactly | device/device_canvas.py:2128-2163 | No position is ever drawn otherwise for its clamp if and only if what camera and clip put on show lies inside int16, a sprite's span in from its low end, or nothing is on show |
| Queue.FarCameraLosesSprites | device/device_canvas.py:2128-2163 | A camera at 40000 loses a sprite drawn under it |
| Queue.OneMoreQuad | device/device_canvas.py:2138-2163 | Four numbers more in the flat array are one sprite more, drawn last; the index stays 4 mod 4 and within 2052 |
| Queue.DrainedRun | device/device_canvas.py:2187-2232 | The batch kernel over the flat array draws the queued sprites one after another |
| Surface.StampingDraws | device/device_canvas.py:1911-2032 | Stamping a keyed bake leaves just the pixels that scaling, flipping, recolouring and skipping clear texels directly would, but for a table entry that is the key |
| Surface.StampingExactly | device/device_canvas.py:1975-2032 | Stamping draws every sprite at every place as drawing it directly would if and only if each table entry that is the key is transparent |
| Surface.SeenKey | device/device_canvas.py:2004-2007 | A dot in an entry that is 0xF81F and shows is stamped as 0xF83F |
| SpriteCache.CachedStampsExactly | device/device_canvas.py:1911-2032 | Over any run of palette verbs, swaps included, every stamp of every sprite at any scale, flip and place among them, across the six-variant drop and the forgetting of ids, draws what drawing it directly would if and only if no dirty reset came while a base other than the stock table was in place and no entry that was the key was shown |
| SpriteCache.KeylessStampsExactly | device/device_canvas.py:1911-2032 | Where no table holds the key, if and only if no such reset came |
| SpriteCache.CachedSpriteDrawsDirect | device/device_canvas.py:1911-2032 | After one such run the next stamp draws directly, wherever it is put |
| SpriteCache.ForgetfulStamp | device/device_canvas.py:822-863 | A dot stamped, a cart palette, a remap and a reset, and the dot again: still the stock palette's word |
| SpriteCache.BuffersAreAccounted | device/device_canvas.py:1960-2032 | After any run, palette swaps included, the live off-heap buffers are exactly the variants', each held once, and each dropped one was freed once |
| SpriteCache.ReadyIsCurrent | device/device_canvas.py:1911-1973 | The bake made ready (hot, filed or new) is the one the current palette makes |
| SpriteImages.BakePixels | device/device_canvas.py:1975-2032 | The baking loop leaves at every pixel its texel's colour, scaled and flipped, or the key where it is clear |
| SpriteImages.SpriteImage.MakeReady | device/device_canvas.py:1911-1973 | The image's two cache levels, updated in place, answer the bake for this scale, flip and palette id, and account for every buffer |
| SpriteImages.SpriteImage.Keep | device/device_canvas.py:2008-2032 | A seventh variant drops the six, freeing each of their buffers, before it is filed |
| SpriteImages.SpriteImage.DropVariants | device/device_canvas.py:2021-2030 | Every filed buffer is freed and none other |
| Palette.StepKeeps | device/device_canvas.py:938-1050 | Every palette verb, swaps included, keeps the wire table composed of base and screen, the gate table of wire and draw palette, and the change counts and the single changed entry right; and resolves as four plain tables composed at each use |
| Palette.RecountCounts | device/device_canvas.py:938-1003 | One entry written, the counts still say how many differ from the identity and which when it is one |
| Palette.WirePalKeeps | device/device_canvas.py:1587-1600 | Reading the composed table changes nothing a colour resolves to |
| PaletteIds.KeyDecodes | device/device_canvas.py:892-936 | A palette key, small or long, determines the three tables, and there is none exactly for the identity |
| PaletteIds.IdsNeverAlias | device/device_canvas.py:892-936 | Over any run, two moments with equal ids have equal draw, transparency and screen tables, across the learned table's clearing |
| PaletteIds.ZeroIsIdentity | device/device_canvas.py:892-936 | With no palette swapped in, id 0 is the identity state and nothing else |
| PaletteIds.LearnedBounded | device/device_canvas.py:892-936 | Whatever a session draws with, no more than sixty-five states are ever learned at once |
| PaletteIds.EpochIsZero | device/device_canvas.py:1178-1221 | Over a run with no swap the epoch stays 0 and the base the stock table |
| PaletteIds.IdsTellPalettesExactly | device/device_canvas.py:822-863 | Across swaps, equal ids mean equal tables, base included, if and only if no dirty reset came while another base than the stock one was in place |
| PaletteIds.ForgetfulRun | device/device_canvas.py:822-863 | A cart palette, a remap and a reset: a run whose ids alias |
| PaletteIds.WirePalIsCurrent | device/device_canvas.py:1587-1600 | After any run, swaps and resets included, the composed table read is the current composition |
| PaletteState.Tables.PalStateId | device/device_canvas.py:892-936 | The id of the tables as they stand, learned if new, the learned table cleared past 64 |
| PaletteState.Tables.Pal | device/device_canvas.py:938-1003 | One draw-palette entry, its gate word, the counts, the id, all as the composed form says |
| PaletteState.Tables.Screen | device/device_canvas.py:938-1003 | A screen entry goes into a private wire table, made on first use, and every gate word through it follows |
| PaletteState.Tables.Palt | device/device_canvas.py:1014-1050 | One transparency entry, the counts and the id |
| PaletteState.Tables.Reset | device/device_canvas.py:822-863 | The tables go back in place, and only when something is dirty; the shared stock table is never written |
| PaletteState.Tables.SetPalette | device/device_canvas.py:1178-1221 | A cart's table becomes the base, the screen palette folded over it again, under a new epoch |
| PaletteState.Tables.WirePal | device/device_canvas.py:1587-1600 | The cached composition, rebuilt only when the id moved, is the current one |
| Viewports.ViewportIsACanvas | device/device_canvas.py:1052-1083 | Under set_viewport any run of drawing, camera, clip, palette and reset verbs leaves the buffer as the same run on a canvas of the window's size, pasted at its corner, and no pixel outside changes |
| Viewports.RunMirrors | device/device_canvas.py:1242-1376 | From any moment at which a window mirrors a canvas of its own, every run keeps it so |
| Viewports.EntersViewport | device/device_canvas.py:1052-1070 | set_viewport draws nothing and leaves the window mirroring a canvas cropped from it |
| Viewports.RunReadsAlike | device/device_canvas.py:1313-1338 | A run whose reads keep to the window answers as the window's own canvas |
| Viewports.ReadsAgreeExactly | device/device_canvas.py:1313-1338 | A read answers as the window's own canvas would, whatever the buffer holds, if and only if it is in the window or off the buffer, a table of one word aside |
| Viewports.ReadPastTheWindow | device/device_canvas.py:1313-1338 | A read one pixel past the window that answers the buffer's word and not 0 |
| Viewports.PatternFitsExactly | device/device_canvas.py:1799-1838 | A pattern comes out as on the window's own canvas if and only if it looks the same from the window's corner |
| Viewports.PatternShifts | device/device_canvas.py:1799-1838 | One hole in sixteen, one pixel in, comes out otherwise |
| Viewports.AlignedFits | device/device_canvas.py:1799-1838 | At multiples of four every pattern fits |
| Bakes.RunsStayValid | device/device_canvas.py:99-251 | Over any interleaving of bakes, re-bakes, strokes, releases, ended lifetimes and new ones under the same tag: an image is listed exactly while it holds a bake, no two hold one row, no bake row is without a holder, no lifetime has more than four, and none draws from a row that is gone |
| Bakes.NoImageStale | device/device_canvas.py:2034-2045 | So no image is ever read through a dead row's view |
| Bakes.NeverStaleExactly | device/device_canvas.py:99-251 | No moment of a run leaves an image drawing from a row that has gone if and only if no backdrop of it was refused a bake of another size |
| Bakes.SafeBackdropExactly | device/device_canvas.py:2375-2393 | A backdrop is safe however its request is answered if and only if it does not resize a bake its image draws from |
| Bakes.StepExactly | device/device_canvas.py:170-251 | Each operation keeps the register right, and leaves a stale view if and only if it is a backdrop refused a bake of another size |
| Bakes.RefusedBackdropIsStale | device/device_canvas.py:2375-2393 | A run that leaves one |
| Bakes.AskedSound | device/device_canvas.py:170-227 | A request is lent a row, when it is big enough, if and only if its lifetime has fewer than four other bakes; no other image is touched |
| Bakes.AskedIs | device/device_canvas.py:170-227 | A request too small or of no lifetime's leaves the register alone; a bake of its size is used again; any other goes back and at most one row is new; no buffer is answered exactly where memory is needed and refused |
| Bakes.DrawsFromAnswer | device/device_canvas.py:2375-2393 | The image then draws from what was answered, and from what it did where nothing was; a draw asks only when there is nothing to draw from |
| Bakes.ReleasedEnds | device/device_canvas.py:246-251 | A release ends exactly that lifetime's bakes, and every view of them |
| Bakes.DoneEnds | device/device_canvas.py:119-151 | A lifetime's end takes its rows and its tag, and leaves every other image as it was |
| Bakes.SweepKeeps | device/device_canvas.py:229-243 | A sweep alone makes the books right after rows have gone |
| Bakes.Register.SweepBakes | device/device_canvas.py:229-243 | The in-place compaction of the list is that sweep |
| Bakes.Register.ReleaseBakes | device/device_canvas.py:246-251 | The list and the rows after a release |
| Bakes.Register.OwnerDone | device/device_canvas.py:119-151 | The list, the rows and the tags after a lifetime ends |
| Bakes.Register.PaintBakeBuf | device/device_canvas.py:170-227 | The old bake given back or kept, the lifetime's loans counted, a row granted or memory found elsewhere |
| Bakes.Register.BakeIndices | device/device_canvas.py:2034-2045 | A re-bake draws into a bake of its own or not at all |
| Bakes.Register.BackdropInto | device/device_canvas.py:2375-2393 | A backdrop's bake, and exactly when it loses its image's view |
| Blits.Blit565 | device/device_canvas.py:2297-2373 | Whichever lane it takes, every pixel inside the clip takes source pixel ((ty-y)/scale, (tx-x)/scale) and no other changes, but that at scale 1 the kernel leaves the words equal to the key out |
| Blits.KeyedLanesAgreeExactly | device/device_canvas.py:2316-2373 | At scale 1 the kernel's lane and Python's leave the same picture if and only if no key word is on show over another |
| Blits.KeyIgnored | device/device_canvas.py:2357-2373 | A keyed dot that only the kernel leaves out |
| Blits.KernelLane | device/device_canvas.py:2321-2356 | The band in one kernel call and the cut rows one by one cover each row once between them |
| Blits.BandIsWholeRows | device/device_canvas.py:2325-2335 | The rows given to the kernel are exactly those wholly inside the clip |
| Blits.PlainLane | device/device_canvas.py:2357-2373 | The Python rows, widened and spliced, leave the same pixels |
| Blits.UnscaledIsCopied | device/device_canvas.py:2316-2320 | At scale 1 the formula is the plain copy |
| Blits.PlacedIs | device/device_canvas.py:2297-2373 | A pixel of a picture placed is the word its offset over the scale names, inside the clip and the picture, and no other changes |
| Blits.CentreInRange | device/device_canvas.py:2906-2925 | At any target size every pixel samples inside the source |
| Blits.CentreIs | device/device_canvas.py:2906-2925 | The source coordinate sampled is the one whose span, of n over t targets, the target's middle lies in |
| Blits.SizedIs | device/device_canvas.py:2906-2925 | A pixel of a picture placed at a size is the word whose spans across and down its middle lies in |
| Blits.SizesAgree | device/device_canvas.py:2906-2925 | At k times the source's size, placing at a size is placing at scale k |
| Blits.ResizePlain | device/device_canvas.py:2906-2925 | The resizing loop leaves exactly the sampled pixels inside the clip |
| Indices.ToIndices | device/device_canvas.py:330-397 | A strict read answers if and only if every word has an index, else names the first that has none; a lax one reads those as 0 |
| Indices.WordIs | device/device_canvas.py:346-397 | A pixel's word is its two bytes, low byte first |
| Indices.ReverseOf | device/device_canvas.py:358-374 | The table built backwards sends each word to its lowest index, the wire table's before the block's |
| Indices.IndexDraws | device/device_canvas.py:330-397 | A read index draws the word it came from, is the lowest that does, and is the block's only for words the table lacks |
| Indices.TableInverts | device/device_canvas.py:330-397 | Reading inverts drawing for every index if and only if no word is in the table twice |
| Indices.BlockInverts | device/device_canvas.py:330-397 | And for the block if and only if it repeats neither itself nor the table |
| Indices.FrameReadsBack | device/device_canvas.py:330-397 | A whole frame drawn in table indices reads back as those indices |
| Shards.NearOptimal | tools/ci_shard.py:52-63 | Against every assignment of the same files to n shards, no greedy shard exceeds (4/3 - 1/(3n)) of its longest |
| Shards.SuiteNearOptimal | tools/ci_shard.py:52-63 | No shard's files take, by the recorded seconds and the median for the rest, more than 4/3 - 1/(3n) of the longest of any way of dealing the same files out to n shards |
| Shards.LastPlacedRung | tools/ci_shard.py:59-62 | The shard the last file lands in holds at most sum/n + (1 - 1/n) of that file |
| Shards.BalancedToOneFile | tools/ci_shard.py:59-62 | No shard is ahead of another by more than the heaviest file |
| Shards.ShardsPartition | tools/ci_shard.py:52-63 | Every file lands in exactly one shard, as often as it was named |
| Shards.LoadsConserveWeight | tools/ci_shard.py:59-62 | The loads sum to the weights |
| Shards.OrderDescends | tools/ci_shard.py:56-59 | The order placed is a permutation of the files, and the weights taken in that order never rise |
| Shards.OrderIs | tools/ci_shard.py:56-59 | Of two files placed, the first has the more recorded seconds, the median where it has none, or as many and the lesser name |
| Shards.DefaultIsMedian | tools/ci_shard.py:56-57 | A file with none recorded takes the middle of those recorded in order, the mean of the middle two, or one second where there are none |
| Shards.LoadIsTotal | tools/ci_shard.py:59-62 | A shard's load is the recorded seconds of its files, and the default of those without |
| Shards.TenthIs | tools/ci_shard.py:52-63 | Seconds are reported to the nearest tenth, of two as near the even one |
| Sorting.StringLeIs | tools/ci_shard.py:59-63 | Names are in the order of their first difference, or the prefix first |
| Shards.Shards | tools/ci_shard.py:52-63 | The shards answered hold every file once, in name order; each reports, within a twentieth of a second, the recorded seconds of its files and the median for the rest, and none more than 4/3 - 1/(3n) of the longest of any other dealing; they are the greedy assignment of the files in placing order |
| Wasm.ScanIsRight | device/moycore_glue.py:683-734 | Of every encoded module, the scan answers the first occurrences, in order, of the "moy" functions imported and not in the table |
| Wasm.HeadIsEnough | device/moycore_glue.py:629-660 | And answers the same of the module's head alone |
| Wasm.HeadAnswers | device/moycore_glue.py:629-734 | On any bytes whose import section, if the scan comes to one, holds the imports it counts, the head answers as the whole file does |
| Wasm.HeadIsModule | device/moycore_glue.py:629-660 | The head of an encoded module is a module, cut only after its imports |
| Wasm.ShortAnswersLess | device/moycore_glue.py:683-734 | On any bytes, cutting them short only cuts the answer short |
| Wasm.WasmHead | device/moycore_glue.py:629-660 | On any file the reader ends, with a prefix of it, as long as its sections lead |
| Wasm.MissingImports | device/moycore_glue.py:683-734 | On any bytes the scanner ends without an error, with what it read before the fault |
| Wasm.ReadUleb | device/moycore_glue.py:662-672 | The shifting loop reads the value and where it ends |
| Wasm.UlebAt | device/moycore_glue.py:662-672 | An encoded integer, of any width, reads back |
| Wasm.EntryAt | device/moycore_glue.py:709-731 | An encoded import of any kind reads back, and the next begins where it ends |
| Wasm.NamesSpelt | device/moycore_glue.py:629-734 | The module imported from is spelt "moy" and a file starts with a zero byte and "asm" |
| Toml.Parser.ReadValue | tools/board_config.py:171-197 | The cursor's value, its error or its new place are those of the text from the cursor on |
| Toml.Parser.ReadString | tools/board_config.py:117-154 | The same for a string in any of its four forms |
| Toml.Parser.ReadDocument | tools/board_config.py:199-223 | The loop over statements ends on any text, with the document its statements make or the first fault |
| Toml.UnescapeText | tools/board_config.py:238-257 | The unescaping loop, character by character, on any string |
| Toml.CommentSkipped | tools/board_config.py:79-92 | A hash and anything at all after it on its line is skipped, up to the newline or the end of the text |
| Toml.SkipIs | tools/board_config.py:79-92 | Spaces, tabs and carriage returns are skipped, newlines where they may be, comments from a hash, and nothing else |
| Toml.EscapesMean | tools/board_config.py:235-257 | The five escapes, and a backslash before anything else, or last, standing for itself |
| Toml.ContinuationMeans | tools/board_config.py:247-251 | A backslash at the end of a line takes the newline and all the whitespace after it away |
| TomlDocs.LoadsUndoes | tools/board_config.py:199-262 | A document of tables, arrays of tables and nested values, written with any string forms, comments and whitespace, reads back as itself |
| TomlRender.RenderReads | tools/board_config.py:199-262 | Every document of distinct legal keys and arrays, strings, booleans and integers that int reads, written a line to a statement by the renderer here, reads back as itself |
| TomlRender.NotedReads | tools/board_config.py:79-223 | And with any comment of one line before it and after every line |
| TomlRender.LinesReadBack | tools/board_config.py:79-223 | And with any blanks and comments before it, and any ending its lines |
| TomlDocs.TreeApplies | tools/board_config.py:199-236 | A table's statements, applied in order, build the table where its path leads and nothing elsewhere |
| TomlDocs.PutGet | tools/board_config.py:225-236 | What is put at a path is what is found there |
| TomlText.LinesRead | tools/board_config.py:199-223 | Reading any written text does what its statements do in turn, or fails where one of them does |
| TomlText.LinesLeadTo | tools/board_config.py:199-223 | Statements with anything after them are done in turn, and reading goes on from there, unless one of them fails |
| TomlFaults.FaultEnds | tools/board_config.py:199-223 | A document fails as its first bad statement does, whatever stands after that |
| TomlFaults.KeyRefused | tools/board_config.py:99-106 | A statement that starts with neither a bracket nor a character of a key is refused |
| TomlFaults.NoEquals | tools/board_config.py:219-223 | So is a key with no equals sign on its line |
| TomlFaults.HeaderUnended | tools/board_config.py:214-217 | A header whose path no bracket ends |
| TomlFaults.ElementUnended | tools/board_config.py:208-213 | An element's header no two brackets end |
| TomlFaults.PairFails | tools/board_config.py:219-223 | A pair fails as its value does |
| TomlFaults.NothingCrashes | tools/board_config.py:171-173 | No value at all, blanks or a last comment aside, is a crash and not a refusal |
| TomlFaults.LiteralUnended | tools/board_config.py:136-154 | A single-quoted string its line or the text ends first is refused, whatever comes after |
| TomlFaults.BasicUnended | tools/board_config.py:136-154 | A double-quoted one likewise, a last backslash taking nothing with it |
| TomlFaults.MultiUnended | tools/board_config.py:117-135 | A multi-line one with no three quotes anywhere after its first |
| TomlFaults.FindIs | tools/board_config.py:117-135 | What ends a multi-line string is the first three quotes there are |
| TomlFaults.NumberAnswers | tools/board_config.py:185-197 | Any other value is the text before a comma, bracket, newline or hash, spaces around it aside: an integer if int takes it, else a float if float does, else refused |
| TomlFaults.ArrayUnended | tools/board_config.py:156-169 | An array the text ends first is refused |
| TomlFaults.ElementFails | tools/board_config.py:156-169 | An array fails as an element does |
| TomlFaults.CommaOptional | tools/board_config.py:156-169 | The comma after an element may be missing |
| TomlFaults.DescendsExactly | tools/board_config.py:225-232 | A header's path is refused if and only if it stops at what is no table or at an empty list; else what was there is there yet, or an empty table is |
| TomlFaults.HeaderApplies | tools/board_config.py:214-217 | A header fails exactly there, and else keys go into what its path leads to |
| TomlFaults.PairApplies | tools/board_config.py:218-223 | A pair fails exactly where keys go into no table; a key given again takes its last value |
| TomlFaults.ElementApplies | tools/board_config.py:207-213 | An element fails exactly where its path does or its name is taken by what is no list; else one empty table more ends the list there, and keys go into it |
| TomlText.ValueReads | tools/board_config.py:156-197 | A written value, nested arrays included, reads back and leaves the rest |
| TomlText.StringReads | tools/board_config.py:117-154 | Scanning and unescaping together undo quoting and escaping |
| TomlText.MultiBasicReadsExactly | tools/board_config.py:117-154 | A multi-line string reads back if and only if it does not end in a quote |
| TomlText.QuoteAtTheEnd | tools/board_config.py:117-154 | A lone quote, which does not |
| TomlText.UnescapeUndoes | tools/board_config.py:238-257 | Unescaping undoes escaping, line breaks escaped or raw |
| DiagRing.KeptIsLongest | device/moybyte_diag.py:122-133 | What the ring keeps is the longest end of everything logged that fits both bounds, or the last line alone |
| DiagRing.KeptGrows | device/moybyte_diag.py:115-133 | Trimming as lines come keeps what trimming the whole log would |
| DiagRing.TotalIsText | device/moybyte_diag.py:135-151 | The bytes counted are the rendered text's length and one |
| DiagRing.Size | device/moybyte_diag.py:153-165 | A line's cost counted without formatting is the formatted line's, for any stamp, negatives included |
| DiagRing.FormatLineIs | device/moybyte_diag.py:168-183 | A line is its stamp, tag and message with a space between, and where a newline is in it every newline and carriage return is a space |
| DiagRing.SplitUndoesJoin | device/moybyte_diag.py:143-146 | The text cut at its newlines is the lines kept, in order |
| Decimals.DecimalStands | device/moybyte_diag.py:168-183 | A stamp is written with the digits that stand for it, after a minus where it is negative |
| DiagRing.Ring.Add | device/moybyte_diag.py:111-113 | One line more, and still the longest affordable end |
| DiagRing.Ring.Trim | device/moybyte_diag.py:122-133 | The loop drops exactly to that end and keeps the count |
| DiagRing.Ring.Text | device/moybyte_diag.py:143-146 | The text is that end's lines, and the count is its length and one |
| OtaHealth.VerdictsTrueExactly | device/moy_ota_health.py:171-204 | Over any run, every next boot tells the truth (took exactly when the armed image runs, rolled back exactly when it was given up for a confirmed one) if and only if no install went ahead with its marker not opened and an older one standing |
| OtaHealth.UnopenedExactly | device/moy_ota.py:291-322 | From a truthful board, an install that cannot open its marker leaves the next boot truthful if and only if no marker stands |
| OtaHealth.VerdictIsTrue | device/moy_ota_health.py:171-204 | So after a run without such an install the next boot's verdict is true, torn markers and refused marks or not |
| OtaHealth.NoUnconfirmedTwice | device/moy_ota_health.py:94-152 | No image runs two boots in a row unconfirmed |
| OtaHealth.OnlyAConfirmRetires | device/moy_ota_health.py:136-169 | Only a confirm that goes through to the store retires the marker; an install alone can replace it, or leave one that does not read |
| OtaHealth.KernelConfirmRetires | device/moy_ota_health.py:94-104 | The kernel's confirm, the first of its boot, removes the marker that boot saw, or leaves it where the store refuses; the image is booted again, confirmed |
| OtaHealth.KernelConfirmEndsIt | device/moy_ota_health.py:94-104 | From there no later boot has a verdict until another install |
| OtaHealth.UnstoredConfirmRepeats | device/moy_ota_health.py:157-169 | Where the store refused, the update is announced again, however many boots later |
| OtaHealth.ServingConfirmRetires | device/moy_ota_health.py:136-152 | The serving confirm does the same, on the poll that fires and marks |
| OtaHealth.InstallIsTried | device/moy_ota.py:400-408 | From a confirmed image an install's is booted next, in the other slot and on trial, and unconfirmed the boot after is the old one's; the marker names it, stands as it was where it does not open, or reads as none where it is cut short |
| OtaHealth.UnreadMarkerStands | device/moy_ota_health.py:61-67 | A marker that no boot has read is retired by none, however they confirm |
| OtaHealth.UpdateIsAnnouncedOnce | device/moy_ota_health.py:171-204 | An update installed, booted, shown and booted again is announced by the first of those boots alone |
| OtaHealth.RolledBackUntilConfirmed | device/moy_ota_health.py:171-204 | A dropped install is reported by every boot until a confirm or another install |
| OtaHealth.ConfirmedExactlyWhenServed | device/moy_ota_health.py:106-134 | Over any trace of polls, however the mark and the store answer, the boot is confirmed by the end if and only if some 300 in a row served, and until then nothing else changes |
| OtaHealth.FiresAtTheFirst | device/moy_ota_health.py:106-134 | It fires once, on the first poll that makes the streak 300 |
| OtaHealth.ThreeHundredServe | device/moy_ota_health.py:106-134 | Of polls that all serve, three hundred confirm and no fewer |
| OtaHealth.FiredStands | device/moy_ota_health.py:106-152 | What that one poll marked and stored stands, whatever is polled after |
| OtaHealth.ServedMeans | device/moy_ota_health.py:106-134 | That the trace holds such a streak is that some 300 consecutive polls all served |
| OtaHealth.RefusedMarkExactly | device/moy_ota_health.py:136-152 | The rollback of a trial image whose marker was seen is reported by the next boot if and only if the poll that fired marked the image or could not retire the marker |
| OtaHealth.RefusedMarkIsSilent | device/moy_ota_health.py:136-152 | A refused mark retires the marker, and the rollback that follows is reported by no boot until another install |
| OtaHealth.UnarmedInstallMisreads | device/moy_ota.py:291-322 | A run in which an install without its marker, after one rolled back, reads as the older having taken |
| OtaHealth.SlotHealth.ConfirmWhenServing | device/moy_ota_health.py:106-152 | One poll of the streak, the mark and the marker, in place |
| OtaHealth.SlotHealth.BootCheck | device/moy_ota_health.py:171-204 | One boot's verdict and what it remembers |
| OtaHealth.SlotHealth.ConfirmedByKernel | device/moy_ota_health.py:94-104 | The kernel's confirm: once a boot, the marker this boot saw removed from the store or, where it refuses, left |
| OtaHealth.SlotHealth.ArmPending | device/moy_ota.py:291-322 | The marker written whole, left as it was where its file does not open, or left unreadable where the write is cut short |
| OtaHealth.SlotHealth.Finish | device/moy_ota.py:400-408 | The slot made the next boot's, and the marker armed whichever of the three ways it goes |
| Present.CartFrame.Settle | device/moycore_glue.py:815-840 | The canvas ends with the frame everywhere but under the rects, which keep their pixels, overlapping or off the edge as they may be |
| Present.CartFrame.PutBy | device/moycore_glue.py:827-836 | The rows kept hold exactly the canvas's pixels under the rects |
| Present.CartFrame.Patch | device/moycore_glue.py:842-855 | One rect more, or none and False past four |
| Present.PutBackSettles | device/moycore_glue.py:837-840 | The frame with what was kept put back is the settled picture |
| Present.InsideIs | device/moycore_glue.py:827-836 | A rect holds the w by h pixels from its corner, and its part of an area those of both |
| Patches.AllShown | device/p4_canvas.py:430-594 | The frame's view scaled, then each clipped patch over it, leaves the glass as one composite of the settled picture |
| Patches.PatchShown | device/p4_canvas.py:577-582 | One patch more shows the canvas exactly where its rect covers the view, whatever lies under it |
| Patches.SideOf | device/p4_canvas.py:566-575 | A glass pixel falls in a patch's image exactly when the picture's pixel it shows is in the rect, and then on that pixel |
| Patches.ScaledIs | device/p4_canvas.py:509-523 | A glass pixel takes the block's word its offset over the scale names, where that is in the block, and no other changes |
| Patches.BlocksCover | device/p4_canvas.py:543-558 | The parts recorded cover, within the view, what the rects do |
| Patches.PackedApart | device/p4_canvas.py:559-566 | Patches packed down the picture keep apart, each ending before the next begins |
| Patches.TooManyStays | device/p4_canvas.py:559-564 | A rect refused for want of rows means all of them together need more rows than there are |
| Patches.CompositeCovers | device/p4_canvas.py:496-523 | A composite over a half-shown view leaves no trace of it |
| Patches.PanelCanvas.RecordPatches | device/p4_canvas.py:525-575 | -1 exactly when the parts in view need more rows than the picture has or cannot be copied, else the blocks, where they land, and their pixels |
| Patches.PanelCanvas.BlitPatches | device/p4_canvas.py:577-582 | All patches shown, or one refused and nothing outside the view changed |
| Patches.PanelCanvas.PresentFrame | device/p4_canvas.py:453-523 | Taken exactly when every condition holds; then the glass shows the settled picture, or the rotated compositor holds what will, even where it refuses the mark; refused, the rects still stand and only the view may have changed |
| Patches.PanelCanvas.BlitDirect | device/p4_canvas.py:511-515 | The view and every patch leave the settled picture, or one is refused and only the view has changed |
| Patches.PanelCanvas.PaintFrame | device/p4_canvas.py:584-594 | The registered frame, painted later, shows the settled picture of then, whatever the canvas holds now |
| Patches.PanelCanvas.ShowFrame | runtime/shell/console.py:2939-2953 | However presenting goes, the glass ends as one composite of the settled picture, nothing outside the view changed and no rect pending |

## Left out

- Canvas.DeviceCanvas.Call: the `palette` setter and `sync_back` do not drain the queue and are not among the verbs; `Palette` and `PaletteState` have the setter on its own.
- Canvas.DeviceCanvas.Play: sheets have the one shape the native tiles take (16 by 32 tiles of 8 by 8), and a sheet's and an image's pixels do not change while they are queued or cached.
- Canvas.DeviceCanvas.SprTile: the positions it is asked for are those `Queue.ClampHarmlessExactly` allows, and the base table holds no key word, which is more than `Surface.StampingExactly` needs; outside those the source draws otherwise, as `Queue.CameraFitsExactly` and `Surface.StampingExactly` say.
- SpriteCache.CachedSpriteDrawsDirect: one canvas to an image; two canvases file bakes on it under ids of their own.
- SpriteImages.SpriteImage.MakeReady: the fast path for paint images is a separate operation, in Bakes.
- Shards.Shards: weights and loads are reals, so the sums carry no floating-point error and a tie at a rounding is an exact one.
- Bakes.RunsStayValid: what the bakes' pixels hold is not modelled, only which row each image draws from.
- TomlDocs.LoadsUndoes: dates, inline tables and literal floats have no encoder here; floats and numbers in other bases are read through the parameters `int` and `float`, and an integer must be one `int` reads (CPython refuses more than 4300 digits).
- Toml.Parser.ReadValue: nested dictionaries are values and the table being filled is a path to it, where the source keeps a reference.
- Wasm.MissingImports: the file is a byte string read in order; opening it and the table's own contents are outside.
- OtaHealth.VerdictIsTrue: the marker's text and its file are a record and a flag for whether the store answers.
- Present.CartFrame.Settle: buffers are rows of words and not bytes at a stride; the rects' int16 array is unbounded.
- Present.CartFrame.Patch: `take`, the scratch's allocation and the kept view's slice are I/O around it.
- Patches.PanelCanvas.PresentFrame: the accelerator's fences and the order of asynchronous operations; it is taken as finished when it returns.
- Drawing indices 64 and up, the shell's own block: read back in `Indices`, not drawn in `Drawing`.
- The C stamp's fallback when an image is no array, the `tile_image` memo, DMA fills and attribute-map padding: the same pixels, at another speed.
- Timing, profiling counters and gate counts: performance only.
- `sspr`, `map`, `tline`, `oval`, text, anti-aliased shapes and `fill_path`: decided in C, or a clip and a loop over verbs that are here.
- `verify_sig`, WiFi, HTTP, staging and the web host: number theory over an opaque `pow`, or thin over the kernel.
