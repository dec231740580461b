# sortpuz: screenshot grid and colour classifier, in Dafny

This project models the core of `sortpuz`, which reads the state of a
tube-sorting puzzle from a screenshot. The core has two parts:

- **The coordinate grid generator and sampler** (`sortpuz/img_parse.py`). A
  layout gives the tube count of each of the two on-screen rows and the number
  of colour slots per tube. `get_color_map` turns it into a grid of pixel
  points, two rows of tubes of slots. Slot `i` of a tube in row `r` sits at
  the tube's calibrated x and at `Y_COORD[r] + i * Y_COORD_DELTA[num_colors]`.
  `get_color_matrix` samples the image at every point and keeps the grid's
  shape. `get_point_color` reads a pixel and reorders it from BGR to RGB.
- **The colour classifier** (`sortpuz/models/color.py`). `get_color_name`
  returns the first palette label, in palette order, whose reference lies
  within `RGB_INTERVAL` of the sample on every channel. It returns `""` when
  no entry matches. A `Color` object relabels itself whenever one of its
  channels is set.

The shared types come from `sortpuz/models/base.py`. The palette comes from
`sortpuz/constants.py`. The table of palette colours comes from
`sortpuz/constants/color_constants.py`.

Modules, one per source file: `Base`, `Constants`, `ColorModel`,
`ColorConstants` and `ImgParse`. A small `Wrappers` module holds `Option`
and `Result`. The `Dicts` module models an insertion-ordered Python `dict`
as a list of key-value pairs, with lookup of the first entry for a key.

Modelling decisions:

- The coordinate tables `X_COORD`, `Y_COORD` and `Y_COORD_DELTA` come from a
  TOML file. They are a `Tables` parameter. The tolerance `RGB_INTERVAL` is an
  `interval` parameter, which each `Color` stores in a constant field.
- `ImgConfig` is imported from `sortpuz.models.base` (`sortpuz/img_parse.py:12`)
  but is not defined in `sortpuz/models/base.py`. Its use suggests
  an optional pair of tube counts and an integer slot count, so that is how it
  is modelled. The guard `if tube_count and num_colors` follows Python
  truthiness. A present pair always passes it. Any non-zero slot count passes
  it, including a negative one, which yields tubes with no points.
- Dictionary lookups that would raise `KeyError`, and tuple indexing that
  would raise `IndexError`, are preconditions (`LookupsDefined`). These
  preconditions follow Python's lazy comprehension evaluation. The x list of
  each tube count is always looked up. A row's base y and the slot spacing
  are looked up only once a point is produced.
- The image is a sequence of rows of `(b, g, r)` triples. Reading a pixel
  outside the image is a precondition. numpy's negative indices, which count
  from the end, are modelled.
- A zero tube count inside a present pair is not rejected. The error message
  at `sortpuz/img_parse.py:54` speaks of a zero tube count, but the guard only
  tests truthiness, so the layout `(0, 5)` with 4 slots passes it. The model
  follows the code (`ZeroTubeCountPassesCheck`).
- `get_color_matrix` nests three loops. The model has one method per nesting
  level: `SampleTube` for the innermost loop, `SampleRow` for the middle one,
  and `GetColorMatrix` for the outer one.

## Model

| member | source | states |
|---|---|---|
| `Base.ColorPointMatrix.Rows` | sortpuz/models/base.py:22-31 | the grid has exactly two rows, iterated in the order row 0, row 1 |
| `Base.ColorPointMatrix.NDim` | sortpuz/models/base.py:33-35 | the grid always has three dimensions: row, tube, slot |
| `Dicts.Keys` | sortpuz/constants.py:15-26 | a dictionary's keys, one per entry, in insertion order |
| `Dicts.IndexOf` | sortpuz/constants/color_constants.py:12-21 | a key lookup finds the first entry carrying that key |
| `Dicts.Lookup` | sortpuz/constants/color_constants.py:12-21 | `d[key]` for a present key; in a dictionary with distinct keys, it is the value of every entry carrying that key |
| `Dicts.LookupEntry` | sortpuz/constants/color_constants.py:12-21 | in a dictionary with distinct keys, looking up an entry's key gives that entry's value |
| `Dicts.SameKeys` | sortpuz/constants/color_constants.py:10 | a dictionary built entry by entry from another, with the same keys, has the same keys in the same order |
| `Constants.NameRgbLabels` | sortpuz/constants.py:15-26 | the palette has exactly ten labels: Red, Light Green, Light Blue, Brown, Orange, Pink, Beige, Purple, Yellow, Empty, in that order |
| `Constants.NameRgbDistinct` | sortpuz/constants.py:15-26 | no palette label occurs twice |
| `Constants.NameRgbInByteRange` | sortpuz/constants.py:16-25 | every reference channel lies in [0, 255] |
| `Constants.NameRgbEnds` | sortpuz/constants.py:16-25 | Red is (216, 82, 81) and Empty is (228, 218, 209) |
| `ColorModel.ChannelDistance` | sortpuz/models/color.py:22-29 | the distance of two colours is the largest of the three channel differences |
| `ColorModel.ChannelMatches` | sortpuz/models/color.py:23-24 | `v in range(ref - interval, ref + interval + 1)` holds exactly when \|v - ref\| <= interval, bounds included |
| `ColorModel.Matches` | sortpuz/models/color.py:22-29 | all three channels lie in their ranges exactly when the largest channel difference is at most the interval |
| `ColorModel.BoxIsInclusive` | sortpuz/models/color.py:22-29 | a channel difference of exactly the interval matches, on either side; a difference of interval + 1 does not |
| `ColorModel.GetColorName` | sortpuz/models/color.py:20-31 | when no palette entry's box holds the sample, the label is "" and no error is raised |
| `ColorModel.NameIsKeyOrEmpty` | sortpuz/models/color.py:21-31 | a non-empty label is one of the palette's keys |
| `ColorModel.FirstMatchWins` | sortpuz/models/color.py:21-30 | if entry i is the first entry whose box holds the sample, the label is entry i's, whatever later entries match |
| `ColorModel.EarlierMatchWins` | sortpuz/models/color.py:21-30 | if entry i's box holds the sample, the label belongs to the first matching entry, which is i or earlier; overlapping earlier boxes take precedence |
| `ColorModel.EmptyNameIffNoMatch` | sortpuz/models/color.py:21-31 | when palette labels are non-empty, the label is "" exactly when no entry matches |
| `ColorModel.ReferenceIsClassified` | sortpuz/models/color.py:21-30 | with a non-negative interval, a sample equal to reference i gets the label of entry i or of an earlier entry k, and entry k's box is the first to hold it |
| `ColorModel.MakeColor` | sortpuz/models/color.py:12-17 | a colour built from some channels holds exactly those channels, and its name is their classification |
| `ColorModel.Color.Valid` | sortpuz/models/color.py:17 | the stored name is the classification of the stored channels, that is, the object holds what a colour freshly built from its channels holds; the constructor and each setter (lines 40, 49, 58) re-establish it |
| `ColorModel.Color.constructor` | sortpuz/models/color.py:12-17 | a new colour holds the given channels, and its name is the classification of those channels |
| `ColorModel.Color.R` | sortpuz/models/color.py:33-35 | returns the stored R channel |
| `ColorModel.Color.SetR` | sortpuz/models/color.py:37-40 | replaces R only; G and B are unchanged; the name again classifies the new channels |
| `ColorModel.Color.G` | sortpuz/models/color.py:42-44 | returns the stored G channel |
| `ColorModel.Color.SetG` | sortpuz/models/color.py:46-49 | replaces G only; R and B are unchanged; the name again classifies the new channels |
| `ColorModel.Color.B` | sortpuz/models/color.py:51-53 | returns the stored B channel |
| `ColorModel.Color.SetB` | sortpuz/models/color.py:55-58 | replaces B only; R and G are unchanged; the name again classifies the new channels |
| `ColorConstants.GetNameColorTuple` | sortpuz/constants/color_constants.py:6-7 | keeps the label, builds a colour holding the reference, and names it by classifying the reference |
| `ColorConstants.Colors` | sortpuz/constants/color_constants.py:10 | `COLORS` has one entry per palette entry, in palette order; entry i carries label i, holds reference i, and is named by classifying that reference |
| `ColorConstants.ColorsKeys` | sortpuz/constants/color_constants.py:10 | `COLORS` has exactly the palette's keys, in the palette's order, with none repeated |
| `ColorConstants.ColorsLookup` | sortpuz/constants/color_constants.py:6-10 | for every palette label n, `COLORS[n]` holds n's reference and is named by classifying it |
| `ColorConstants.SeparatedReferenceKeepsLabel` | sortpuz/models/color.py:21-30 | when the references are further apart than the interval, every reference is classified under its own label |
| `ColorConstants.NameRgbEntrySeparated` | sortpuz/constants.py:15-26 | each palette reference differs from every earlier one by at least 59 on some channel |
| `ColorConstants.NameRgbSeparated` | sortpuz/constants.py:15-26 | any two palette references differ by at least 59 on some channel; Red and Brown are exactly 59 apart |
| `ColorConstants.ColorsNamedByOwnLabel` | sortpuz/constants/color_constants.py:6-10 | for an interval from 0 to 58, every `COLORS[n]` is named n |
| `ColorConstants.BrownNamedRedAtTolerance59` | sortpuz/constants/color_constants.py:6-10 | at an interval of 59, the Brown reference lies in Red's box, so `COLORS["Brown"]` is named "Red", because Red comes first |
| `ColorConstants.ColorsEntry` | sortpuz/constants/color_constants.py:6-10 | the `COLORS` entry under palette label i is the colour built from reference i; for an interval from 0 to 58 it is named by its own label |
| `ColorConstants.Red` | sortpuz/constants/color_constants.py:12 | `RED` holds (216, 82, 81) and is named by classifying it; "Red" for an interval from 0 to 58 |
| `ColorConstants.LightGreen` | sortpuz/constants/color_constants.py:13 | `LIGHT_GREEN` holds (73, 208, 103) and is named by classifying it; "Light Green" for an interval from 0 to 58 |
| `ColorConstants.LightBlue` | sortpuz/constants/color_constants.py:14 | `LIGHT_BLUE` holds (0, 184, 238) and is named by classifying it; "Light Blue" for an interval from 0 to 58 |
| `ColorConstants.Brown` | sortpuz/constants/color_constants.py:15 | `BROWN` holds (157, 113, 86) and is named by classifying it; "Brown" for an interval from 0 to 58 |
| `ColorConstants.Orange` | sortpuz/constants/color_constants.py:16 | `ORANGE` holds (249, 122, 19) and is named by classifying it; "Orange" for an interval from 0 to 58 |
| `ColorConstants.Pink` | sortpuz/constants/color_constants.py:17 | `PINK` holds (242, 135, 239) and is named by classifying it; "Pink" for an interval from 0 to 58 |
| `ColorConstants.Beige` | sortpuz/constants/color_constants.py:18 | `BEIGE` holds (249, 181, 82) and is named by classifying it; "Beige" for an interval from 0 to 58 |
| `ColorConstants.Purple` | sortpuz/constants/color_constants.py:19 | `PURPLE` holds (156, 87, 193) and is named by classifying it; "Purple" for an interval from 0 to 58 |
| `ColorConstants.Yellow` | sortpuz/constants/color_constants.py:20 | `YELLOW` holds (255, 244, 92) and is named by classifying it; "Yellow" for an interval from 0 to 58 |
| `ColorConstants.Empty` | sortpuz/constants/color_constants.py:21 | `EMPTY` holds (228, 218, 209) and is named by classifying it; "Empty" for an interval from 0 to 58 |
| `ImgParse.TubeRowOf` | sortpuz/img_parse.py:27-48 | row r has one tube per x position listed for its tube count; each tube has `num_colors` points (none when it is negative); point i of tube k is (`X_COORD[count][k]`, `Y_COORD[r] + i * Y_COORD_DELTA[num_colors]`) |
| `ImgParse.GetColorMap` | sortpuz/img_parse.py:21-55 | the grid is built exactly when a tube-count pair is present and the slot count is non-zero, and its rows are the rows for the two tube counts; otherwise the error carries both fields and no grid is returned |
| `ImgParse.GridShape` | sortpuz/img_parse.py:26-49 | a built grid has two rows; row r has one tube per x position listed for its tube count; every tube has `num_colors` points |
| `ImgParse.GridCoordinates` | sortpuz/img_parse.py:31-46 | point i of tube k in row r is (`X_COORD[count_r][k]`, `Y_COORD[r] + i * Y_COORD_DELTA[num_colors]`) |
| `ImgParse.GridSlotSpacing` | sortpuz/img_parse.py:31-43 | consecutive points of a tube share their x and differ in y by exactly the slot spacing |
| `ImgParse.SixFiveFourLayout` | test_img_parse.py:6-7 | the layout (6, 5) with 4 slots gives 6 and 5 tubes of 4 points each |
| `ImgParse.ZeroTubeCountPassesCheck` | sortpuz/img_parse.py:25-35 | the layout (0, 5) with 4 slots passes the check and builds a row with the tubes listed for 0 |
| `ImgParse.PyIndex` | sortpuz/img_parse.py:17 | a valid Python index names a position inside the sequence: a non-negative index is itself, a negative one counts from the end |
| `ImgParse.PixelAt` | sortpuz/img_parse.py:17 | `img[y][x]` for in-range non-negative coordinates; a negative coordinate counts from the end of its axis |
| `ImgParse.BgrToRgb` | sortpuz/img_parse.py:17-18 | R is the pixel's third channel, G its second and B its first |
| `ImgParse.GetPointColor` | sortpuz/img_parse.py:16-18 | reads `img[y][x]` and returns a colour with R = px[2], G = px[1] and B = px[0], labelled by classifying it; the colour is a newly allocated object |
| `ImgParse.SampleTube` | sortpuz/img_parse.py:65-68 | one colour per point of the tube, in slot order; colour i is sampled at point i; the colours are new objects, no two the same |
| `ImgParse.SampleRow` | sortpuz/img_parse.py:63-70 | one colour list per tube, in tube order, each as long as its tube; entry [k][i] is sampled at point [k][i]; the colours are new objects, no two the same |
| `ImgParse.GetColorMatrix` | sortpuz/img_parse.py:58-73 | the result has the grid's shape (rows, tubes per row, points per tube); entry [r][k][i] is the colour sampled at grid point [r][k][i]; the colours are new objects, no two the same, so setting a channel of one entry changes no other entry |
| `ImgParse.ParseUniformRedScreen` | test_img_parse.py:6-9 | layout (6, 5) with 4 slots on an all-Red image gives 2 rows of 6 and 5 tubes, 4 colours each, every one (216, 82, 81) and named "Red" |

## Left out

- The TOML loading in `sortpuz/constants.py` is file I/O. Its tables are a parameter instead.
- `RGB_INTERVAL` is one process-wide value in the source. In the model each `Color` takes it as a constructor argument, and the functions take it as a parameter.
- Decoding the image (the cv2 `MatLike`) is not modelled. The image is an abstract grid of BGR triples, and its channels are unbounded integers rather than 8-bit values.
- Pydantic's validation and coercion are not modelled. This includes the `-1` placeholder default of `Color.rgb` and the extra keyword fields handed to `BaseModel`.
- `KeyError` and `IndexError` raised by missing table keys or out-of-range pixels are preconditions, not modelled errors.
- `ImgConfig` takes its tube counts as an optional pair. An empty or one-element tuple is therefore not representable.
- `COLORS` and the named constants `RED` … `EMPTY` hold shared, mutable `Color` objects. The model holds value snapshots (`ColorState`). The aliasing between a named constant and its `COLORS` entry, where setting a channel of `RED` also changes `COLORS["Red"]`, is not captured.
- `sortpuz/plotting.py` is matplotlib rendering and is not part of this model.
- `test_img_parse.py` calls `get_color_matrix` without an image. `ParseUniformRedScreen` supplies one.
