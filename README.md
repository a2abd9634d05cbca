# PalettePro colour engine in Dafny

This project models the colour engine of PalettePro, a web gallery of
four-colour palettes, and proves properties of it. The engine has three
parts:

- **Colour search.** `hexToHsl` converts a `#rrggbb` string to hue,
  saturation and lightness. `isValidHex` recognises such a string.
  `colorDistance` is a weighted HSL distance. `colorContainsSearch` decides
  whether a palette matches a search term, given as a hex colour, a colour
  name or part of one. `getSearchColor` turns a search term into one
  representative colour.
- **The palette grid.** `hslToHex` prints a colour. `randomInRange` draws an
  integer. `generateRelatedColors` builds colours around a base colour (its
  complement, then analogous hues). `generateCategoryPalette` has ten named
  categories and a random fallback. `generatePalettes` builds one batch of
  palettes for a search term and an active category, and shuffles it.
  `filteredPalettes` is the search and category filter over a batch.
- **The palette detail view.** `generateShades` is the lightness ramp of one
  colour, sorted by lightness. `generateRelatedPalettes` builds the
  complementary, analogous and monochromatic palettes of the first two
  colours.

## How the model is built

- `Math.random()` is an oracle `rnd: nat -> Unit` read at a cursor `at`.
  Every draw reads `rnd(at)` and moves the cursor one step. Draws happen in
  the order in which JavaScript evaluates the expressions. Each generator
  returns a `Draw(value, next)`.
- HSL values are reals. `Math.round` is `floor(x + 0.5)`. JavaScript's `%`
  is the remainder truncated toward zero (`JsMath.Rem`).
- **Loops become methods.** Every loop of the source is a method:
  - the shade loop;
  - the `forEach` of the related palettes;
  - the push loops of `generateRelatedColors` and `generatePalettes`;
  - the Fisher–Yates shuffle, which works in place on an `array`.
  Each method is proved equal to a function, and the properties are lemmas
  about that function.
- **Sources.** The batch is defined over a pair of colour generators, of
  type `PaletteGrid.Sources`. `PaletteGrid.Live(rnd, capped)` plugs in this
  model's `generateRelatedColors` and `generateCategoryPalette`; with
  `capped` false the related colours are the code as written, with `capped`
  true they carry the saturation cap described under Findings. The shape
  of the batch is proved for every pair that meets `PaletteGrid.Sound`
  (lengths, first colour, hex category palettes), and valid hex throughout
  for pairs that also meet `PaletteGrid.RelatedHex`.
  `PaletteGrid.LiveIsSound` shows that both live pairs meet `Sound` and the
  capped pair meets `RelatedHex`. `PaletteGrid.GeneratePalettes` is the
  component as written.
- **Printers.** The related palettes and the ramp of the detail view are
  stated for any printer `show`. The live printer is `PaletteView.Print`,
  which is `hslToHex`.

The modules are:

- `JsMath`
- `Text` (lower case, trim, `includes`, decimal numerals)
- `ColorFormat` (`hslToHex`)
- `ColorSearch`
- `Random`
- `RelatedColors`
- `CategoryPalettes`
- `PaletteGrid`
- `PaletteView`

## Model

Paths are relative to the repository root. The grid's file is
`palettepro-cloudflare-pages/src/components/PaletteGrid.tsx`.

| member | source | states |
|---|---|---|
| JsMath.Round | palettepro-cloudflare-pages/src/components/PaletteGrid.tsx:25 | `Math.round` gives the integer within one half of its argument |
| JsMath.Trunc | src/components/PaletteViewPopup.tsx:25 | truncation toward zero: it never moves away from zero and stays within 1 of its argument, on both signs; `%` is built on it |
| JsMath.RemBelowTwice | palettepro-cloudflare-pages/src/components/PaletteGrid.tsx:46 | on `[0, 2m)`, the truncated remainder by `m` is `x` or `x - m`, and it lies in `[0, m)`, so `(h + 180) % 360` is a hue again |
| Text.ToLower | src/utils/colorSearch.ts:44 | lower-casing keeps the length and lowers each character on its own |
| Text.LeadingSpace | src/utils/colorSearch.ts:44 | `trim` drops exactly the maximal run of leading whitespace |
| Text.TrailingSpace | src/utils/colorSearch.ts:44 | `trim` drops exactly the maximal run of trailing whitespace |
| Text.TrimIsInnerSlice | src/utils/colorSearch.ts:44 | the trimmed string is a slice of the input with only whitespace outside it; when it is not empty, it neither starts nor ends with whitespace |
| Text.TrimUnpadded | src/utils/colorSearch.ts:44 | trimming a string without outer whitespace changes nothing |
| Text.LowerUnchanged | src/utils/colorSearch.ts:44 | lower-casing a string without capitals changes nothing |
| Text.TrimEmptyIff | palettepro-cloudflare-pages/src/components/PaletteGrid.tsx:302 | `!searchTerm.trim()` holds exactly when the term is all whitespace (both directions) |
| Text.IncludesIff | src/utils/colorSearch.ts:106 | `s.includes(t)` holds exactly when `t` occurs at some index of `s` (both directions) |
| Text.IncludesEmpty | src/utils/colorSearch.ts:176 | every string includes the empty string |
| Text.IncludesSelf | src/utils/colorSearch.ts:106 | every string includes itself |
| Text.Decimal | palettepro-cloudflare-pages/src/components/PaletteGrid.tsx:208 | the numeral of `${i + 1}` in a palette name is a run of digits whose decimal value is the number, with no leading zero unless the number is 0 |
| Text.DecimalInjective | palettepro-cloudflare-pages/src/components/PaletteGrid.tsx:208 | different numbers print as different numerals |
| ColorFormat.HexNumeral | palettepro-cloudflare-pages/src/components/PaletteGrid.tsx:25 | `toString(16)` has one lower-case digit below 16, two below 256, and three or more after that |
| ColorFormat.HexByteRoundTrip | palettepro-cloudflare-pages/src/components/PaletteGrid.tsx:25 | padding to two characters gives two lower-case hex digits that parse back to the channel for 0…255; a negative channel prints with a leading `-`, and one above 255 with three or more characters |
| ColorFormat.ChannelInRange | palettepro-cloudflare-pages/src/components/PaletteGrid.tsx:19-26 | for saturation and lightness in [0, 100], every channel of `hslToHex` is in 0…255, whatever the hue (negative hues included) |
| ColorFormat.HslToHexIsHex | palettepro-cloudflare-pages/src/components/PaletteGrid.tsx:19-28 | for saturation and lightness in [0, 100], `hslToHex` prints a valid lower-case hex colour whose three bytes parse back to the red, green and blue channels |
| ColorFormat.ChannelPair | palettepro-cloudflare-pages/src/components/PaletteGrid.tsx:19-28 | a channel computed from saturation and lightness in [0, 100] prints as two lower-case hex digits that parse back to it |
| ColorFormat.NegativeRedIsNotHex | palettepro-cloudflare-pages/src/components/PaletteGrid.tsx:25-27 | when the red channel rounds below zero, the printed string is not a hex colour |
| ColorSearch.ValidHexIgnoresCase | src/utils/colorSearch.ts:29-31 | the hex test accepts a string exactly when it accepts its lower-cased form |
| ColorSearch.HexDigitValue | src/utils/colorSearch.ts:4-6 | a hex digit of either case is worth its position in `0123456789abcdef` once lower-cased |
| ColorSearch.HexDigitIgnoresCase | src/utils/colorSearch.ts:4-6 | an upper-case digit is worth what its lower-case form is |
| ColorSearch.ParseByte | src/utils/colorSearch.ts:4-6 | two hex digits parse to a byte, 0…255 |
| ColorSearch.ParseByteDigits | src/utils/colorSearch.ts:4-6 | the parsed byte's high and low base-16 digits are the two characters, lower-cased |
| ColorSearch.RgbToHslInGamut | src/utils/colorSearch.ts:8-26 | the HSL of any 8-bit RGB triple has hue in [0, 360) and saturation and lightness in [0, 100]; saturation is 0 exactly for greys (both directions), and greys have hue 0 |
| ColorSearch.HexToHslInGamut | src/utils/colorSearch.ts:3-27 | the same for `hexToHsl` of a valid hex string, in terms of its parsed bytes |
| ColorSearch.HexToHslIgnoresCase | src/utils/colorSearch.ts:3-27 | `hexToHsl` gives the same colour for the upper- and lower-case spellings of a hex colour |
| ColorSearch.HueDiffBounds | src/utils/colorSearch.ts:35 | the hue difference round the wheel lies in [0, 180], is symmetric, and is 0 exactly for equal hues |
| ColorSearch.DistanceIsSimilarity | src/utils/colorSearch.ts:34-41 | `colorDistance` is symmetric and non-negative, and is 0 exactly for equal colours (both directions) |
| ColorSearch.Pairs | src/utils/colorSearch.ts:137-167 | definition, not a proved promise: the representatives table pairs each name with its colour, in order |
| ColorSearch.Keys | src/utils/colorSearch.ts:105 | definition, not a proved promise: `Object.keys` lists the names in table order |
| ColorSearch.FindFirst | src/utils/colorSearch.ts:175-177 | `find` returns the first key that passes, or none when no key passes |
| ColorSearch.Lookup | src/utils/colorSearch.ts:170 | a key lookup fails exactly when the key is absent; when it succeeds, it returns that key's entry |
| ColorSearch.ResolveName | src/utils/colorSearch.ts:169-179 | a resolved name is a colour of the table |
| ColorSearch.ResolveNameSteps | src/utils/colorSearch.ts:169-179 | an exact name wins; otherwise the result is the first name containing the term or contained in it; nothing is found exactly when no name matches either way |
| ColorSearch.ResolveEmptyTerm | src/utils/colorSearch.ts:175-177 | with no empty names, the empty term resolves to the first entry |
| ColorSearch.GetSearchColor | src/utils/colorSearch.ts:128-180 | every colour `getSearchColor` returns is a valid hex colour |
| ColorSearch.GetSearchColorSteps | src/utils/colorSearch.ts:128-180 | a hex term comes back lowered and trimmed; anything else is resolved in the representatives table; the result is null exactly when the term is not hex and no name matches |
| ColorSearch.RepresentativeNamesNonEmpty | src/utils/colorSearch.ts:137-167 | the table starts with `red` → `#FF0000` and has no empty name |
| ColorSearch.EmptyTermIsRed | src/utils/colorSearch.ts:175-179 | the empty term is contained in every name, so it resolves to red |
| ColorSearch.BlankTermIsRed | src/utils/colorSearch.ts:128-179 | an all-whitespace search term gives `#FF0000` |
| ColorSearch.SearchRedExample | src/utils/colorSearch.ts:170-171 | `getSearchColor("red")` is `#FF0000` |
| ColorSearch.HexTermIsLowered | src/utils/colorSearch.ts:129-133 | a hex term comes back in lower case |
| ColorSearch.AnyNear | src/utils/colorSearch.ts:48-55 | `colors.some(distance < limit)` holds exactly when some valid hex colour of the palette is nearer than the limit |
| ColorSearch.AnyReferenceNear | src/utils/colorSearch.ts:94-101 | the nested `some` holds exactly when some reference colour and some valid hex palette colour are nearer than the limit |
| ColorSearch.CandidateNames | src/utils/colorSearch.ts:105-109 | the partial matches are exactly the names that contain the term, are contained in it, or share its first three characters when it is longer than two |
| ColorSearch.ReferencesOf | src/utils/colorSearch.ts:113 | `colorNames[name]` is the entry of that name |
| ColorSearch.AnyNameNear | src/utils/colorSearch.ts:112-121 | the outer `some` holds exactly when some candidate name has a reference colour within 80 of a palette colour |
| ColorSearch.ContainsHexTerm | src/utils/colorSearch.ts:43-56 | for a hex term, a palette matches exactly when one of its valid hex colours is within distance 60 of the term |
| ColorSearch.NameMatchesSteps | src/utils/colorSearch.ts:92-124 | an exact name matches when a reference and a palette colour are within 80; any other term matches through any partial-match name in the same way; both directions |
| ColorSearch.ExactNameMatches | src/utils/colorSearch.ts:93-101 | an exact name is decided by its own references only |
| ColorSearch.CandidateNameMatches | src/utils/colorSearch.ts:104-124 | a term that is not a name is decided by the candidate names; with none, the result is false |
| ColorSearch.EmptyPaletteNeverMatches | src/utils/colorSearch.ts:43-125 | no search term matches a palette without colours |
| Random.Index | palettepro-cloudflare-pages/src/components/PaletteGrid.tsx:90 | `Math.floor(Math.random() * n)` is an index below `n` and uses one draw |
| Random.Pick | palettepro-cloudflare-pages/src/components/PaletteGrid.tsx:177 | picking from a non-empty list returns an element of it and uses one draw |
| Random.RandomInRange | palettepro-cloudflare-pages/src/components/PaletteGrid.tsx:31-33 | `randomInRange(min, max)` lies in [min, max], both ends included, and uses one draw |
| Random.RandomInRangeReaches | palettepro-cloudflare-pages/src/components/PaletteGrid.tsx:31-33 | every integer of the range is reached, by a draw we can name |
| RelatedColors.RelatedStep | palettepro-cloudflare-pages/src/components/PaletteGrid.tsx:44-59 | the complement uses two draws, and each analogous colour uses three |
| RelatedColors.StepIsRelated | palettepro-cloudflare-pages/src/components/PaletteGrid.tsx:41-59 | each generated colour has hue in [0, 360); lightness is the base's within ±15 (complement) or ±10 (analogous), clamped to [20, 80]; saturation is at least 30 and within ±20 or ±15 of the base |
| RelatedColors.ComplementIsRelated | palettepro-cloudflare-pages/src/components/PaletteGrid.tsx:44-48 | the complement is 180° away, with saturation within ±20 of the base (at least 30) and lightness within ±15 of the base's, clamped to [20, 80] |
| RelatedColors.AnalogousIsRelated | palettepro-cloudflare-pages/src/components/PaletteGrid.tsx:49-58 | the second colour turns 30–60° forwards and later colours turn 30–60° backwards; saturation is within ±15 of the base (at least 30) and lightness within ±10 of the base's, clamped to [20, 80] |
| RelatedColors.RelatedTriples | palettepro-cloudflare-pages/src/components/PaletteGrid.tsx:41-62 | the loop yields `count - 1` colours, or none when `count <= 1` |
| RelatedColors.TriplesAreRelated | palettepro-cloudflare-pages/src/components/PaletteGrid.tsx:41-62 | every colour of the loop is related to the base at its position: the hue geometry, and saturation and lightness within that position's jitter of the base, clamped |
| RelatedColors.RenderHsl | palettepro-cloudflare-pages/src/components/PaletteGrid.tsx:61 | definition, not a proved promise: each pushed colour is `hslToHex` of its HSL |
| RelatedColors.HueGeometry | palettepro-cloudflare-pages/src/components/PaletteGrid.tsx:46-56 | the complement is 180° away round the wheel; the analogous colours are 30–60° away, on the stated side |
| RelatedColors.UncappedSaturationLeavesHex | palettepro-cloudflare-pages/src/components/PaletteGrid.tsx:47 | as written, `#ff0000` with a saturation jitter of +20 gives a complement that is not a hex colour, in every related list of two or more colours |
| RelatedColors.RelatedColorList | palettepro-cloudflare-pages/src/components/PaletteGrid.tsx:36-65 | as written and capped: `max(count, 1)` colours, starting with the base |
| RelatedColors.GenerateRelatedColors | palettepro-cloudflare-pages/src/components/PaletteGrid.tsx:36-65 | the push loop as written returns exactly the uncapped list, and the cursor after it |
| RelatedColors.PushRelated | palettepro-cloudflare-pages/src/components/PaletteGrid.tsx:38-64 | the loop pushes the base, then `hslToHex` of each step, in order |
| RelatedColors.TriplesAreHex | palettepro-cloudflare-pages/src/components/PaletteGrid.tsx:41-62 | with the saturation cap, every pushed colour is a valid hex colour |
| RelatedColors.RelatedColorsAreHex | palettepro-cloudflare-pages/src/components/PaletteGrid.tsx:36-65 | with the saturation cap, the whole related list is valid hex |
| CategoryPalettes.RenderAll | palettepro-cloudflare-pages/src/components/PaletteGrid.tsx:71-76 | definition, not a proved promise: the palette prints its swatches one by one, in order |
| CategoryPalettes.RenderableIsHex | palettepro-cloudflare-pages/src/components/PaletteGrid.tsx:75 | swatches with saturation and lightness in [0, 100], or hex literals, print as valid hex |
| CategoryPalettes.PolicyOf | palettepro-cloudflare-pages/src/components/PaletteGrid.tsx:70-163 | the seven sampled categories have non-empty ranges inside [0, 100] and non-empty hue lists |
| CategoryPalettes.SampleHue | palettepro-cloudflare-pages/src/components/PaletteGrid.tsx:109 | a hue is any in [0, 360], one of the list, or one of the list plus a jitter within the spread |
| CategoryPalettes.SampleSwatch | palettepro-cloudflare-pages/src/components/PaletteGrid.tsx:71-76 | a sampled colour lies in its category's hue, saturation and lightness ranges |
| CategoryPalettes.SampleSwatches | palettepro-cloudflare-pages/src/components/PaletteGrid.tsx:71-76 | `Array.from({length: n})` yields `n` colours, each in range |
| CategoryPalettes.MonochromeTones | palettepro-cloudflare-pages/src/components/PaletteGrid.tsx:130-134 | the monochrome colours keep one hue; lightness is `25 + 18 * index`; saturation is 0–15 first and 15–40 after |
| CategoryPalettes.JitterTones | palettepro-cloudflare-pages/src/components/PaletteGrid.tsx:145-151 | each sunset colour is within ±8 hue and ±5 saturation and lightness of its tone |
| CategoryPalettes.Literals | palettepro-cloudflare-pages/src/components/PaletteGrid.tsx:177 | definition, not a proved promise: the popular combination is returned verbatim |
| CategoryPalettes.CategoryConforms | palettepro-cloudflare-pages/src/components/PaletteGrid.tsx:68-178 | each of the ten categories yields four colours of its own kind |
| CategoryPalettes.SampledConforms | palettepro-cloudflare-pages/src/components/PaletteGrid.tsx:70-163 | the seven sampled categories yield four colours inside their ranges |
| CategoryPalettes.MonochromeConforms | palettepro-cloudflare-pages/src/components/PaletteGrid.tsx:127-135 | a monochrome palette is one hue in [0, 360] with the lightness ladder 25, 43, 61, 79 |
| CategoryPalettes.SunsetConforms | palettepro-cloudflare-pages/src/components/PaletteGrid.tsx:137-152 | a sunset palette is one of the three gradients, jittered |
| CategoryPalettes.PopularConforms | palettepro-cloudflare-pages/src/components/PaletteGrid.tsx:165-178 | a popular palette is one of the eight literal combinations |
| CategoryPalettes.OtherNameDelegates | palettepro-cloudflare-pages/src/components/PaletteGrid.tsx:180-185 | any other name (`All` included) gives the palette of one of the ten categories, drawn after one pick |
| CategoryPalettes.ConformingIsRenderable | palettepro-cloudflare-pages/src/components/PaletteGrid.tsx:68-178 | a conforming palette has only printable swatches |
| CategoryPalettes.CategoryPaletteIsHex | palettepro-cloudflare-pages/src/components/PaletteGrid.tsx:68-187 | for every name, the category palette is four valid hex colours |
| CategoryPalettes.PopularIsVerbatim | palettepro-cloudflare-pages/src/components/PaletteGrid.tsx:165-178 | the popular palette is one of the combinations, unchanged, after one draw |
| PaletteGrid.LiveIsSound | palettepro-cloudflare-pages/src/components/PaletteGrid.tsx:36-187 | both live generator pairs give the related list of the right length, starting with the colour, and four-colour hex category palettes; with the cap the related lists are valid hex too |
| PaletteGrid.Run | palettepro-cloudflare-pages/src/components/PaletteGrid.tsx:203-211 | a counted loop yields one palette per iteration |
| PaletteGrid.Sweep | palettepro-cloudflare-pages/src/components/PaletteGrid.tsx:266-276 | the loop over categories yields the sum of the per-category counts |
| PaletteGrid.SearchColor | palettepro-cloudflare-pages/src/components/PaletteGrid.tsx:195 | a search colour exists only for a non-empty term, and is valid hex |
| PaletteGrid.Swap | palettepro-cloudflare-pages/src/components/PaletteGrid.tsx:256 | the destructuring swap keeps the length |
| PaletteGrid.SwapPermutes | palettepro-cloudflare-pages/src/components/PaletteGrid.tsx:256 | the swap is a permutation |
| PaletteGrid.FisherYatesPermutes | palettepro-cloudflare-pages/src/components/PaletteGrid.tsx:254-257 | the shuffle keeps the length and is a permutation (same multiset) |
| PaletteGrid.Shuffle | palettepro-cloudflare-pages/src/components/PaletteGrid.tsx:254-257 | the in-place loop over an array leaves the Fisher–Yates result, and the cursor after its draws |
| PaletteGrid.ShuffleBatch | palettepro-cloudflare-pages/src/components/PaletteGrid.tsx:279-282 | shuffling a batch through an array gives the Fisher–Yates result |
| PaletteGrid.ShuffleKeeps | palettepro-cloudflare-pages/src/components/PaletteGrid.tsx:254-257 | the shuffled batch has the same length and the same members (both directions) |
| PaletteGrid.NewEntry | palettepro-cloudflare-pages/src/components/PaletteGrid.tsx:227-238 | one loop iteration draws in source order: category palette, related colour, slot, coin |
| PaletteGrid.PushRun | palettepro-cloudflare-pages/src/components/PaletteGrid.tsx:203-211 | a push loop appends exactly the palettes of its iterations |
| PaletteGrid.PushSweep | palettepro-cloudflare-pages/src/components/PaletteGrid.tsx:266-276 | the nested loop appends the palettes of every category in list order |
| PaletteGrid.PushBatch | palettepro-cloudflare-pages/src/components/PaletteGrid.tsx:197-292 | the branches push exactly the unshuffled batch |
| PaletteGrid.PushAndShuffle | palettepro-cloudflare-pages/src/components/PaletteGrid.tsx:197-295 | the pushed batch is shuffled in every branch except the plain single category |
| PaletteGrid.GeneratePalettes | palettepro-cloudflare-pages/src/components/PaletteGrid.tsx:189-298 | `generatePalettes` as written computes exactly the batch of the live generators with uncapped related colours |
| PaletteGrid.MakeEntryShaped | palettepro-cloudflare-pages/src/components/PaletteGrid.tsx:203-238 | every palette has four colours, valid hex except perhaps a related palette of uncapped generators; a related palette starts with the search colour; a mixed palette holds the search colour whichever way the coin falls |
| PaletteGrid.RunShaped | palettepro-cloudflare-pages/src/components/PaletteGrid.tsx:203-250 | every palette of a push loop has its iteration's shape |
| PaletteGrid.SweepShaped | palettepro-cloudflare-pages/src/components/PaletteGrid.tsx:262-276 | every palette of a sweep has four hex colours and one of the listed categories |
| PaletteGrid.RunNames | palettepro-cloudflare-pages/src/components/PaletteGrid.tsx:287-292 | the plain palettes are named `<category> Palette 1`, `2`, … in order |
| PaletteGrid.SweepSizes | palettepro-cloudflare-pages/src/components/PaletteGrid.tsx:214-276 | 7 categories × 2 = 14, and 9 × 3 + 4 = 31 |
| PaletteGrid.SearchAllBatch | palettepro-cloudflare-pages/src/components/PaletteGrid.tsx:201-224 | search with `All`: 26 palettes, each related to the search colour or from the seven search categories |
| PaletteGrid.SearchFilterBatch | palettepro-cloudflare-pages/src/components/PaletteGrid.tsx:225-250 | search with a category: 24 palettes, each containing the search colour |
| PaletteGrid.SweepBatch | palettepro-cloudflare-pages/src/components/PaletteGrid.tsx:260-276 | no search colour, with `All` or a term: 31 palettes from the ten categories |
| PaletteGrid.PlainBatch | palettepro-cloudflare-pages/src/components/PaletteGrid.tsx:285-292 | one category without a term: 24 palettes of it, numbered in order |
| PaletteGrid.UnshuffledFacts | palettepro-cloudflare-pages/src/components/PaletteGrid.tsx:197-292 | in every branch, the pushed batch has its size and contents |
| PaletteGrid.ShuffleKeepsContents | palettepro-cloudflare-pages/src/components/PaletteGrid.tsx:254-257 | shuffling keeps the size and contents of a batch |
| PaletteGrid.GeneratedFromFacts | palettepro-cloudflare-pages/src/components/PaletteGrid.tsx:197-295 | for any sound generators, the final batch has the size and contents of its branch, valid hex throughout when the related colours are; the unshuffled branch is also numbered |
| PaletteGrid.GeneratedFacts | palettepro-cloudflare-pages/src/components/PaletteGrid.tsx:189-298 | `generatePalettes` gives 26, 24, 31 or 24 palettes by branch, with the contents above; as written every palette outside the search results is valid hex, and with the cap every palette is |
| PaletteGrid.SearchBatchLeavesHex | palettepro-cloudflare-pages/src/components/PaletteGrid.tsx:201-211 | as written, a search for `#ff0000` with the `All` filter can store a palette that is not valid hex |
| PaletteGrid.RelatedLeavesHexInBatch | palettepro-cloudflare-pages/src/components/PaletteGrid.tsx:201-211 | whenever the uncapped related colours of the search colour leave the hex form, so does a palette of the batch for `All` |
| PaletteGrid.GeneratedKeeps | palettepro-cloudflare-pages/src/components/PaletteGrid.tsx:254-282 | the stored batch holds exactly the pushed palettes |
| PaletteGrid.Where | palettepro-cloudflare-pages/src/components/PaletteGrid.tsx:307-311 | `filter` keeps exactly the members that pass and never grows |
| PaletteGrid.WhereAppend | palettepro-cloudflare-pages/src/components/PaletteGrid.tsx:307-311 | filtering distributes over concatenation, so order is kept |
| PaletteGrid.WhereAll | palettepro-cloudflare-pages/src/components/PaletteGrid.tsx:315-319 | a filter that every member passes changes nothing |
| PaletteGrid.WhereCommutes | palettepro-cloudflare-pages/src/components/PaletteGrid.tsx:307-319 | two filters give the same sequence in either order |
| PaletteGrid.FilteredPalettes | palettepro-cloudflare-pages/src/components/PaletteGrid.tsx:301-323 | a blank term keeps the batch; otherwise a palette is kept exactly when it passes the search test and, unless the filter is `All`, the category test |
| PaletteGrid.FilterKeepsOrder | palettepro-cloudflare-pages/src/components/PaletteGrid.tsx:301-323 | the filter works palette by palette, so it keeps order |
| PaletteGrid.FilterIdempotent | palettepro-cloudflare-pages/src/components/PaletteGrid.tsx:301-323 | filtering twice is filtering once |
| PaletteGrid.NormalizedNotBlank | palettepro-cloudflare-pages/src/components/PaletteGrid.tsx:302 | a term that is non-empty after lower-casing and trimming is not blank |
| PaletteGrid.HoldsHexTerm | palettepro-cloudflare-pages/src/components/PaletteGrid.tsx:307-311 | a palette holding the hex term passes the search test, whatever its other colours |
| PaletteGrid.HexSearchKeepsBatch | palettepro-cloudflare-pages/src/components/PaletteGrid.tsx:195-323 | after a hex search in a category, the filter keeps the whole generated batch, as written and capped |
| PaletteView.NearestStep | src/components/PaletteViewPopup.tsx:37 | `Math.round(l / 10) * 10` is the multiple of 10 within 5 of `l`, and in 0…100 for a lightness |
| PaletteView.StepMembers | src/components/PaletteViewPopup.tsx:36-40 | the loop yields exactly the steps 10…90 other than the skipped one, at the base hue and saturation |
| PaletteView.StepCount | src/components/PaletteViewPopup.tsx:36-40 | the loop yields one colour per step, one fewer when the skip is a visited step |
| PaletteView.StepsInRange | src/components/PaletteViewPopup.tsx:36-40 | each step keeps the base saturation and has lightness in [10, 90] |
| PaletteView.Printed | src/components/PaletteViewPopup.tsx:38 | definition, not a proved promise: each step is printed on its own, in order |
| PaletteView.PrintIsHex | src/components/PaletteViewPopup.tsx:21-30 | the view's `hslToHex` prints valid hex for saturation and lightness in [0, 100] |
| PaletteView.PrintedIsHex | src/components/PaletteViewPopup.tsx:38 | printing colours in range gives valid hex |
| PaletteView.ShadeRamp | src/components/PaletteViewPopup.tsx:34-40 | the shade loop pushes exactly the printed steps |
| PaletteView.Lightness | src/components/PaletteViewPopup.tsx:43-45 | definition, not a proved promise: the sort key is the lightness of `hexToHsl` |
| PaletteView.SortBy | src/components/PaletteViewPopup.tsx:42-46 | the sort leaves the array ordered by its key and is a permutation |
| PaletteView.SortedShades | src/components/PaletteViewPopup.tsx:34-46 | the shades are the ramp's colours (same multiset), ordered by lightness |
| PaletteView.GenerateShades | src/components/PaletteViewPopup.tsx:32-47 | `generateShades` returns 8 shades (9 when the base rounds to 0 or 100), all valid hex, exactly the ramp's colours, sorted by lightness |
| PaletteView.Shades | src/components/PaletteViewPopup.tsx:32-47 | the same, given the HSL of the base and the skipped step |
| PaletteView.RampFacts | src/components/PaletteViewPopup.tsx:36-40 | the ramp has 8 or 9 colours, all valid hex |
| PaletteView.Trio | src/components/PaletteViewPopup.tsx:76-80 | each base colour pushes three palettes |
| PaletteView.BaseHsl | src/components/PaletteViewPopup.tsx:53 | one HSL per base colour |
| PaletteView.BaseHslAt | src/components/PaletteViewPopup.tsx:53 | the HSL of each base colour is `hexToHsl` of it, in gamut |
| PaletteView.PerBase | src/components/PaletteViewPopup.tsx:52-81 | definition, not a proved promise: the `forEach` gives one trio per base colour, with its index |
| PaletteView.FlattenAt | src/components/PaletteViewPopup.tsx:76-80 | push order puts palette `j` at trio `j / 3`, position `j % 3` |
| PaletteView.GenerateRelatedPalettes | src/components/PaletteViewPopup.tsx:49-84 | `generateRelatedPalettes` returns exactly the first six pushed palettes |
| PaletteView.PushRelatedPalettes | src/components/PaletteViewPopup.tsx:50-83 | the `forEach` followed by `slice(0, 6)` |
| PaletteView.PushAll | src/components/PaletteViewPopup.tsx:52-81 | the `forEach` pushes every trio in order |
| PaletteView.RelatedAt | src/components/PaletteViewPopup.tsx:49-84 | there are `min(3n, 6)` palettes; palette `j` is trio position `j % 3` of base colour `j / 3`, which is one of the first two |
| PaletteView.TrioShape | src/components/PaletteViewPopup.tsx:55-80 | four colours each; the base is first in the complementary and analogous palettes and third in the monochromatic one; names carry `index + 1` |
| PaletteView.RelatedLayout | src/components/PaletteViewPopup.tsx:49-84 | the layout of the result: `Complementary k`, `Analogous k` and `Monochromatic k` for k = 1, 2, each with the base colour in place |
| PaletteView.OnlyFirstTwoCount | src/components/PaletteViewPopup.tsx:83 | base colours after the second do not change the result |
| PaletteView.SideHues | src/components/PaletteViewPopup.tsx:55-74 | complementary sides are 180°, 90° and 90° away; analogous sides are 30°, 60° and 30° away, with the base saturation and lightness; monochromatic sides keep the hue and saturation, with lightness in [10, 90] |
| PaletteView.SidesInRange | src/components/PaletteViewPopup.tsx:55-74 | every side colour has saturation and lightness in [0, 100] |
| PaletteView.TrioIsHex | src/components/PaletteViewPopup.tsx:55-74 | every palette of a trio is valid hex |
| PaletteView.RelatedAreHex | src/components/PaletteViewPopup.tsx:49-84 | every related palette is valid hex |

## Left out

- **The React component.** Component state, the 800 ms delay, the loading
  flag, the toasts, the clipboard, the theme and the rendering are left
  out. The model computes the values the component stores.
- **Palette ids.** Ids built from `Date.now()` are not modelled. A palette
  is its colours, its name and its category.
- **Random draws.** `Math.random()` is a stream of values in [0, 1) given
  as a parameter. The distribution of those values is not modelled, and
  neither is any property of randomness.
- **Numbers.** They are exact reals, not IEEE doubles. Rounding error in
  `hexToHsl` and `hslToHex` is not modelled. The `switch (max)` of
  `hexToHsl` compares exact values in the model.
- **Malformed colours.** In the model `hexToHsl` requires a valid hex
  colour. The source parses any string with `parseInt(…, 16)`, which reads
  a leading run of hex digits, a sign included: `#-19119119` reads as red
  -1, green 145, blue 25, and a string with no digits gives `NaN`, which is
  never near.
- ColorSearch.AnyNear: a palette colour the hex pattern rejects never
  matches a term in the model; in the source such a colour is parsed as
  above and can be within the distance limit. The same holds for
  `ColorSearch.ColorContainsSearch` and the filter built on it. Every
  other colour of the palette is tested as in the source.
- PaletteGrid.FilteredPalettes: its colour test is `ColorSearch.ColorContainsSearch`, so
  the difference above applies to it.
- PaletteView.GenerateShades: it requires a valid hex base colour. The
  batch as written can hold colours that are not (see Findings); their
  detail view is not modelled.
- PaletteView.GenerateRelatedPalettes: it requires every base colour to be
  valid hex, for the same reason.
- PaletteView.BaseHslAt: the same requirement on the base colours.
- PaletteView.RelatedAt: the same requirement on the base colours.
- PaletteView.RelatedLayout: the same requirement on the base colours.
- PaletteView.OnlyFirstTwoCount: the same requirement on the base colours.
- PaletteView.RelatedAreHex: the same requirement on the base colours.
- **Case and whitespace.** `toLowerCase` lowers ASCII letters only; full
  Unicode case mapping is not modelled. `trim` strips JavaScript's
  WhiteSpace and LineTerminator characters.
- **The detail view's sort.** `Array.sort` is modelled as an insertion
  sort over an array. Its result is stated by sortedness and permutation.
  Stability among equal lightness is not stated.
- **The detail view's `hslToHex`.** It duplicates the grid's and is
  modelled once (`ColorFormat.HslToHex`).
- **Hoisted conversions.** `hexToHsl` of each base colour is pure, so it is
  computed before the loops of `generateRelatedPalettes` and
  `generateShades`.
- **The colour names table.** In the model it is a list of name/colour
  pairs, and the representatives table is a list of names beside a list of
  colours. Lookup follows the source's key order.
- PaletteGrid.PushBatch: it calls the generators through `Sources` rather
  than through `RelatedColors.GenerateRelatedColors`, which is proved
  equal to the uncapped `RelatedColors.RelatedColorList` separately.
- **Shade count.** A base lightness that rounds to 0 or 100 skips no step,
  and `generateShades` then returns 9 shades. The model follows the code.

## Findings

| source | as written | input that shows it | evidently intended | confidence | as-written member | corrected member |
|---|---|---|---|---|---|---|
| palettepro-cloudflare-pages/src/components/PaletteGrid.tsx:47 (also 52 and 57) | the new saturation is `Math.max(30, s + jitter)`, with no upper bound, so it can exceed 100 | base `#ff0000` (saturation 100) with a first draw of 40/41, so the saturation jitter is +20; the complement is `hslToHex(180, 120, 50)`, whose red channel rounds to -25 and prints as `#-19119119` | saturation capped at 100, so that every generated colour is a valid hex colour | not executed | RelatedColors.GenerateRelatedColors, RelatedColors.UncappedSaturationLeavesHex, PaletteGrid.SearchBatchLeavesHex | RelatedColors.RelatedColorList, RelatedColors.RelatedColorsAreHex, PaletteGrid.GeneratedFacts |
