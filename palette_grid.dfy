/**
 * The palette grid's batch generator (`generatePalettes`) and its search
 * and category filter (`filteredPalettes`). The batch is a function of the
 * search term, the active filter and the random stream; the component state
 * it is stored in is not modelled.
 */
module PaletteGrid {
  import opened Text
  import opened Random
  import opened ColorSearch
  import opened CategoryPalettes
  import opened RelatedColors

  /** A generated palette; the source also carries a timestamped id. */
  datatype Palette = Palette(colors: seq<string>, name: string, category: string)

  /** The category of palettes derived from the search colour. */
  const SearchResults: string := "Search Results"

  /** The categories that get two palettes each beside the search results. */
  const SearchCategories: seq<string> := ["Bright", "Dark", "Neon", "Pastel", "Warm", "Cool", "Popular"]

  // ---------------------------------------------------------------------
  // The two colour generators

  /**
   * The colour generators a batch calls, each drawing from a cursor:
   * `generateRelatedColors(color, count)`, defined on valid hex colours,
   * and `generateCategoryPalette(category)`. The batch below is defined
   * for any such pair; `Live` is the pair of this model, with the related
   * colours as written or with saturation capped.
   */
  datatype Sources = Sources(related: (string, nat, nat) --> Draw<seq<string>>, category: (string, nat) -> Draw<seq<string>>)

  /** `count` colours (at least one), `color` first. */
  predicate RelatedShape(color: string, count: nat, colors: seq<string>) {
    |colors| == (if count > 1 then count else 1) && colors[0] == color
  }

  /**
   * What the batch relies on: the related colours of a valid hex colour
   * are defined and have `RelatedShape`; a category palette is four valid
   * hex colours.
   */
  ghost predicate Sound(src: Sources) {
    && (forall color, count: nat, at: nat :: IsValidHex(color) ==>
          src.related.requires(color, count, at) && RelatedShape(color, count, src.related(color, count, at).value))
    && (forall category, at: nat :: |src.category(category, at).value| == 4 && AllHex(src.category(category, at).value))
  }

  /** What only the capped generator promises: related colours are all valid hex. */
  ghost predicate RelatedHex(src: Sources) {
    forall color, count: nat, at: nat :: IsValidHex(color) ==>
      src.related.requires(color, count, at) && AllHex(src.related(color, count, at).value)
  }

  /**
   * `generateRelatedColors` and `generateCategoryPalette` on the random
   * stream; `capped == false` is the related-colour generator as written.
   */
  function Live(rnd: Oracle, capped: bool): Sources {
    Sources((color: string, count: nat, at: nat) requires IsValidHex(color) => RelatedColorList(color, count, capped, rnd, at),
            (category: string, at: nat) => CategoryPalette(category, rnd, at))
  }

  /** Both generators have the shape the batch relies on; with the cap, also valid hex throughout. */
  lemma LiveIsSound(rnd: Oracle, capped: bool)
    ensures Sound(Live(rnd, capped))
    ensures capped ==> RelatedHex(Live(rnd, capped))
  {
    forall category, at: nat
      ensures |CategoryPalette(category, rnd, at).value| == 4 && AllHex(CategoryPalette(category, rnd, at).value)
    {
      CategoryPaletteIsHex(category, rnd, at);
    }
    if capped {
      forall color, count: nat, at: nat | IsValidHex(color)
        ensures AllHex(RelatedColorList(color, count, true, rnd, at).value)
      {
        RelatedColorsAreHex(color, count, rnd, at);
      }
    }
  }

  // ---------------------------------------------------------------------
  // The batch as a value

  /**
   * The body of one of the batch's loops, by kind: a palette related to
   * the search colour; a palette of a category, with or without its number
   * in the name; a palette of the active category with the search colour
   * written into one slot.
   */
  datatype Entry =
    | RelatedTo(color: string, term: string)
    | Sampled(category: string, numbered: bool)
    | WithSearch(filter: string, color: string, term: string)

  predicate EntryOk(e: Entry) {
    match e
    case RelatedTo(color, _) => IsValidHex(color)
    case Sampled(_, _) => true
    case WithSearch(_, color, _) => IsValidHex(color)
  }

  /** Iteration `k` (from 0) of the loop `e` describes. */
  function MakeEntry(e: Entry, k: nat, src: Sources, rnd: Oracle, at: nat): (d: Draw<Palette>)
    requires EntryOk(e) && Sound(src)
  {
    match e
    case RelatedTo(color, term) =>
      var colors := src.related(color, 4, at);
      Draw(Palette(colors.value, term + " Related " + Decimal(k + 1), SearchResults), colors.next)
    case Sampled(category, numbered) =>
      var colors := src.category(category, at);
      var name := if numbered then category + " Palette " + Decimal(k + 1) else category + " Palette";
      Draw(Palette(colors.value, name, category), colors.next)
    case WithSearch(filter, color, term) =>
      var colors := src.category(filter, at);
      var related := src.related(color, 1, colors.next);
      var slot := Index(rnd, related.next, |colors.value|);
      var written := if rnd(slot.next) > 0.5 then color else related.value[0];
      Draw(Palette(colors.value[slot.value := written], filter + " with " + term + " " + Decimal(k + 1), filter),
           slot.next + 1)
  }

  /** Iterations `i` to `n - 1` of the loop `e` describes. */
  function Run(e: Entry, i: nat, n: nat, src: Sources, rnd: Oracle, at: nat): (d: Draw<seq<Palette>>)
    requires EntryOk(e) && Sound(src)
    ensures |d.value| == if i < n then n - i else 0
    decreases n - i
  {
    if i >= n then Draw([], at)
    else
      var first := MakeEntry(e, i, src, rnd, at);
      var rest := Run(e, i + 1, n, src, rnd, first.next);
      Draw([first.value] + rest.value, rest.next)
  }

  /** Palettes per category: two beside search results, else three, four for the popular one. */
  function PerCategory(category: string, search: bool): nat {
    if search then 2 else if category == "Popular" then 4 else 3
  }

  /** The nested loop over a category list. */
  function Sweep(categories: seq<string>, search: bool, src: Sources, rnd: Oracle, at: nat): (d: Draw<seq<Palette>>)
    requires Sound(src)
    ensures |d.value| == SweepSize(categories, search)
    decreases |categories|
  {
    if categories == [] then Draw([], at)
    else
      var first := Run(Sampled(categories[0], !search), 0, PerCategory(categories[0], search), src, rnd, at);
      var rest := Sweep(categories[1..], search, src, rnd, first.next);
      Draw(first.value + rest.value, rest.next)
  }

  function SweepSize(categories: seq<string>, search: bool): nat
    decreases |categories|
  {
    if categories == [] then 0 else PerCategory(categories[0], search) + SweepSize(categories[1..], search)
  }

  /** `searchTerm ? getSearchColor(searchTerm) : null`. */
  function SearchColor(searchTerm: string): (r: Option<string>)
    ensures r.Some? ==> IsValidHex(r.value) && searchTerm != ""
  {
    if searchTerm != "" then GetSearchColor(searchTerm) else None
  }

  /** Whether the batch is shuffled: every branch except the plain single-category one. */
  predicate Shuffled(searchColor: Option<string>, searchTerm: string, activeFilter: string) {
    searchColor.Some? || activeFilter == "All" || searchTerm != ""
  }

  /** The batch in push order, before any shuffle, given the search colour. */
  function Unshuffled(searchColor: Option<string>, searchTerm: string, activeFilter: string,
                      src: Sources, rnd: Oracle, at: nat): (d: Draw<seq<Palette>>)
    requires searchColor.Some? ==> IsValidHex(searchColor.value) && searchTerm != ""
    requires Sound(src)
  {
    match searchColor
    case Some(color) =>
      if activeFilter == "All" then
        var related := Run(RelatedTo(color, searchTerm), 0, 12, src, rnd, at);
        var sampled := Sweep(SearchCategories, true, src, rnd, related.next);
        Draw(related.value + sampled.value, sampled.next)
      else
        var mixed := Run(WithSearch(activeFilter, color, searchTerm), 0, 16, src, rnd, at);
        var related := Run(RelatedTo(color, searchTerm), 0, 8, src, rnd, mixed.next);
        Draw(mixed.value + related.value, related.next)
    case None =>
      if activeFilter == "All" || searchTerm != "" then Sweep(AllCategories, false, src, rnd, at)
      else Run(Sampled(activeFilter, true), 0, 24, src, rnd, at)
  }

  // ---------------------------------------------------------------------
  // Fisher–Yates shuffle

  function Swap<T>(s: seq<T>, i: nat, j: nat): (r: seq<T>)
    requires i < |s| && j < |s|
    ensures |r| == |s|
  {
    s[i := s[j]][j := s[i]]
  }

  /** Exchanging two entries keeps the multiset of elements. */
  lemma SwapPermutes<T>(s: seq<T>, i: nat, j: nat)
    requires i < |s| && j < |s|
    ensures multiset(Swap(s, i, j)) == multiset(s)
  {
  }

  /** The shuffle loop from index `i` down to 1, each step drawing `j` in [0, i]. */
  function FisherYates<T>(s: seq<T>, i: int, rnd: Oracle, at: nat): (d: Draw<seq<T>>)
    requires i < |s|
    decreases i
  {
    if i <= 0 then Draw(s, at)
    else
      var j := Index(rnd, at, i + 1);
      FisherYates(Swap(s, i, j.value), i - 1, rnd, j.next)
  }

  /** The shuffle only reorders: same length, same multiset of elements. */
  lemma {:induction false} FisherYatesPermutes<T>(s: seq<T>, i: int, rnd: Oracle, at: nat)
    requires i < |s|
    ensures |FisherYates(s, i, rnd, at).value| == |s|
    ensures multiset(FisherYates(s, i, rnd, at).value) == multiset(s)
    decreases i
  {
    if i > 0 {
      var j := Index(rnd, at, i + 1);
      SwapPermutes(s, i, j.value);
      FisherYatesPermutes(Swap(s, i, j.value), i - 1, rnd, j.next);
    }
  }

  /** The shuffle loop, in place. */
  method Shuffle<T>(a: array<T>, rnd: Oracle, at: nat) returns (next: nat)
    modifies a
    ensures a[..] == FisherYates(old(a[..]), a.Length - 1, rnd, at).value
    ensures next == FisherYates(old(a[..]), a.Length - 1, rnd, at).next
  {
    ghost var whole := FisherYates(a[..], a.Length - 1, rnd, at);
    next := at;
    var i := a.Length - 1;
    while i > 0
      invariant -1 <= i < a.Length
      invariant whole == FisherYates(a[..], i, rnd, next)
      decreases i
    {
      var j := Index(rnd, next, i + 1);
      ghost var swapped := Swap(a[..], i, j.value);
      assert FisherYates(a[..], i, rnd, next) == FisherYates(swapped, i - 1, rnd, j.next);
      a[i], a[j.value] := a[j.value], a[i];
      assert a[..] == swapped;
      next := j.next;
      i := i - 1;
    }
  }

  /** The batch for a given search colour: the pushes, then the shuffle where there is one. */
  function GeneratedFrom(searchColor: Option<string>, searchTerm: string, activeFilter: string,
                         src: Sources, rnd: Oracle, at: nat): Draw<seq<Palette>>
    requires searchColor.Some? ==> IsValidHex(searchColor.value) && searchTerm != ""
    requires Sound(src)
  {
    var batch := Unshuffled(searchColor, searchTerm, activeFilter, src, rnd, at);
    if Shuffled(searchColor, searchTerm, activeFilter) then FisherYates(batch.value, |batch.value| - 1, rnd, batch.next)
    else batch
  }

  /**
   * The batch `generatePalettes` stores, as a value: `capped == false` is
   * the component as written, `capped == true` the corrected one.
   */
  function Generated(searchTerm: string, activeFilter: string, capped: bool, rnd: Oracle, at: nat): Draw<seq<Palette>> {
    LiveIsSound(rnd, capped);
    GeneratedFrom(SearchColor(searchTerm), searchTerm, activeFilter, Live(rnd, capped), rnd, at)
  }

  // ---------------------------------------------------------------------
  // The batch, step by step

  /** One iteration of a loop of the batch. */
  method NewEntry(e: Entry, k: nat, src: Sources, rnd: Oracle, at: nat) returns (p: Palette, next: nat)
    requires EntryOk(e) && Sound(src)
    ensures Draw(p, next) == MakeEntry(e, k, src, rnd, at)
  {
    match e
    case RelatedTo(color, term) =>
      var colors := src.related(color, 4, at);
      p := Palette(colors.value, term + " Related " + Decimal(k + 1), SearchResults);
      next := colors.next;
    case Sampled(category, numbered) =>
      var colors := src.category(category, at);
      var name := if numbered then category + " Palette " + Decimal(k + 1) else category + " Palette";
      p, next := Palette(colors.value, name, category), colors.next;
    case WithSearch(filter, color, term) =>
      var drawn := src.category(filter, at);
      var categoryColors := drawn.value;
      var related := src.related(color, 1, drawn.next);
      var searchRelated := related.value[0];
      var slot := Index(rnd, related.next, |categoryColors|);
      categoryColors := categoryColors[slot.value := if rnd(slot.next) > 0.5 then color else searchRelated];
      p := Palette(categoryColors, filter + " with " + term + " " + Decimal(k + 1), filter);
      next := slot.next + 1;
  }

  lemma AppendAssoc<T>(a: seq<T>, b: seq<T>, c: seq<T>)
    ensures a + (b + c) == (a + b) + c
  {
  }

  lemma AppendEmpty<T>(a: seq<T>)
    ensures [] + a == a
  {
  }

  lemma RunUnfold(e: Entry, i: nat, n: nat, src: Sources, rnd: Oracle, at: nat)
    requires EntryOk(e) && Sound(src) && i < n
    ensures var first := MakeEntry(e, i, src, rnd, at);
      var rest := Run(e, i + 1, n, src, rnd, first.next);
      && Run(e, i, n, src, rnd, at).value == [first.value] + rest.value
      && Run(e, i, n, src, rnd, at).next == rest.next
  {
  }

  /** A `for (let i = 0; i < n; i++)` loop of the batch, pushing onto `palettes`. */
  method PushRun(palettes: seq<Palette>, e: Entry, n: nat, src: Sources, rnd: Oracle, at: nat)
    returns (out: seq<Palette>, next: nat)
    requires EntryOk(e) && Sound(src)
    ensures out == palettes + Run(e, 0, n, src, rnd, at).value
    ensures next == Run(e, 0, n, src, rnd, at).next
  {
    out, next := palettes, at;
    var i := 0;
    while i < n
      invariant i <= n
      invariant palettes + Run(e, 0, n, src, rnd, at).value == out + Run(e, i, n, src, rnd, next).value
      invariant Run(e, 0, n, src, rnd, at).next == Run(e, i, n, src, rnd, next).next
      decreases n - i
    {
      var p, after := NewEntry(e, i, src, rnd, next);
      RunUnfold(e, i, n, src, rnd, next);
      AppendAssoc(out, [p], Run(e, i + 1, n, src, rnd, after).value);
      out, next := out + [p], after;
      i := i + 1;
    }
  }

  lemma SweepUnfold(categories: seq<string>, c: nat, search: bool, src: Sources, rnd: Oracle, at: nat)
    requires c < |categories| && Sound(src)
    ensures var first := Run(Sampled(categories[c], !search), 0, PerCategory(categories[c], search), src, rnd, at);
      var rest := Sweep(categories[c + 1..], search, src, rnd, first.next);
      && Sweep(categories[c..], search, src, rnd, at).value == first.value + rest.value
      && Sweep(categories[c..], search, src, rnd, at).next == rest.next
  {
    assert categories[c..][1..] == categories[c + 1..];
  }

  /** `for (const category of categories)` around a per-category loop. */
  method PushSweep(palettes: seq<Palette>, categories: seq<string>, search: bool, src: Sources, rnd: Oracle, at: nat)
    returns (out: seq<Palette>, next: nat)
    requires Sound(src)
    ensures out == palettes + Sweep(categories, search, src, rnd, at).value
    ensures next == Sweep(categories, search, src, rnd, at).next
  {
    out, next := palettes, at;
    var c := 0;
    assert categories[0..] == categories;
    while c < |categories|
      invariant c <= |categories|
      invariant palettes + Sweep(categories, search, src, rnd, at).value
        == out + Sweep(categories[c..], search, src, rnd, next).value
      invariant Sweep(categories, search, src, rnd, at).next == Sweep(categories[c..], search, src, rnd, next).next
      decreases |categories| - c
    {
      var category := categories[c];
      SweepUnfold(categories, c, search, src, rnd, next);
      ghost var before, cursor := out, next;
      ghost var first := Run(Sampled(category, !search), 0, PerCategory(category, search), src, rnd, cursor);
      out, next := PushRun(out, Sampled(category, !search), PerCategory(category, search), src, rnd, next);
      ghost var rest := Sweep(categories[c + 1..], search, src, rnd, next).value;
      AppendAssoc(before, first.value, rest);
      c := c + 1;
    }
  }

  /** Copies the batch into an array, shuffles it in place and reads it back. */
  method ShuffleBatch(batch: seq<Palette>, rnd: Oracle, at: nat) returns (shuffled: seq<Palette>, next: nat)
    ensures shuffled == FisherYates(batch, |batch| - 1, rnd, at).value
    ensures next == FisherYates(batch, |batch| - 1, rnd, at).next
  {
    var a := new Palette[|batch|](k requires 0 <= k < |batch| => batch[k]);
    assert a[..] == batch;
    next := Shuffle(a, rnd, at);
    shuffled := a[..];
  }

  /** The pushes of `generatePalettes`, branch by branch. */
  method PushBatch(searchColor: Option<string>, searchTerm: string, activeFilter: string, src: Sources, rnd: Oracle, at: nat)
    returns (batch: seq<Palette>, next: nat)
    requires searchColor.Some? ==> IsValidHex(searchColor.value) && searchTerm != ""
    requires Sound(src)
    ensures batch == Unshuffled(searchColor, searchTerm, activeFilter, src, rnd, at).value
    ensures next == Unshuffled(searchColor, searchTerm, activeFilter, src, rnd, at).next
  {
    if searchColor.Some? && activeFilter == "All" {
      batch, next := PushRun([], RelatedTo(searchColor.value, searchTerm), 12, src, rnd, at);
      AppendEmpty(Run(RelatedTo(searchColor.value, searchTerm), 0, 12, src, rnd, at).value);
      batch, next := PushSweep(batch, SearchCategories, true, src, rnd, next);
    } else if searchColor.Some? {
      batch, next := PushRun([], WithSearch(activeFilter, searchColor.value, searchTerm), 16, src, rnd, at);
      AppendEmpty(Run(WithSearch(activeFilter, searchColor.value, searchTerm), 0, 16, src, rnd, at).value);
      batch, next := PushRun(batch, RelatedTo(searchColor.value, searchTerm), 8, src, rnd, next);
    } else if activeFilter == "All" || searchTerm != "" {
      batch, next := PushSweep([], AllCategories, false, src, rnd, at);
      AppendEmpty(Sweep(AllCategories, false, src, rnd, at).value);
    } else {
      batch, next := PushRun([], Sampled(activeFilter, true), 24, src, rnd, at);
      AppendEmpty(Run(Sampled(activeFilter, true), 0, 24, src, rnd, at).value);
    }
  }

  /** The pushes and, except for a plain category, the shuffle. */
  method PushAndShuffle(searchColor: Option<string>, searchTerm: string, activeFilter: string,
                        src: Sources, rnd: Oracle, at: nat)
    returns (palettes: seq<Palette>, next: nat)
    requires searchColor.Some? ==> IsValidHex(searchColor.value) && searchTerm != ""
    requires Sound(src)
    ensures palettes == GeneratedFrom(searchColor, searchTerm, activeFilter, src, rnd, at).value
    ensures next == GeneratedFrom(searchColor, searchTerm, activeFilter, src, rnd, at).next
  {
    palettes, next := PushBatch(searchColor, searchTerm, activeFilter, src, rnd, at);
    if searchColor.Some? || activeFilter == "All" || searchTerm != "" {
      palettes, next := ShuffleBatch(palettes, rnd, next);
    }
  }

  /** `generatePalettes` as written: the search colour, then the batch for it. */
  method GeneratePalettes(searchTerm: string, activeFilter: string, rnd: Oracle, at: nat)
    returns (palettes: seq<Palette>, next: nat)
    ensures palettes == Generated(searchTerm, activeFilter, false, rnd, at).value
    ensures next == Generated(searchTerm, activeFilter, false, rnd, at).next
  {
    var searchColor := SearchColor(searchTerm);
    LiveIsSound(rnd, false);
    palettes, next := PushAndShuffle(searchColor, searchTerm, activeFilter, Live(rnd, false), rnd, at);
  }

  // ---------------------------------------------------------------------
  // What the batch contains

  /**
   * What every palette pushed by the loop `e` looks like; a related palette
   * is valid hex only when the related colours are (`hex`).
   */
  predicate Shaped(e: Entry, p: Palette, hex: bool) {
    && |p.colors| == 4
    && ((hex || !e.RelatedTo?) ==> AllHex(p.colors))
    && match e
       case RelatedTo(color, _) => p.colors[0] == color && p.category == SearchResults
       case Sampled(category, _) => p.category == category
       case WithSearch(filter, color, _) => color in p.colors && p.category == filter
  }

  /**
   * Each iteration yields four colours, valid hex except perhaps those of a
   * related palette: a related palette starts
   * with the search colour; a palette of the active category has the
   * search colour written into one of its slots, whichever way the coin
   * falls, since the related colour asked for with count 1 is the search
   * colour itself.
   */
  lemma MakeEntryShaped(e: Entry, k: nat, src: Sources, rnd: Oracle, at: nat, hex: bool)
    requires EntryOk(e) && Sound(src) && (hex ==> RelatedHex(src))
    ensures Shaped(e, MakeEntry(e, k, src, rnd, at).value, hex)
  {
    match e
    case RelatedTo(color, _) =>
      assert hex ==> AllHex(src.related(color, 4, at).value);
    case Sampled(category, _) =>
    case WithSearch(filter, color, _) =>
      var colors := src.category(filter, at);
      var related := src.related(color, 1, colors.next);
      var slot := Index(rnd, related.next, |colors.value|);
      var written := colors.value[slot.value := color];
      assert MakeEntry(e, k, src, rnd, at).value.colors == written;
      assert written[slot.value] == color;
      assert forall c <- written :: c == color || c in colors.value;
  }

  lemma {:induction false} RunShaped(e: Entry, i: nat, n: nat, src: Sources, rnd: Oracle, at: nat, hex: bool)
    requires EntryOk(e) && Sound(src) && (hex ==> RelatedHex(src))
    ensures forall p <- Run(e, i, n, src, rnd, at).value :: Shaped(e, p, hex)
    decreases n - i
  {
    if i < n {
      var first := MakeEntry(e, i, src, rnd, at);
      MakeEntryShaped(e, i, src, rnd, at, hex);
      RunShaped(e, i + 1, n, src, rnd, first.next, hex);
    }
  }

  /** A sweep yields four valid hex colours per palette, each of one of its categories. */
  lemma {:induction false} SweepShaped(categories: seq<string>, search: bool, src: Sources, rnd: Oracle, at: nat)
    requires Sound(src)
    ensures forall p <- Sweep(categories, search, src, rnd, at).value ::
      |p.colors| == 4 && AllHex(p.colors) && p.category in categories
    decreases |categories|
  {
    if categories != [] {
      var e := Sampled(categories[0], !search);
      var first := Run(e, 0, PerCategory(categories[0], search), src, rnd, at);
      RunShaped(e, 0, PerCategory(categories[0], search), src, rnd, at, false);
      SweepShaped(categories[1..], search, src, rnd, first.next);
      assert forall c <- categories[1..] :: c in categories;
    }
  }

  /** Palettes `ps` are named `<category> Palette <n>` with `n` counting up from `i + 1`. */
  predicate NumberedFrom(ps: seq<Palette>, category: string, i: nat) {
    forall k :: 0 <= k < |ps| ==> ps[k].name == category + " Palette " + Decimal(i + k + 1)
  }

  /** The palettes of a plain category are numbered from 1 in push order. */
  lemma {:induction false} RunNames(category: string, i: nat, n: nat, src: Sources, rnd: Oracle, at: nat)
    requires Sound(src)
    ensures NumberedFrom(Run(Sampled(category, true), i, n, src, rnd, at).value, category, i)
    decreases n - i
  {
    if i < n {
      var first := MakeEntry(Sampled(category, true), i, src, rnd, at);
      RunNames(category, i + 1, n, src, rnd, first.next);
      var ps := Run(Sampled(category, true), i, n, src, rnd, at).value;
      var rest := Run(Sampled(category, true), i + 1, n, src, rnd, first.next).value;
      assert ps == [first.value] + rest;
      NumberedCons(first.value, rest, category, i);
    }
  }

  lemma NumberedCons(p: Palette, rest: seq<Palette>, category: string, i: nat)
    requires p.name == category + " Palette " + Decimal(i + 1)
    requires NumberedFrom(rest, category, i + 1)
    ensures NumberedFrom([p] + rest, category, i)
  {
    var ps := [p] + rest;
    forall k | 0 < k < |ps| ensures ps[k].name == category + " Palette " + Decimal(i + k + 1) {
      assert ps[k] == rest[k - 1];
      assert rest[k - 1].name == category + " Palette " + Decimal((i + 1) + (k - 1) + 1);
    }
  }

  /** Shuffling keeps exactly the palettes it was given. */
  lemma ShuffleKeeps<T>(s: seq<T>, rnd: Oracle, at: nat)
    ensures |FisherYates(s, |s| - 1, rnd, at).value| == |s|
    ensures forall x :: x in FisherYates(s, |s| - 1, rnd, at).value <==> x in s
  {
    FisherYatesPermutes(s, |s| - 1, rnd, at);
    var r := FisherYates(s, |s| - 1, rnd, at).value;
    forall x ensures x in r <==> x in s {
      assert x in r <==> x in multiset(r);
      assert x in s <==> x in multiset(s);
    }
  }

  lemma SweepSizes()
    ensures SweepSize(SearchCategories, true) == 14
    ensures SweepSize(AllCategories, false) == 31
  {
    assert SweepSize(SearchCategories[7..], true) == 0;
    assert SweepSize(SearchCategories[6..], true) == 2;
    assert SweepSize(SearchCategories[5..], true) == 4;
    assert SweepSize(SearchCategories[4..], true) == 6;
    assert SweepSize(SearchCategories[3..], true) == 8;
    assert SweepSize(SearchCategories[2..], true) == 10;
    assert SweepSize(SearchCategories[1..], true) == 12;
    assert SweepSize(AllCategories[10..], false) == 0;
    assert SweepSize(AllCategories[9..], false) == 4;
    assert SweepSize(AllCategories[8..], false) == 7;
    assert SweepSize(AllCategories[7..], false) == 10;
    assert SweepSize(AllCategories[6..], false) == 13;
    assert SweepSize(AllCategories[5..], false) == 16;
    assert SweepSize(AllCategories[4..], false) == 19;
    assert SweepSize(AllCategories[3..], false) == 22;
    assert SweepSize(AllCategories[2..], false) == 25;
    assert SweepSize(AllCategories[1..], false) == 28;
  }

  /** The number of palettes per branch: 12 + 7 * 2, 16 + 8, 9 * 3 + 4, and 24. */
  function BatchSize(searchColor: Option<string>, searchTerm: string, activeFilter: string): nat {
    if searchColor.Some? then (if activeFilter == "All" then 26 else 24)
    else if activeFilter == "All" || searchTerm != "" then 31
    else 24
  }

  /**
   * What the batch holds, whatever its order: four colours per palette,
   * valid hex except perhaps in a search result when the related colours
   * are not (`hex` false); with a search colour and the `All` filter,
   * related palettes starting with it and palettes of the seven search
   * categories; with a search colour and another filter, the search colour
   * in every palette; without one, palettes of the ten categories or of the
   * active filter.
   */
  ghost predicate Contents(searchColor: Option<string>, activeFilter: string, ps: seq<Palette>, hex: bool) {
    && (forall p <- ps :: |p.colors| == 4 && ((hex || p.category != SearchResults) ==> AllHex(p.colors)))
    && (searchColor.Some? && activeFilter == "All" ==>
          forall p <- ps :: (p.category == SearchResults && p.colors[0] == searchColor.value)
                            || p.category in SearchCategories)
    && (searchColor.Some? && activeFilter != "All" ==>
          forall p <- ps :: searchColor.value in p.colors
                            && (p.category == activeFilter || p.category == SearchResults))
    && (searchColor.None? ==> forall p <- ps :: p.category in AllCategories || p.category == activeFilter)
  }

  /** The size, contents and (unshuffled) numbering a batch `ps` of the given branch has. */
  ghost predicate BatchFacts(searchColor: Option<string>, searchTerm: string, activeFilter: string, ps: seq<Palette>, hex: bool) {
    && |ps| == BatchSize(searchColor, searchTerm, activeFilter)
    && Contents(searchColor, activeFilter, ps, hex)
    && (!Shuffled(searchColor, searchTerm, activeFilter) ==> NumberedFrom(ps, activeFilter, 0))
  }

  lemma SearchAllBatch(color: string, searchTerm: string, src: Sources, rnd: Oracle, at: nat, hex: bool)
    requires IsValidHex(color) && searchTerm != "" && Sound(src) && (hex ==> RelatedHex(src))
    ensures var ps := Unshuffled(Some(color), searchTerm, "All", src, rnd, at).value;
      |ps| == 26 && Contents(Some(color), "All", ps, hex)
  {
    var related := Run(RelatedTo(color, searchTerm), 0, 12, src, rnd, at);
    RunShaped(RelatedTo(color, searchTerm), 0, 12, src, rnd, at, hex);
    SweepShaped(SearchCategories, true, src, rnd, related.next);
    SweepSizes();
  }

  lemma SearchFilterBatch(color: string, searchTerm: string, activeFilter: string, src: Sources, rnd: Oracle, at: nat, hex: bool)
    requires IsValidHex(color) && searchTerm != "" && activeFilter != "All" && Sound(src) && (hex ==> RelatedHex(src))
    ensures var ps := Unshuffled(Some(color), searchTerm, activeFilter, src, rnd, at).value;
      |ps| == 24 && Contents(Some(color), activeFilter, ps, hex)
  {
    var mixed := Run(WithSearch(activeFilter, color, searchTerm), 0, 16, src, rnd, at);
    var related := Run(RelatedTo(color, searchTerm), 0, 8, src, rnd, mixed.next);
    var ps := Unshuffled(Some(color), searchTerm, activeFilter, src, rnd, at).value;
    assert ps == mixed.value + related.value;
    RunShaped(WithSearch(activeFilter, color, searchTerm), 0, 16, src, rnd, at, hex);
    RunShaped(RelatedTo(color, searchTerm), 0, 8, src, rnd, mixed.next, hex);
    forall p <- ps
      ensures |p.colors| == 4 && ((hex || p.category != SearchResults) ==> AllHex(p.colors))
      ensures color in p.colors && (p.category == activeFilter || p.category == SearchResults)
    {
      if p in related.value {
        assert Shaped(RelatedTo(color, searchTerm), p, hex);
        assert p.colors[0] == color;
      } else {
        assert Shaped(WithSearch(activeFilter, color, searchTerm), p, hex);
      }
    }
  }

  lemma SweepBatch(searchTerm: string, activeFilter: string, src: Sources, rnd: Oracle, at: nat, hex: bool)
    requires (activeFilter == "All" || searchTerm != "") && Sound(src)
    ensures var ps := Unshuffled(None, searchTerm, activeFilter, src, rnd, at).value;
      |ps| == 31 && Contents(None, activeFilter, ps, hex)
  {
    SweepShaped(AllCategories, false, src, rnd, at);
    SweepSizes();
  }

  lemma PlainBatch(activeFilter: string, src: Sources, rnd: Oracle, at: nat, hex: bool)
    requires activeFilter != "All" && Sound(src)
    ensures var ps := Unshuffled(None, "", activeFilter, src, rnd, at).value;
      |ps| == 24 && Contents(None, activeFilter, ps, hex) && NumberedFrom(ps, activeFilter, 0)
  {
    RunShaped(Sampled(activeFilter, true), 0, 24, src, rnd, at, false);
    RunNames(activeFilter, 0, 24, src, rnd, at);
  }

  /** The pushes, branch by branch, give a batch with the facts of its branch. */
  lemma UnshuffledFacts(searchColor: Option<string>, searchTerm: string, activeFilter: string,
                        src: Sources, rnd: Oracle, at: nat, hex: bool)
    requires searchColor.Some? ==> IsValidHex(searchColor.value) && searchTerm != ""
    requires Sound(src) && (hex ==> RelatedHex(src))
    ensures BatchFacts(searchColor, searchTerm, activeFilter, Unshuffled(searchColor, searchTerm, activeFilter, src, rnd, at).value, hex)
  {
    if searchColor.Some? && activeFilter == "All" {
      SearchAllBatch(searchColor.value, searchTerm, src, rnd, at, hex);
    } else if searchColor.Some? {
      SearchFilterBatch(searchColor.value, searchTerm, activeFilter, src, rnd, at, hex);
    } else if activeFilter == "All" || searchTerm != "" {
      SweepBatch(searchTerm, activeFilter, src, rnd, at, hex);
    } else {
      PlainBatch(activeFilter, src, rnd, at, hex);
    }
  }

  /** Shuffling keeps the size and the contents of a batch. */
  lemma ShuffleKeepsContents(searchColor: Option<string>, activeFilter: string, batch: seq<Palette>, hex: bool, rnd: Oracle, at: nat)
    requires Contents(searchColor, activeFilter, batch, hex)
    ensures |FisherYates(batch, |batch| - 1, rnd, at).value| == |batch|
    ensures Contents(searchColor, activeFilter, FisherYates(batch, |batch| - 1, rnd, at).value, hex)
  {
    ShuffleKeeps(batch, rnd, at);
  }

  /**
   * The batch for a given search colour has the size of its branch and the
   * contents `Contents` describes; the plain single-category batch is not
   * shuffled and is numbered from 1 in order.
   */
  lemma GeneratedFromFacts(searchColor: Option<string>, searchTerm: string, activeFilter: string,
                           src: Sources, rnd: Oracle, at: nat, hex: bool)
    requires searchColor.Some? ==> IsValidHex(searchColor.value) && searchTerm != ""
    requires Sound(src) && (hex ==> RelatedHex(src))
    ensures BatchFacts(searchColor, searchTerm, activeFilter, GeneratedFrom(searchColor, searchTerm, activeFilter, src, rnd, at).value, hex)
  {
    var batch := Unshuffled(searchColor, searchTerm, activeFilter, src, rnd, at);
    UnshuffledFacts(searchColor, searchTerm, activeFilter, src, rnd, at, hex);
    if Shuffled(searchColor, searchTerm, activeFilter) {
      ShuffleKeepsContents(searchColor, activeFilter, batch.value, hex, rnd, batch.next);
    }
  }

  /**
   * The same facts for `generatePalettes`, whose search colour comes from
   * `getSearchColor`: as written, every palette outside the search results
   * is valid hex; with the cap, every palette is.
   */
  lemma GeneratedFacts(searchTerm: string, activeFilter: string, capped: bool, rnd: Oracle, at: nat)
    ensures var ps := Generated(searchTerm, activeFilter, capped, rnd, at).value;
      && |ps| == BatchSize(SearchColor(searchTerm), searchTerm, activeFilter)
      && Contents(SearchColor(searchTerm), activeFilter, ps, capped)
  {
    LiveIsSound(rnd, capped);
    GeneratedFromFacts(SearchColor(searchTerm), searchTerm, activeFilter, Live(rnd, capped), rnd, at, capped);
  }

  /**
   * As written, a batch can hold a colour that is not valid hex: searching
   * for `#ff0000` with the `All` filter, the first related palette's second
   * colour is the uncapped complement of `#ff0000`.
   */
  lemma SearchBatchLeavesHex(searchTerm: string, rnd: Oracle, at: nat)
    requires Normalize(searchTerm) == "#ff0000"
    requires rnd(at) == 40.0 / 41.0 && rnd(at + 1) == 15.0 / 31.0
    ensures exists p <- Generated(searchTerm, "All", false, rnd, at).value :: !AllHex(p.colors)
  {
    assert SearchColor(searchTerm) == Some("#ff0000") by {
      GetSearchColorSteps(searchTerm);
    }
    UncappedSaturationLeavesHex(4, rnd, at);
    RelatedLeavesHexInBatch(searchTerm, "#ff0000", rnd, at);
  }

  /**
   * Whenever the related colours of the search colour as written leave the
   * hex form, so does a palette of the batch for the `All` filter.
   */
  lemma RelatedLeavesHexInBatch(searchTerm: string, color: string, rnd: Oracle, at: nat)
    requires SearchColor(searchTerm) == Some(color)
    requires !IsValidHex(RelatedColorList(color, 4, false, rnd, at).value[1])
    ensures exists p <- Generated(searchTerm, "All", false, rnd, at).value :: !AllHex(p.colors)
  {
    var src := Live(rnd, false);
    LiveIsSound(rnd, false);
    var first := MakeEntry(RelatedTo(color, searchTerm), 0, src, rnd, at).value;
    FirstRelatedInBatch(color, searchTerm, src, rnd, at);
    assert first.colors == src.related(color, 4, at).value;
    GeneratedKeeps(searchTerm, "All", false, rnd, at);
  }

  /** The first related palette of a search with the `All` filter is in the batch. */
  lemma FirstRelatedInBatch(color: string, searchTerm: string, src: Sources, rnd: Oracle, at: nat)
    requires IsValidHex(color) && searchTerm != "" && Sound(src)
    ensures MakeEntry(RelatedTo(color, searchTerm), 0, src, rnd, at).value
      in Unshuffled(Some(color), searchTerm, "All", src, rnd, at).value
  {
    RunUnfold(RelatedTo(color, searchTerm), 0, 12, src, rnd, at);
  }

  /** The stored batch holds exactly the pushed palettes. */
  lemma GeneratedKeeps(searchTerm: string, activeFilter: string, capped: bool, rnd: Oracle, at: nat)
    ensures Sound(Live(rnd, capped))
    ensures forall p :: p in Generated(searchTerm, activeFilter, capped, rnd, at).value <==>
      p in Unshuffled(SearchColor(searchTerm), searchTerm, activeFilter, Live(rnd, capped), rnd, at).value
  {
    LiveIsSound(rnd, capped);
    var searchColor := SearchColor(searchTerm);
    var batch := Unshuffled(searchColor, searchTerm, activeFilter, Live(rnd, capped), rnd, at);
    var stored := GeneratedFrom(searchColor, searchTerm, activeFilter, Live(rnd, capped), rnd, at);
    assert Generated(searchTerm, activeFilter, capped, rnd, at) == stored;
    if Shuffled(searchColor, searchTerm, activeFilter) {
      assert stored == FisherYates(batch.value, |batch.value| - 1, rnd, batch.next);
      ShuffleKeeps(batch.value, rnd, batch.next);
    }
  }

  // ---------------------------------------------------------------------
  // filteredPalettes

  /** `xs.filter(keep)`. */
  function Where(xs: seq<Palette>, keep: Palette -> bool): (r: seq<Palette>)
    ensures forall x :: x in r <==> x in xs && keep(x)
    ensures |r| <= |xs|
  {
    if xs == [] then [] else (if keep(xs[0]) then [xs[0]] else []) + Where(xs[1..], keep)
  }

  /** Filtering keeps the order: it distributes over concatenation. */
  lemma {:induction false} WhereAppend(xs: seq<Palette>, ys: seq<Palette>, keep: Palette -> bool)
    ensures Where(xs + ys, keep) == Where(xs, keep) + Where(ys, keep)
    decreases |xs|
  {
    if xs != [] {
      assert (xs + ys)[1..] == xs[1..] + ys;
      WhereAppend(xs[1..], ys, keep);
    } else {
      assert xs + ys == ys;
    }
  }

  /** A filter every element passes changes nothing. */
  lemma {:induction false} WhereAll(xs: seq<Palette>, keep: Palette -> bool)
    requires forall x <- xs :: keep(x)
    ensures Where(xs, keep) == xs
    decreases |xs|
  {
    if xs != [] {
      assert forall x <- xs[1..] :: x in xs;
      WhereAll(xs[1..], keep);
    }
  }

  /** Two filters commute. */
  lemma {:induction false} WhereCommutes(xs: seq<Palette>, a: Palette -> bool, b: Palette -> bool)
    ensures Where(Where(xs, a), b) == Where(Where(xs, b), a)
    decreases |xs|
  {
    if xs != [] {
      var x := xs[0];
      WhereCommutes(xs[1..], a, b);
      var restA := Where(xs[1..], a);
      var restB := Where(xs[1..], b);
      WhereAppend(if a(x) then [x] else [], restA, b);
      WhereAppend(if b(x) then [x] else [], restB, a);
    }
  }

  /** The search test of `filteredPalettes`: colours, then name, then category. */
  predicate SearchMatch(p: Palette, searchTerm: string) {
    || ColorContainsSearch(p.colors, searchTerm)
    || Includes(ToLower(p.name), ToLower(searchTerm))
    || Includes(ToLower(p.category), ToLower(searchTerm))
  }

  /** The category test applied when the filter is not `All`. */
  predicate CategoryMatch(p: Palette, activeFilter: string) {
    || p.category == activeFilter
    || p.category == SearchResults
    || Includes(ToLower(p.name), ToLower(activeFilter))
  }

  /**
   * `filteredPalettes`: everything for a blank search term; otherwise the
   * palettes passing the search test and, unless the filter is `All`, the
   * category test, in their original order.
   */
  function FilteredPalettes(palettes: seq<Palette>, searchTerm: string, activeFilter: string): (r: seq<Palette>)
    ensures Trim(searchTerm) == "" ==> r == palettes
    ensures Trim(searchTerm) != "" ==>
      forall p :: p in r <==>
        p in palettes && SearchMatch(p, searchTerm) && (activeFilter != "All" ==> CategoryMatch(p, activeFilter))
  {
    if Trim(searchTerm) == "" then palettes
    else
      var searchFiltered := Where(palettes, p => SearchMatch(p, searchTerm));
      if activeFilter != "All" then Where(searchFiltered, p => CategoryMatch(p, activeFilter))
      else searchFiltered
  }

  /** Filtering keeps order: the filter of a concatenation is the concatenation of the filters. */
  lemma FilterKeepsOrder(xs: seq<Palette>, ys: seq<Palette>, searchTerm: string, activeFilter: string)
    ensures FilteredPalettes(xs + ys, searchTerm, activeFilter)
      == FilteredPalettes(xs, searchTerm, activeFilter) + FilteredPalettes(ys, searchTerm, activeFilter)
  {
    if Trim(searchTerm) != "" {
      var search := p => SearchMatch(p, searchTerm);
      var category := p => CategoryMatch(p, activeFilter);
      WhereAppend(xs, ys, search);
      WhereAppend(Where(xs, search), Where(ys, search), category);
    }
  }

  /** Filtering an already filtered list changes nothing. */
  lemma FilterIdempotent(palettes: seq<Palette>, searchTerm: string, activeFilter: string)
    ensures var once := FilteredPalettes(palettes, searchTerm, activeFilter);
      FilteredPalettes(once, searchTerm, activeFilter) == once
  {
    var once := FilteredPalettes(palettes, searchTerm, activeFilter);
    if Trim(searchTerm) != "" {
      WhereAll(once, p => SearchMatch(p, searchTerm));
      if activeFilter != "All" {
        WhereAll(once, p => CategoryMatch(p, activeFilter));
      }
    }
  }

  /** A term whose trimmed lower-case form is non-empty is not blank either. */
  lemma NormalizedNotBlank(searchTerm: string)
    requires Normalize(searchTerm) != ""
    ensures Trim(searchTerm) != ""
  {
    TrimEmptyIff(searchTerm);
    TrimEmptyIff(ToLower(searchTerm));
  }

  /** A palette holding the searched hex colour itself passes the colour test. */
  lemma HoldsHexTerm(p: Palette, searchTerm: string)
    requires IsValidHex(Normalize(searchTerm)) && Normalize(searchTerm) in p.colors
    ensures SearchMatch(p, searchTerm)
  {
    var term := Normalize(searchTerm);
    HexToHslInGamut(term);
    DistanceIsSimilarity(HexToHsl(term), HexToHsl(term));
    ContainsHexTerm(p.colors, searchTerm);
  }

  /**
   * When the search term is a hex colour and a category is active, the
   * filter keeps the whole generated batch, as written or capped: every
   * palette holds the searched colour itself and is of the active category
   * or a search result.
   */
  lemma HexSearchKeepsBatch(searchTerm: string, activeFilter: string, capped: bool, rnd: Oracle, at: nat)
    requires IsValidHex(Normalize(searchTerm)) && activeFilter != "All"
    ensures var ps := Generated(searchTerm, activeFilter, capped, rnd, at).value;
      FilteredPalettes(ps, searchTerm, activeFilter) == ps
  {
    var term := Normalize(searchTerm);
    GetSearchColorSteps(searchTerm);
    assert SearchColor(searchTerm) == Some(term);
    var ps := Generated(searchTerm, activeFilter, capped, rnd, at).value;
    GeneratedFacts(searchTerm, activeFilter, capped, rnd, at);
    NormalizedNotBlank(searchTerm);
    forall p <- ps ensures SearchMatch(p, searchTerm) && CategoryMatch(p, activeFilter) {
      HoldsHexTerm(p, searchTerm);
    }
    var search := p => SearchMatch(p, searchTerm);
    WhereAll(ps, search);
    WhereAll(ps, p => CategoryMatch(p, activeFilter));
  }
}
