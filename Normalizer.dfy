/**
 * The per-item normalizer of the lightbox: each raw image descriptor is
 * copied and completed (thumbnail placeholder, direct Dropbox link, size)
 * so that the presentation engine can lay it out. Values are records, so the
 * caller's descriptors are never touched; the result is a new record.
 */
module Normalizer {
  import opened Wrappers
  import opened TextReplace

  /** The Dropbox page-link prefix and its direct-content counterpart. */
  const DropboxPage: string := "https://www.dropbox.com/s/"
  const DropboxDirect: string := "https://dl.dropboxusercontent.com/s/"

  /** Size assumed for an old image that declares none. */
  const DefaultWidth: real := 800.0
  const DefaultHeight: real := 600.0

  /**
   * An image descriptor. `None` is an unset property; `extra` holds every
   * other property, which is copied verbatim.
   */
  datatype Item = Item(
    src: Option<string>,
    msrc: Option<string>,
    w: Option<real>,
    h: Option<real>,
    extra: map<string, string>)

  /** What the thumbnail element shows: its resolved URL and its rendered box. */
  datatype Thumb = Thumb(currentSrc: string, width: real, height: real)

  /** Which size rule settled an item. */
  datatype Resolution =
    | Declared               // a declared width was kept
    | FromThumbnail          // aspect ratio taken from the thumbnail's box
    | PendingLoad(url: string) // 1x1 placeholder; an image load was started for `url`
    | Fallback               // 800x600, nothing else to go on

  datatype Normalized = Normalized(item: Item, resolution: Resolution)

  /** An image load started for the item at `slot` of the normalized list. */
  datatype Fetch = Fetch(slot: nat, url: string)

  /** JavaScript truthiness of an optional string. */
  predicate Present(o: Option<string>) {
    o.Some? && o.value != ""
  }

  /** JavaScript truthiness of an optional number (NaN is not modelled). */
  predicate NonZero(o: Option<real>) {
    o.Some? && o.value != 0.0
  }

  /** The thumbnail exists and its rendered box has a truthy width. */
  predicate HasBox(thumb: Option<Thumb>) {
    thumb.Some? && thumb.value.width != 0.0
  }

  /** Rewriting a Dropbox page link never empties a non-empty `src`. */
  lemma RewriteKeepsPresent(src: string)
    requires src != ""
    ensures ReplaceFirst(src, DropboxPage, DropboxDirect) != ""
  {
  }

  /** The callback of `originalItems.map`: one raw item and its thumbnail to one normalized item. */
  function NormalizeItem(original: Item, thumb: Option<Thumb>): (n: Normalized)
    ensures n.item.extra == original.extra
    ensures n.item.msrc ==
      if Present(original.msrc) then original.msrc
      else if thumb.Some? then Some(thumb.value.currentSrc)
      else None
    ensures !Present(original.src) ==> n.item.src == original.src
    ensures Present(original.src) ==>
      n.item.src == Some(ReplaceFirst(original.src.value, DropboxPage, DropboxDirect))
    ensures NonZero(original.w) ==>
      n.resolution == Declared && n.item.w == original.w && n.item.h == original.h
    ensures !NonZero(original.w) && HasBox(thumb) ==>
      n.resolution == FromThumbnail && n.item.w == Some(DefaultWidth) &&
      n.item.h == Some(thumb.value.height * DefaultWidth / thumb.value.width)
    ensures !NonZero(original.w) && !HasBox(thumb) && Present(original.src) ==>
      n.item.w == Some(1.0) && n.item.h == Some(1.0) &&
      n.resolution == PendingLoad(n.item.src.value)
    ensures !NonZero(original.w) && !HasBox(thumb) && !Present(original.src) ==>
      n.resolution == Fallback && n.item.w == Some(DefaultWidth) && n.item.h == Some(DefaultHeight)
    ensures NonZero(n.item.w)
    ensures n.resolution.PendingLoad? ==> Present(n.item.src) && n.item.src == Some(n.resolution.url)
  {
    var withMsrc :=
      if Present(original.msrc) then original
      else original.(msrc := if thumb.Some? then Some(thumb.value.currentSrc) else None);
    var item :=
      if Present(withMsrc.src)
      then withMsrc.(src := Some(ReplaceFirst(withMsrc.src.value, DropboxPage, DropboxDirect)))
      else withMsrc;
    if NonZero(item.w) then
      Normalized(item, Declared)
    else if HasBox(thumb) then
      Normalized(item.(w := Some(DefaultWidth),
                       h := Some(thumb.value.height * DefaultWidth / thumb.value.width)),
                 FromThumbnail)
    else if Present(item.src) then
      Normalized(item.(w := Some(1.0), h := Some(1.0)), PendingLoad(item.src.value))
    else
      assert Present(original.src) ==> Present(item.src) by {
        if Present(original.src) { RewriteKeepsPresent(original.src.value); }
      }
      Normalized(item.(w := Some(DefaultWidth), h := Some(DefaultHeight)), Fallback)
  }

  /** `originalItems.map(...)`: one normalized item per raw item, in order; `getThumbnail(i)` is the thumbnail of item `i`. */
  function NormalizeAll(originals: seq<Item>, getThumbnail: nat -> Option<Thumb>): (ns: seq<Normalized>)
    ensures |ns| == |originals|
    ensures forall i :: 0 <= i < |originals| ==> ns[i] == NormalizeItem(originals[i], getThumbnail(i))
  {
    if originals == [] then []
    else
      var last := |originals| - 1;
      NormalizeAll(originals[..last], getThumbnail) + [NormalizeItem(originals[last], getThumbnail(last))]
  }

  /** The items of a normalized list, as handed to the engine. */
  function Items(ns: seq<Normalized>): seq<Item> {
    seq(|ns|, i requires 0 <= i < |ns| => ns[i].item)
  }

  /** The image loads a normalization starts, in list order. */
  function Scheduled(ns: seq<Normalized>): (fs: seq<Fetch>)
    ensures forall j :: 0 <= j < |fs| ==>
      fs[j].slot < |ns| && ns[fs[j].slot].resolution == PendingLoad(fs[j].url)
    ensures forall j, k :: 0 <= j < k < |fs| ==> fs[j].slot < fs[k].slot
  {
    if ns == [] then []
    else
      var last := |ns| - 1;
      Scheduled(ns[..last]) +
        (if ns[last].resolution.PendingLoad? then [Fetch(last, ns[last].resolution.url)] else [])
  }

  /** Every item left waiting for its size has its load scheduled. */
  lemma {:induction false} ScheduledCovers(ns: seq<Normalized>, i: nat)
    requires i < |ns| && ns[i].resolution.PendingLoad?
    ensures Fetch(i, ns[i].resolution.url) in Scheduled(ns)
  {
    var last := |ns| - 1;
    if i < last {
      ScheduledCovers(ns[..last], i);
    }
  }

  /** Each item of a normalized list is the target of exactly one scheduled load if it is pending, of none otherwise. */
  lemma {:induction false} ScheduledOnce(ns: seq<Normalized>, i: nat)
    requires i < |ns|
    ensures var fs := Scheduled(ns);
      |set j | 0 <= j < |fs| && fs[j].slot == i| == if ns[i].resolution.PendingLoad? then 1 else 0
  {
    var fs := Scheduled(ns);
    var hits := set j | 0 <= j < |fs| && fs[j].slot == i;
    if ns[i].resolution.PendingLoad? {
      var f := Fetch(i, ns[i].resolution.url);
      ScheduledCovers(ns, i);
      var j0 :| 0 <= j0 < |fs| && fs[j0] == f;
      assert forall j :: j in hits ==> j == j0;
      assert hits == {j0};
    } else {
      assert forall j :: 0 <= j < |fs| ==> fs[j].slot != i;
      assert hits == {};
    }
  }

  /**
   * An item gets exactly one image load when it has no truthy width, no
   * thumbnail box and a truthy `src`, and none otherwise; the load is for the
   * already rewritten `src`.
   */
  lemma {:induction false} OneLoadPerUnsizedItem(originals: seq<Item>, getThumbnail: nat -> Option<Thumb>, i: nat)
    requires i < |originals|
    ensures var fs := Scheduled(NormalizeAll(originals, getThumbnail));
      |set j | 0 <= j < |fs| && fs[j].slot == i| ==
        if !NonZero(originals[i].w) && !HasBox(getThumbnail(i)) && Present(originals[i].src) then 1 else 0
    ensures var fs := Scheduled(NormalizeAll(originals, getThumbnail));
      forall j :: 0 <= j < |fs| && fs[j].slot == i ==>
        fs[j].url == ReplaceFirst(originals[i].src.value, DropboxPage, DropboxDirect)
  {
    var ns := NormalizeAll(originals, getThumbnail);
    var n := NormalizeItem(originals[i], getThumbnail(i));
    assert ns[i] == n;
    ScheduledOnce(ns, i);
    assert n.resolution.PendingLoad? <==>
      !NonZero(originals[i].w) && !HasBox(getThumbnail(i)) && Present(originals[i].src);
  }

  /**
   * Normalizing an already normalized item changes nothing, provided its
   * rewritten `src` holds no further Dropbox page link.
   */
  lemma NormalizeTwice(original: Item, thumb: Option<Thumb>)
    requires var src := NormalizeItem(original, thumb).item.src;
      src.Some? ==> !Occurs(src.value, DropboxPage)
    ensures var once := NormalizeItem(original, thumb).item;
      NormalizeItem(once, thumb) == Normalized(once, Declared)
  {
  }

  /** Without that proviso the second pass rewrites again: a `src` holding the page link twice. */
  lemma RepeatedLinkNotIdempotent()
    ensures var original := Item(Some(DropboxPage + DropboxPage), None, Some(100.0), Some(50.0), map[]);
      var once := NormalizeItem(original, None).item;
      NormalizeItem(once, None).item != once
  {
    var s := DropboxPage + DropboxPage;
    assert OccursAt(s, DropboxPage, 0) by { assert s[0..|DropboxPage|] == DropboxPage; }
    assert IsFirstOccurrence(s, DropboxPage, 0);
    var t := ReplaceFirst(s, DropboxPage, DropboxDirect);
    assert s[|DropboxPage|..] == DropboxPage;
    assert t == DropboxDirect + DropboxPage;
    assert OccursAt(t, DropboxPage, |DropboxDirect|) by {
      assert t[|DropboxDirect|..|DropboxDirect| + |DropboxPage|] == DropboxPage;
    }
  }

  /** The page link is rewritten wherever it first appears, not only at the start. */
  lemma RewriteNotAnchored()
    ensures ReplaceFirst("x" + DropboxPage + "abc", DropboxPage, DropboxDirect) == "x" + DropboxDirect + "abc"
  {
    var s := "x" + DropboxPage + "abc";
    assert !OccursAt(s, DropboxPage, 0) by { assert s[0] != DropboxPage[0]; }
    assert OccursAt(s, DropboxPage, 1) by { assert s[1..1 + |DropboxPage|] == DropboxPage; }
    assert IsFirstOccurrence(s, DropboxPage, 1);
    assert s[..1] == "x";
    assert s[1 + |DropboxPage|..] == "abc";
  }

  /** A shared Dropbox page link becomes the direct-content link, query string kept. */
  lemma RewriteDropboxLink()
    ensures ReplaceFirst(DropboxPage + "abc?dl=0", DropboxPage, DropboxDirect) == DropboxDirect + "abc?dl=0"
  {
    var s := DropboxPage + "abc?dl=0";
    assert OccursAt(s, DropboxPage, 0) by { assert s[0..|DropboxPage|] == DropboxPage; }
    assert IsFirstOccurrence(s, DropboxPage, 0);
    assert s[|DropboxPage|..] == "abc?dl=0";
  }

  /** A thumbnail lookup that finds no element for any index. */
  function NoThumbnail(i: nat): Option<Thumb> {
    None
  }

  /** `[{src: "a.jpg"}, {src: "b.jpg", w: 100, h: 50}]`. */
  function ScenarioItems(): seq<Item> {
    [Item(Some("a.jpg"), None, None, None, map[]), Item(Some("b.jpg"), None, Some(100.0), Some(50.0), map[])]
  }

  /**
   * Those two items with no thumbnails: the first waits at 1x1 for the one
   * load, of `a.jpg`; the second is kept.
   */
  lemma TwoItemScenario()
    ensures var ns := NormalizeAll(ScenarioItems(), NoThumbnail);
      Items(ns) == [Item(Some("a.jpg"), None, Some(1.0), Some(1.0), map[]),
                    Item(Some("b.jpg"), None, Some(100.0), Some(50.0), map[])] &&
      Scheduled(ns) == [Fetch(0, "a.jpg")]
  {
    var ns := NormalizeAll(ScenarioItems(), NoThumbnail);
    assert !Occurs("a.jpg", DropboxPage) && !Occurs("b.jpg", DropboxPage);
    assert ns[0] == Normalized(Item(Some("a.jpg"), None, Some(1.0), Some(1.0), map[]), PendingLoad("a.jpg"));
    assert ns[1] == Normalized(Item(Some("b.jpg"), None, Some(100.0), Some(50.0), map[]), Declared);
    assert ns[..1][..0] == [] && ns[..2] == ns;
    assert Scheduled(ns[..1]) == [Fetch(0, "a.jpg")];
  }
}
