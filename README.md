# Image lightbox (v2): item normalization and engine lifecycle

A Dafny model of `ImageAttachmentsLightboxV2`, the React component of the
FreeFeed client that shows a post's image attachments full-screen through the
PhotoSwipe lightbox engine. The model covers its two parts.

- **Item normalizer** (`Normalizer.dfy`, `TextReplace.dfy`). Each raw image
  descriptor is copied and completed for the engine:
  - `msrc` is filled from the thumbnail's `currentSrc`;
  - a Dropbox page link in `src` is rewritten to the direct-content host, using
    `String.prototype.replace` with a string pattern, which rewrites the first
    occurrence of the pattern wherever it is;
  - `w`/`h` are settled by three rules tried in order: a declared width, the
    thumbnail's aspect ratio at width 800, or a 1×1 placeholder plus an image
    load. With no `src`, the item falls back to 800×600.
- **Lifecycle binder** (`Lightbox.dfy`). The class `LightboxV2` holds the engine
  handle `psRef.current` (`ps`), the list last handed to the engine, the image
  loads still in flight and the registered `onDestroy` callback. Each `useEffect`
  setup or cleanup is one method. The engine is an `Engine` object that records
  the calls it receives. A completed load patches one slot of the array the
  engine was handed, so the correction reaches the list the engine shows.

Raw descriptors are values (`Item`), so the caller's list is never modified.
`SetItems` builds a fresh array.

Where the code behaves differently than one might expect, the model follows
the code:
- the Dropbox rewrite is not anchored at the start of `src` (`RewriteNotAnchored`);
- an item with no width, no thumbnail box and no `src` ends at 800×600, not 1×1;
- teardown calls `destroy()` without a null check, so with no engine it throws
  instead of doing nothing (`Unmount` returns `ok == false`);
- normalizing twice is a no-op only when the rewritten `src` holds no second
  Dropbox page link (`NormalizeTwice`, `RepeatedLinkNotIdempotent`);
- the normalizer guarantees a truthy width only (`NormalizeItem`), not `w > 0 && h > 0`.
  A declared width is kept with whatever height came with it, and a thumbnail of
  height 0 yields `h == 0`.

## Model

| member | source | states |
|---|---|---|
| TextReplace.FindFrom | src/components/post/post-attachment-image-lightbox-v2.jsx:66-69 | the result is an occurrence of the pattern at or after `start` with none between `start` and it; `None` only when no occurrence exists from `start` on |
| TextReplace.IndexOf | src/components/post/post-attachment-image-lightbox-v2.jsx:66-69 | a position is found exactly when the pattern occurs, and it is the leftmost occurrence |
| TextReplace.ReplaceFirst | src/components/post/post-attachment-image-lightbox-v2.jsx:66-69 | without an occurrence the string is returned unchanged; otherwise the leftmost occurrence is replaced and every character before and after it is kept; the length changes by `|rep| - |pat|` exactly when the pattern occurs |
| Normalizer.RewriteDropboxLink | src/components/post/post-attachment-image-lightbox-v2.jsx:64-70 | `https://www.dropbox.com/s/abc?dl=0` becomes `https://dl.dropboxusercontent.com/s/abc?dl=0`, query string kept |
| Normalizer.RewriteNotAnchored | src/components/post/post-attachment-image-lightbox-v2.jsx:66-69 | a page link after the first character is rewritten too: the rewrite is first-occurrence, not prefix |
| Normalizer.NormalizeItem | src/components/post/post-attachment-image-lightbox-v2.jsx:56-104 | passthrough fields kept; a truthy `msrc` is kept, otherwise it becomes the thumbnail's `currentSrc`, or unset with no thumbnail; a truthy `src` gets the Dropbox rewrite, an absent or empty one is untouched; a truthy `w` keeps `w` and `h` as given with no measurement or load; otherwise a thumbnail of non-zero width gives `w = 800`, `h = height * 800 / width`; otherwise a truthy `src` gives 1×1 and a load of the rewritten `src`; otherwise 800×600 and no load; the width is always truthy afterwards |
| Normalizer.NormalizeAll | src/components/post/post-attachment-image-lightbox-v2.jsx:56-104 | exactly one output per input, in the same order, item `i` normalized with the thumbnail of index `i` |
| Normalizer.Scheduled | src/components/post/post-attachment-image-lightbox-v2.jsx:88-101 | every load started targets an item left at the 1×1 placeholder and fetches its URL; loads are started in list order, at most one per item |
| Normalizer.ScheduledCovers | src/components/post/post-attachment-image-lightbox-v2.jsx:88-101 | every item left waiting for its size has its load started |
| Normalizer.ScheduledOnce | src/components/post/post-attachment-image-lightbox-v2.jsx:88-101 | an item is the target of exactly one load if it waits for its size, of none otherwise |
| Normalizer.OneLoadPerUnsizedItem | src/components/post/post-attachment-image-lightbox-v2.jsx:72-101 | an item gets exactly one load iff it has no truthy width, no thumbnail box and a truthy `src`, and that load fetches the rewritten `src` |
| Normalizer.NormalizeTwice | src/components/post/post-attachment-image-lightbox-v2.jsx:57-74 | a normalized item whose `src` holds no further page link is returned unchanged by a second pass, through the declared-width rule |
| Normalizer.RepeatedLinkNotIdempotent | src/components/post/post-attachment-image-lightbox-v2.jsx:65-74 | a `src` holding the page link twice is rewritten again by a second pass |
| Normalizer.TwoItemScenario | src/components/post/post-attachment-image-lightbox-v2.jsx:56-104 | `[{src: "a.jpg"}, {src: "b.jpg", w: 100, h: 50}]` without thumbnails: the first item is 1×1 with the one load, of `a.jpg`; the second is unchanged |
| ImageLightbox.LightboxV2.constructor | src/components/post/post-attachment-image-lightbox-v2.jsx:28-29 | the handle starts out null, with no loads in flight and no callback registered |
| ImageLightbox.LightboxV2.Mount | src/components/post/post-attachment-image-lightbox-v2.jsx:31-33 | a new engine is constructed with click-to-close off and background opacity 0.8, and has received exactly `init` |
| ImageLightbox.LightboxV2.Unmount | src/components/post/post-attachment-image-lightbox-v2.jsx:35-38 | the engine receives `destroy` and the handle becomes null; with no engine the call fails, as the missing null check makes it throw; the engine's current slide is left where it was |
| ImageLightbox.LightboxV2.SetOnDestroy | src/components/post/post-attachment-image-lightbox-v2.jsx:41-48 | the previous callback, if any, is deregistered with the same reference, then the new one is registered only if supplied; both calls reach the engine only when the handle is non-null; the engine's current slide is left where it was |
| ImageLightbox.LightboxV2.SetItems | src/components/post/post-attachment-image-lightbox-v2.jsx:50-107 | with no engine nothing happens; otherwise a fresh list holds the normalized items, the loads it calls for are added to those in flight, and the engine receives `loadAndOpen(0, list)`; each load in flight still targets a distinct item whose `src` it fetches; the engine's current slide is left where it was |
| ImageLightbox.LightboxV2.SetIndex | src/components/post/post-attachment-image-lightbox-v2.jsx:109-111 | the engine, if any, receives `loadAndOpen(index)` with no data source; the list and the loads are untouched; the engine's current slide is left where it was |
| ImageLightbox.LightboxV2.LoadComplete | src/components/post/post-attachment-image-lightbox-v2.jsx:93-98 | only the target item's `w`/`h` change, to the loaded size, every other item is unchanged, even after unmount; `refreshSlideContent` of the slide current before the load and `updateSize(true)` reach the engine only when the handle is non-null; the engine's current slide is left where it was |
| ImageLightbox.Materialize | src/components/post/post-attachment-image-lightbox-v2.jsx:56-104 | the fresh list holds the normalized items in order, and the loads started are exactly the scheduled ones, each aimed at that list |
| ImageLightbox.StartedInFlight | src/components/post/post-attachment-image-lightbox-v2.jsx:88-100 | the loads of one normalization patch distinct items, each holding the `src` it fetches |
| ImageLightbox.MountThenUnmount | src/components/post/post-attachment-image-lightbox-v2.jsx:31-39 | mount then unmount: one engine receives exactly `init` then `destroy`, with no open in between, and the handle is cleared |
| ImageLightbox.OpenThenNavigate | src/components/post/post-attachment-image-lightbox-v2.jsx:50-111 | the two-item scenario opens at slide 0 with the normalized list; the load of `a.jpg` targets that same list; the engine was opened with exactly the normalized list; moving to index 1 only sends `loadAndOpen(1)` and leaves that list and the load untouched |
| ImageLightbox.LateLoadAfterUnmount | src/components/post/post-attachment-image-lightbox-v2.jsx:93-98 | a load completing after unmount resizes its item to 640×480 and leaves the other item alone, in the very list the engine was opened with; the destroyed engine receives nothing more |

## Left out

- The PhotoSwipe engine (`photoswipe`, `photoswipe/lightbox`) is third-party code that is not part of this model. `Engine` only records the calls it receives. Its current slide `currSlide` is owned by the engine and never moved by the model. The injected `pswpModule` option is not represented.
- The current slide is assumed to exist whenever the handle is non-null. Line 97 guards only the handle (`psRef.current?.currSlide.index`), so a live engine with no current slide would make `onload` throw after the size patch and before `refreshSlideContent`/`updateSize`; `Engine.currSlide` is always defined, so that path does not arise in the model.
- React's scheduling is not modelled: effects running after render, re-running only when a dependency's identity changes, and the order of cleanups on unmount. Each effect is a method, and the caller decides when to call it.
- The DOM is not modelled. `getThumbnail` is a function from index to an optional `Thumb` record holding `currentSrc` and the rendered width and height from `getBoundingClientRect`.
- Image loading is not modelled as asynchronous. `new Image()` and its `onload` become `LoadComplete(k, width, height)`, called whenever the caller chooses. A load that fails never calls it. Each load completes at most once, so it leaves the in-flight list when it does.
- Numbers are reals, not IEEE doubles. NaN and its falsiness are not modelled, and the aspect-ratio division is exact.
- The `$` substitution patterns of `String.prototype.replace` are not modelled. The replacement literal contains no `$`.
- Items are values in an array, not shared objects. The patch after hand-off targets an array slot, which has the same effect because the normalized items are fresh copies held only by that list.
- The `postId` prop is not used by the component and is not modelled.
- `src/components/backlinks-feed.jsx` is not part of this model. It composes Redux selectors, routing links and feed components, and its only computation is the `/${userName}/${postId}` link template.
