/**
 * The lifecycle binder of `ImageAttachmentsLightboxV2`: one mutable handle
 * (`psRef.current`) to a third-party lightbox engine, set, used and cleared by
 * four effects, plus the late size patch an image load applies to an item the
 * engine is already showing. Each effect (setup or cleanup) is a method; when
 * React runs them is up to the caller.
 */
module ImageLightbox {
  import opened Wrappers
  import opened Normalizer
  import opened TextReplace

  /** Identity of an `onDestroy` callback; `None` is a falsy prop. */
  type Handler = nat

  const DestroyEvent: string := "destroy"

  /** Engine configuration fixed at construction. */
  datatype Options = Options(clickToCloseNonZoomable: bool, bgOpacity: real)

  const DefaultOptions: Options := Options(false, 0.8)

  /** A call the binder makes on the engine. `LoadAndOpen(i, None)` is `loadAndOpen(i)` without a data source. */
  datatype Command =
    | Init
    | On(event: string, handler: Handler)
    | Off(event: string, handler: Handler)
    | LoadAndOpen(index: int, dataSource: Option<array<Item>>)
    | RefreshSlideContent(slide: int)
    | UpdateSize(force: bool)
    | Destroy

  /** An image load in flight: when it completes it patches `target[slot]`; `url` is what it fetches. */
  datatype Pending = Pending(target: array<Item>, slot: nat, url: string)

  /** The engine, seen only through the calls it receives. */
  class Engine {
    const options: Options
    var log: seq<Command>
    /** Index of the slide the engine shows; the engine, not the binder, moves it. */
    var currSlide: int

    constructor (opts: Options)
      ensures options == opts && log == [] && currSlide == 0
    {
      options := opts;
      log := [];
      currSlide := 0;
    }

    method Init()
      modifies this`log
      ensures log == old(log) + [Command.Init]
    {
      log := log + [Command.Init];
    }

    method On(event: string, handler: Handler)
      modifies this`log
      ensures log == old(log) + [Command.On(event, handler)]
    {
      log := log + [Command.On(event, handler)];
    }

    method Off(event: string, handler: Handler)
      modifies this`log
      ensures log == old(log) + [Command.Off(event, handler)]
    {
      log := log + [Command.Off(event, handler)];
    }

    method LoadAndOpen(index: int, dataSource: Option<array<Item>>)
      modifies this`log
      ensures log == old(log) + [Command.LoadAndOpen(index, dataSource)]
    {
      log := log + [Command.LoadAndOpen(index, dataSource)];
    }

    method RefreshSlideContent(slide: int)
      modifies this`log
      ensures log == old(log) + [Command.RefreshSlideContent(slide)]
    {
      log := log + [Command.RefreshSlideContent(slide)];
    }

    method UpdateSize(force: bool)
      modifies this`log
      ensures log == old(log) + [Command.UpdateSize(force)]
    {
      log := log + [Command.UpdateSize(force)];
    }

    method Destroy()
      modifies this`log
      ensures log == old(log) + [Command.Destroy]
    {
      log := log + [Command.Destroy];
    }
  }

  ghost function Targets(loads: seq<Pending>): set<array<Item>> {
    set p | p in loads :: p.target
  }

  /** Each load in flight patches an item of its own, whose `src` is what it fetches. */
  ghost predicate InFlight(loads: seq<Pending>)
    reads Targets(loads)
  {
    (forall k :: 0 <= k < |loads| ==>
       loads[k].slot < loads[k].target.Length &&
       loads[k].target[loads[k].slot].src == Some(loads[k].url)) &&
    (forall k, l :: 0 <= k < l < |loads| ==>
       loads[k].target != loads[l].target || loads[k].slot != loads[l].slot)
  }

  /** Loads into different lists never patch the same item. */
  lemma InFlightAppend(before: seq<Pending>, added: seq<Pending>)
    requires InFlight(before) && InFlight(added)
    requires forall k, l :: 0 <= k < |before| && 0 <= l < |added| ==> before[k].target != added[l].target
    ensures InFlight(before + added)
  {
  }

  /** The loads a normalization starts each patch a distinct item whose `src` they fetch. */
  lemma StartedInFlight(originals: seq<Item>, getThumbnail: nat -> Option<Thumb>, list: array<Item>)
    requires list[..] == Items(NormalizeAll(originals, getThumbnail))
    ensures InFlight(Tag(list, Scheduled(NormalizeAll(originals, getThumbnail))))
  {
    var ns := NormalizeAll(originals, getThumbnail);
    var started := Tag(list, Scheduled(ns));
    forall k | 0 <= k < |started|
      ensures started[k].slot < list.Length && list[started[k].slot].src == Some(started[k].url)
    {
      var slot := started[k].slot;
      assert list[slot] == list[..][slot] == ns[slot].item;
      assert ns[slot] == NormalizeItem(originals[slot], getThumbnail(slot));
    }
  }

  /** The loads a normalization into `target` starts. */
  function Tag(target: array<Item>, fs: seq<Fetch>): seq<Pending> {
    seq(|fs|, j requires 0 <= j < |fs| => Pending(target, fs[j].slot, fs[j].url))
  }

  /** The rendered component, reduced to its state. */
  class LightboxV2 {
    /** `psRef.current`. */
    var ps: Engine?
    /** The normalized list last handed to the engine. */
    var items: array<Item>
    /** Image loads started and not yet completed. */
    var pending: seq<Pending>
    /** The `onDestroy` callback whose deregistration is due at the next cleanup of its effect. */
    var subscribed: Option<Handler>

    ghost predicate Valid()
      reads this, Targets(pending)
    {
      InFlight(pending)
    }

    /** First render: the ref starts out null and no effect has run. */
    constructor ()
      ensures Valid()
      ensures ps == null && pending == [] && subscribed == None
      ensures fresh(items) && items.Length == 0
    {
      ps := null;
      items := new Item[0];
      pending := [];
      subscribed := None;
    }

    /** Setup of the mount effect: construct the engine with the fixed options and init it. */
    method Mount()
      requires Valid()
      modifies this`ps
      ensures Valid()
      ensures ps != null && fresh(ps)
      ensures ps.options == DefaultOptions && ps.log == [Init]
    {
      var engine := new Engine(DefaultOptions);
      ps := engine;
      engine.Init();
    }

    /**
     * Cleanup of the mount effect: destroy the engine and clear the handle.
     * There is no null check, so with no engine the call throws; `ok` is false
     * then and nothing changes.
     */
    method Unmount() returns (ok: bool)
      requires Valid()
      modifies this`ps, ps
      ensures Valid()
      ensures ok == (old(ps) != null)
      ensures ps == null
      ensures ok ==> old(ps).log == old(ps.log) + [Destroy]
      ensures ok ==> old(ps).currSlide == old(ps.currSlide)
    {
      if ps == null {
        return false;
      }
      ps.Destroy();
      ps := null;
      ok := true;
    }

    /**
     * The `onDestroy` effect re-run for a new callback identity: cleanup of the
     * previous run (deregister the old callback from whatever engine is current),
     * then setup (register the new one, if truthy). `SetOnDestroy(None)` is the
     * cleanup alone, as on unmount.
     */
    method SetOnDestroy(onDestroy: Option<Handler>)
      requires Valid()
      modifies this`subscribed, ps
      ensures Valid()
      ensures subscribed == onDestroy && ps == old(ps)
      ensures ps != null ==> ps.currSlide == old(ps.currSlide)
      ensures ps != null ==>
        ps.log == old(ps.log)
          + (if old(subscribed).Some? then [Off(DestroyEvent, old(subscribed).value)] else [])
          + (if onDestroy.Some? then [On(DestroyEvent, onDestroy.value)] else [])
    {
      if subscribed.Some? && ps != null {
        ps.Off(DestroyEvent, subscribed.value);
      }
      subscribed := None;
      if onDestroy.None? {
        return;
      }
      if ps != null {
        ps.On(DestroyEvent, onDestroy.value);
      }
      subscribed := onDestroy;
    }

    /**
     * The items effect: with an engine, normalize a fresh copy of the list,
     * start the image loads it calls for, and open it at slide 0.
     */
    method SetItems(originals: seq<Item>, getThumbnail: nat -> Option<Thumb>)
      requires Valid()
      modifies this`items, this`pending, ps
      ensures Valid()
      ensures ps == old(ps)
      ensures ps != null ==> ps.currSlide == old(ps.currSlide)
      ensures ps == null ==> items == old(items) && pending == old(pending)
      ensures ps != null ==>
        fresh(items) &&
        items[..] == Items(NormalizeAll(originals, getThumbnail)) &&
        pending == old(pending) + Tag(items, Scheduled(NormalizeAll(originals, getThumbnail))) &&
        ps.log == old(ps.log) + [LoadAndOpen(0, Some(items))]
    {
      if ps == null {
        return;
      }
      var list, started := Materialize(NormalizeAll(originals, getThumbnail));
      StartedInFlight(originals, getThumbnail, list);
      InFlightAppend(pending, started);
      items := list;
      pending := pending + started;
      ps.LoadAndOpen(0, Some(list));
    }

    /** The index effect: navigate the engine, if any, without reloading the list. */
    method SetIndex(index: int)
      requires Valid()
      modifies ps
      ensures Valid()
      ensures ps != null ==> ps.log == old(ps.log) + [LoadAndOpen(index, None)]
      ensures ps != null ==> ps.currSlide == old(ps.currSlide)
    {
      if ps != null {
        ps.LoadAndOpen(index, None);
      }
    }

    /**
     * The `onload` of load `k`: patch the size of that one item to the loaded
     * image's, whether or not the component is still mounted; only the engine
     * calls are guarded.
     */
    method LoadComplete(k: nat, width: nat, height: nat)
      requires Valid()
      requires k < |pending|
      modifies pending[k].target, this`pending, ps
      ensures Valid()
      ensures pending == old(pending[..k] + pending[k + 1..])
      ensures ps == old(ps)
      ensures var p := old(pending[k]);
        p.target[..] == old(p.target[..])[p.slot := old(p.target[p.slot]).(w := Some(width as real), h := Some(height as real))]
      ensures ps != null ==> ps.currSlide == old(ps.currSlide)
      ensures ps != null ==> ps.log == old(ps.log) + [RefreshSlideContent(old(ps.currSlide)), UpdateSize(true)]
    {
      var p := pending[k];
      p.target[p.slot] := p.target[p.slot].(w := Some(width as real), h := Some(height as real));
      pending := pending[..k] + pending[k + 1..];
      if ps != null {
        ps.RefreshSlideContent(ps.currSlide);
      }
      if ps != null {
        ps.UpdateSize(true);
      }
    }
  }

  /** The list is filled item by item, in order. */
  lemma ItemsStep(ns: seq<Normalized>, i: nat)
    requires i < |ns|
    ensures Items(ns[..i + 1]) == Items(ns[..i]) + [ns[i].item]
  {
  }

  /** Loads are started item by item, in list order. */
  lemma TagStep(list: array<Item>, ns: seq<Normalized>, i: nat)
    requires i < |ns|
    ensures Tag(list, Scheduled(ns[..i + 1])) == Tag(list, Scheduled(ns[..i])) +
      (if ns[i].resolution.PendingLoad? then [Pending(list, i, ns[i].resolution.url)] else [])
  {
    assert ns[..i + 1][..i] == ns[..i];
    var before := Scheduled(ns[..i]);
    var step := if ns[i].resolution.PendingLoad? then [Fetch(i, ns[i].resolution.url)] else [];
    assert Scheduled(ns[..i + 1]) == before + step;
    assert Tag(list, before + step) == Tag(list, before) + Tag(list, step);
  }

  /**
   * The side effects of `originalItems.map(...)`: a fresh list holding the
   * normalized items, and one load started per item left waiting for its size,
   * item by item.
   */
  method Materialize(ns: seq<Normalized>) returns (list: array<Item>, started: seq<Pending>)
    ensures fresh(list)
    ensures list[..] == Items(ns)
    ensures started == Tag(list, Scheduled(ns))
  {
    list := new Item[|ns|];
    started := [];
    var i := 0;
    while i < |ns|
      invariant 0 <= i <= |ns|
      invariant list[..i] == Items(ns[..i])
      invariant started == Tag(list, Scheduled(ns[..i]))
    {
      var n := ns[i];
      ghost var done := list[..i];
      list[i] := n.item;
      assert list[..i + 1] == done + [n.item];
      ItemsStep(ns, i);
      TagStep(list, ns, i);
      if n.resolution.PendingLoad? {
        started := started + [Pending(list, i, n.resolution.url)];
      }
      i := i + 1;
    }
    assert ns[..i] == ns && list[..i] == list[..];
  }

  /** Mounting then unmounting constructs one engine, inits it, destroys it and clears the handle, with no open in between. */
  method MountThenUnmount() returns (log: seq<Command>, ok: bool, cleared: bool)
    ensures ok && cleared
    ensures log == [Init, Destroy]
  {
    var lightbox := new LightboxV2();
    lightbox.Mount();
    var engine := lightbox.ps;
    ok := lightbox.Unmount();
    cleared := lightbox.ps == null;
    log := engine.log;
  }

  /**
   * Open `[{src: "a.jpg"}, {src: "b.jpg", w: 100, h: 50}]` with no thumbnails
   * at index 0, then move to index 1: the first item waits at 1x1 for the one
   * load, which will patch the very list the engine was handed; the second item
   * is kept; the move only navigates, leaving the list and the load alone.
   */
  method OpenThenNavigate() returns (log: seq<Command>, shown: seq<Item>, loads: seq<Pending>)
    ensures |log| == 4 && log[0] == Init
    ensures log[1].LoadAndOpen? && log[1].index == 0 && log[1].dataSource.Some?
    ensures log[2] == LoadAndOpen(0, None) && log[3] == LoadAndOpen(1, None)
    ensures shown == [Item(Some("a.jpg"), None, Some(1.0), Some(1.0), map[]),
                      Item(Some("b.jpg"), None, Some(100.0), Some(50.0), map[])]
    ensures |loads| == 1 && loads[0].slot == 0 && loads[0].url == "a.jpg"
    ensures loads[0].target == log[1].dataSource.value
    ensures log[1].dataSource.value[..] == shown
  {
    var lightbox := new LightboxV2();
    lightbox.Mount();
    var engine := lightbox.ps;
    lightbox.SetOnDestroy(None);
    lightbox.SetItems(ScenarioItems(), NoThumbnail);
    var list := lightbox.items;
    TwoItemScenario();
    assert lightbox.pending == [Pending(list, 0, "a.jpg")];
    lightbox.SetIndex(0);
    lightbox.SetIndex(1);
    shown := list[..];
    loads := lightbox.pending;
    log := engine.log;
  }

  /** Mount, open the two scenario items, then unmount while the load of `a.jpg` is still in flight. */
  method OpenThenUnmount() returns (lightbox: LightboxV2, engine: Engine, list: array<Item>)
    ensures fresh(lightbox) && fresh(engine) && fresh(list)
    ensures lightbox.Valid() && lightbox.ps == null
    ensures lightbox.pending == [Pending(list, 0, "a.jpg")]
    ensures list[..] == [Item(Some("a.jpg"), None, Some(1.0), Some(1.0), map[]),
                         Item(Some("b.jpg"), None, Some(100.0), Some(50.0), map[])]
    ensures engine.log == [Init, LoadAndOpen(0, Some(list)), Destroy]
  {
    lightbox := new LightboxV2();
    lightbox.Mount();
    engine := lightbox.ps;
    lightbox.SetItems(ScenarioItems(), NoThumbnail);
    list := lightbox.items;
    TwoItemScenario();
    var ok := lightbox.Unmount();
  }

  /**
   * A load that completes after unmount still patches the item it was started
   * for, and only that item, but the destroyed engine hears nothing more.
   */
  method LateLoadAfterUnmount() returns (log: seq<Command>, shown: seq<Item>, remaining: nat)
    ensures |log| == 3 && log[0] == Init && log[1].LoadAndOpen? && log[2] == Destroy
    ensures shown == [Item(Some("a.jpg"), None, Some(640.0), Some(480.0), map[]),
                      Item(Some("b.jpg"), None, Some(100.0), Some(50.0), map[])]
    ensures log[1].dataSource.Some? && log[1].dataSource.value[..] == shown
    ensures remaining == 0
  {
    var lightbox, engine, list := OpenThenUnmount();
    lightbox.LoadComplete(0, 640, 480);
    log := engine.log;
    shown := list[..];
    remaining := |lightbox.pending|;
  }
}
