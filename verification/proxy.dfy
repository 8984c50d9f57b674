/**
 * The proxy pattern exercise: a `ProxyImage` stands in for a `RealImage`, whose
 * construction loads the picture from a remote server. The proxy creates its real
 * image on the first `Display` and reuses it afterwards. Console output is an event trace.
 */
module ImageProxy {

  /** One console line. */
  datatype Event =
    | ProxyCreated(fileName: string)
    | DisplayCalled(fileName: string)
    | CacheMiss(fileName: string)
    | CacheHit(fileName: string)
    | Loading(fileName: string)
    | Loaded(fileName: string)
    | Displaying(fileName: string)

  /** The console all images write to. */
  class Console {
    var events: seq<Event>

    constructor ()
      ensures events == []
    {
      events := [];
    }
  }

  class RealImage {
    const fileName: string

    /** Construction performs the (slow) load from the remote server. */
    constructor (fileName: string, console: Console)
      modifies console
      ensures this.fileName == fileName
      ensures console.events == old(console.events) + [Loading(fileName), Loaded(fileName)]
    {
      this.fileName := fileName;
      console.events := console.events + [Loading(fileName), Loaded(fileName)];
    }

    method Display(console: Console)
      modifies console
      ensures console.events == old(console.events) + [Displaying(fileName)]
    {
      console.events := console.events + [Displaying(fileName)];
    }
  }

  /** The lines one proxy `Display` prints: with a load when nothing is cached, without one otherwise. */
  function DisplayEvents(fileName: string, cached: bool): (events: seq<Event>)
    ensures |events| >= 3 && events[0] == DisplayCalled(fileName) && events[|events| - 1] == Displaying(fileName)
  {
    if cached then [DisplayCalled(fileName), CacheHit(fileName), Displaying(fileName)]
    else [DisplayCalled(fileName), CacheMiss(fileName), Loading(fileName), Loaded(fileName), Displaying(fileName)]
  }

  /** One display loads only when nothing is cached, and displays exactly once. */
  lemma DisplayEventsCounts(fileName: string, cached: bool)
    ensures multiset(DisplayEvents(fileName, cached))[Loading(fileName)] == if cached then 0 else 1
    ensures multiset(DisplayEvents(fileName, cached))[Displaying(fileName)] == 1
  {
  }

  /** What n displays of one fresh proxy print, one after the other. */
  function Session(fileName: string, n: nat): seq<Event>
    decreases n
  {
    if n == 0 then [] else Session(fileName, n - 1) + DisplayEvents(fileName, n > 1)
  }

  /** However often a proxy is displayed, it loads at most once, and displays every time. */
  lemma {:induction false} SessionLoadsOnce(fileName: string, n: nat)
    ensures multiset(Session(fileName, n))[Loading(fileName)] == if n == 0 then 0 else 1
    ensures multiset(Session(fileName, n))[Displaying(fileName)] == n
    decreases n
  {
    if n > 0 {
      SessionLoadsOnce(fileName, n - 1);
      DisplayEventsCounts(fileName, n > 1);
    }
  }

  class ProxyImage {
    const fileName: string
    var realImage: RealImage?
    /** Number of `Display` calls so far, and the lines they printed. */
    ghost var displays: nat
    ghost var history: seq<Event>

    ghost predicate Valid()
      reads this
    {
      (realImage == null <==> displays == 0) &&
      (realImage != null ==> realImage.fileName == fileName) &&
      history == Session(fileName, displays)
    }

    /** Construction records the file name only; nothing is loaded. */
    constructor (fileName: string, console: Console)
      modifies console
      ensures Valid()
      ensures this.fileName == fileName && realImage == null
      ensures console.events == old(console.events) + [ProxyCreated(fileName)]
    {
      this.fileName := fileName;
      realImage := null;
      displays := 0;
      history := [];
      console.events := console.events + [ProxyCreated(fileName)];
    }

    /** Creates the real image on the first call, reuses it after, and always delegates the display to it. */
    method Display(console: Console)
      requires Valid()
      modifies this, console
      ensures Valid()
      ensures displays == old(displays) + 1
      ensures realImage != null && realImage.fileName == fileName
      ensures old(realImage) == null ==> fresh(realImage)
      ensures old(realImage) != null ==> realImage == old(realImage)
      ensures console.events == old(console.events) + DisplayEvents(fileName, old(realImage) != null)
      ensures history == old(history) + DisplayEvents(fileName, old(realImage) != null)
    {
      var cached := realImage != null;
      history := history + DisplayEvents(fileName, cached);
      displays := displays + 1;
      if realImage == null {
        console.events := console.events + [DisplayCalled(fileName), CacheMiss(fileName)];
        var loaded := new RealImage(fileName, console);
        loaded.Display(console);
        realImage := loaded;
      } else {
        console.events := console.events + [DisplayCalled(fileName), CacheHit(fileName)];
        realImage.Display(console);
      }
    }
  }

  /** Two proxies keep separate caches: displaying one neither loads nor replaces the other's image. */
  method SeparateCaches(a: ProxyImage, b: ProxyImage, console: Console)
    requires a != b && a.Valid() && b.Valid() && a.realImage == null && b.realImage == null
    modifies a, b, console
    ensures a.realImage != null && b.realImage != null && a.realImage != b.realImage
    ensures multiset(a.history)[Loading(a.fileName)] == 1 && multiset(b.history)[Loading(b.fileName)] == 1
  {
    a.Display(console);
    a.Display(console);
    b.Display(console);
    SessionLoadsOnce(a.fileName, 2);
    SessionLoadsOnce(b.fileName, 1);
  }
}
