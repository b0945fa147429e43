/** Argument caching in `init` of lib/lapis_lazuli/browser.rb: the browser
    name and the optional data last passed explicitly are remembered, so that
    a restart without arguments recreates the same browser. Creating the
    browser itself is not modelled; `Init` returns the arguments it would
    hand to `create`. */
module Session {
  import opened RubyValues

  /** A parameter of `init`: left out by the caller, or given (possibly as
      nil). */
  datatype Arg = Omitted | Given(v: Value)

  /** The arguments passed on to `create`. */
  datatype CreateArgs = CreateArgs(browserWanted: Value, optionalData: Value)

  function ValueOf(a: Arg): Value
  {
    if a.Given? then a.v else Nil
  }

  /** The optional data `init` uses, and the cache after the call. */
  function OptionalData(od: Arg, cached: Value): (r: (Value, Value))
    ensures ValueOf(od) != Nil ==> r == (ValueOf(od), ValueOf(od))
    ensures ValueOf(od) == Nil ==> r.1 == cached
    ensures ValueOf(od) == Nil ==> r.0 == (if od.Omitted? && Truthy(cached) then cached else Hash([]))
  {
    if od.Omitted? && Truthy(cached) then (cached, cached)
    else if ValueOf(od) == Nil then (Hash([]), cached)
    else (ValueOf(od), ValueOf(od))
  }

  /** The browser name `init` uses, and the cache after the call. */
  function BrowserWanted(bw: Arg, cached: Value): (r: (Value, Value))
    ensures r.0 == r.1
    ensures bw.Given? ==> r.0 == bw.v
    ensures bw.Omitted? ==> r.0 == (if Truthy(cached) then cached else Nil)
  {
    if bw.Omitted? && Truthy(cached) then (cached, cached)
    else (ValueOf(bw), ValueOf(bw))
  }

  class BrowserSession {
    var cachedBrowserWanted: Value
    var cachedOptionalData: Value

    constructor ()
      ensures cachedBrowserWanted == Nil && cachedOptionalData == Nil
    {
      cachedBrowserWanted := Nil;
      cachedOptionalData := Nil;
    }

    /** init: settle both arguments against the caches, update the caches,
        and return what is passed to `create`. */
    method Init(bw: Arg, od: Arg) returns (call: CreateArgs)
      modifies this
      ensures call.optionalData == OptionalData(od, old(cachedOptionalData)).0
      ensures cachedOptionalData == OptionalData(od, old(cachedOptionalData)).1
      ensures call.browserWanted == BrowserWanted(bw, old(cachedBrowserWanted)).0
      ensures cachedBrowserWanted == BrowserWanted(bw, old(cachedBrowserWanted)).1
    {
      var data := ValueOf(od);
      if od.Omitted? && Truthy(cachedOptionalData) {
        data := cachedOptionalData;
      } else if data == Nil {
        data := Hash([]);
      } else {
        cachedOptionalData := data;
      }
      var browser := ValueOf(bw);
      if bw.Omitted? && Truthy(cachedBrowserWanted) {
        browser := cachedBrowserWanted;
      } else {
        cachedBrowserWanted := browser;
      }
      call := CreateArgs(browser, data);
    }
  }

  /** Settling an argument twice against the cache it leaves behind gives the
      same value: a restart without arguments repeats the last explicit
      choice of a browser and of (non-nil) data. */
  lemma RestartRepeatsChoice(bw: Value, od: Value, cachedB: Value, cachedD: Value)
    requires Truthy(bw) && Truthy(od)
    ensures var b := BrowserWanted(Given(bw), cachedB);
            var d := OptionalData(Given(od), cachedD);
            BrowserWanted(Omitted, b.1).0 == bw && OptionalData(Omitted, d.1).0 == od
  {
  }

  /** Without anything cached, omitted arguments mean no browser preference
      and empty data, and nothing is cached. */
  lemma FreshSessionDefaults()
    ensures BrowserWanted(Omitted, Nil) == (Nil, Nil)
    ensures OptionalData(Omitted, Nil) == (Hash([]), Nil)
  {
  }

  /** A nil given for the data is replaced by an empty hash and does not
      disturb the cache, while a nil browser name does clear its cache. */
  lemma NilArguments(cachedB: Value, cachedD: Value)
    ensures OptionalData(Given(Nil), cachedD) == (Hash([]), cachedD)
    ensures BrowserWanted(Given(Nil), cachedB) == (Nil, Nil)
  {
  }

  /** A session started with explicit arguments and then restarted without
      any creates the same browser twice. */
  method StartThenRestart(bw: Value, od: Value) returns (first: CreateArgs, second: CreateArgs)
    requires Truthy(bw) && Truthy(od)
    ensures first == CreateArgs(bw, od)
    ensures second == first
  {
    var session := new BrowserSession();
    first := session.Init(Given(bw), Given(od));
    second := session.Init(Omitted, Omitted);
  }
}
