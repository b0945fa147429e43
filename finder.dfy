/** Element resolution in lib/lapis_lazuli/browser.rb: `findAll`,
    `findAllPresent`, `find` (alternatives, pick policy, error flag) and
    `findRandomized`. The browser is reached only through the queries of
    `Host`; randomness is a sequence of rolls given by the caller. */
module Finder {
  import opened RubyValues
  import opened Selectors

  /** Where a search starts: the browser, or the `:context` element. */
  datatype Scope = Root | Within(context: Value)

  /** The queries `findAll` sends to the browser or to a context element. */
  datatype Host = Host(
    render: Render,
    // context.elements(:xpath, path)
    byXPath: (Scope, string) -> seq<Element>,
    // context.elements(settings); None when the browser raises RuntimeError
    bySelector: (Scope, seq<Pair>) -> Option<seq<Element>>,
    // context.respond_to?(name), e.g. "text_fields"
    respondsTo: (Scope, string) -> bool,
    // context.send(name, filter)
    byFinder: (Scope, string, seq<Pair>) -> seq<Element>,
    // context.send(name, :xpath, path); None when it raises RuntimeError
    byFinderXPath: (Scope, string, string) -> Option<seq<Element>>,
    // element.present?; None when the check raises
    present: Element -> Option<bool>)

  /** The query on name, id or text used when a finder key has a plain value. */
  function NameIdTextXPath(hasContext: bool, s: string): string
  {
    (if hasContext then "." else "") + "//*[@name='" + s + "' or @id='" + s + "' or text()='" + s + "']"
  }

  /** What the finder key `p` yields once the context responds to its finder. */
  function UseFinder(host: Host, scope: Scope, p: Pair): Outcome<seq<Element>>
  {
    var name := ToS(p.key, host.render.other) + "s";
    if p.val.Hash? then Ok(host.byFinder(scope, name, p.val.pairs))
    else
      match host.byFinderXPath(scope, name, NameIdTextXPath(scope.Within?, ToS(p.val, host.render.other)))
      case None => Raise(FindByMethod)
      case Some(es) => Ok(es)
  }

  predicate Responds(host: Host, scope: Scope, p: Pair)
  {
    host.respondsTo(scope, ToS(p.key, host.render.other) + "s")
  }

  /** The loop over the settings: the first key whose plural names a finder
      of the context decides the result. */
  function ByFinder(host: Host, scope: Scope, pairs: seq<Pair>): (r: Outcome<seq<Element>>)
    ensures r.Raise? ==> r.failure == FindByMethod || r.failure == NoFinder
    ensures r == Raise(NoFinder) <==> forall j :: 0 <= j < |pairs| ==> !Responds(host, scope, pairs[j])
  {
    if |pairs| == 0 then Raise(NoFinder)
    else if Responds(host, scope, pairs[0]) then UseFinder(host, scope, pairs[0])
    else
      assert forall j :: 1 <= j < |pairs| ==> pairs[1..][j - 1] == pairs[j];
      ByFinder(host, scope, pairs[1..])
  }

  lemma {:induction false} ByFinderFirstResponder(host: Host, scope: Scope, pairs: seq<Pair>, k: nat)
    requires k < |pairs| && Responds(host, scope, pairs[k])
    requires forall j :: 0 <= j < k ==> !Responds(host, scope, pairs[j])
    ensures ByFinder(host, scope, pairs) == UseFinder(host, scope, pairs[k])
  {
    if k > 0 {
      assert !Responds(host, scope, pairs[0]);
      assert pairs[1..][k - 1] == pairs[k];
      ByFinderFirstResponder(host, scope, pairs[1..], k - 1);
    }
  }

  /** Whether `elements` can be called on the start of the search: the
      browser, or a context that is an element (`nil.elements`, say, raises
      NoMethodError). */
  predicate Searchable(scope: Scope)
  {
    scope.Root? || scope.context.Elem?
  }

  function ScopeOf(pairs: seq<Pair>): Scope
  {
    if HasKey(pairs, Sym("context")) then Within(Fetch(pairs, Sym("context"), Nil)) else Root
  }

  /** findAll: a `:like` query wins, then `:tag_name`, then the finder keys.
      findAll never reports a miss: an empty result is a valid answer, and its
      failures are malformed settings or browser errors only. */
  function FindAll(host: Host, settings: Value): (r: Outcome<seq<Element>>)
    ensures !ParseFindSettings(settings).Hash? ==> r == Raise(NoMethod)
    ensures r.Raise? ==> r.failure in {NoMethod, FindByLike, FindByTagName, FindByMethod, NoFinder}
  {
    var s := ParseFindSettings(settings);
    if !s.Hash? then Raise(NoMethod)
    else
      var scope := ScopeOf(s.pairs);
      if HasKey(s.pairs, Sym("like")) then
        match LikeXPath(Fetch(s.pairs, Sym("like"), Nil), scope.Within?, host.render)
        case Raise(f) => Raise(f)
        case Ok(path) => if Searchable(scope) then Ok(host.byXPath(scope, path)) else Raise(NoMethod)
      else if HasKey(s.pairs, Sym("tag_name")) then
        if !Searchable(scope) then Raise(NoMethod)
        else
          match host.bySelector(scope, s.pairs)
          case None => Raise(FindByTagName)
          case Some(es) => Ok(es)
      else ByFinder(host, scope, s.pairs)
  }

  /** Without `:like`, a `:tag_name` setting goes to `elements` on a
      searchable scope (a browser error becomes the `find by tag name`
      error), and any other setting goes to the finder loop. */
  lemma FindAllOtherBranches(host: Host, pairs: seq<Pair>)
    requires !HasKey(pairs, Sym("like"))
    ensures HasKey(pairs, Sym("tag_name")) && Searchable(ScopeOf(pairs)) ==>
              (FindAll(host, Hash(pairs)) == Raise(FindByTagName) <==> host.bySelector(ScopeOf(pairs), pairs).None?)
              && (FindAll(host, Hash(pairs)).Ok? ==> FindAll(host, Hash(pairs)).value == host.bySelector(ScopeOf(pairs), pairs).value)
    ensures HasKey(pairs, Sym("tag_name")) && !Searchable(ScopeOf(pairs)) ==> FindAll(host, Hash(pairs)) == Raise(NoMethod)
    ensures !HasKey(pairs, Sym("tag_name")) ==> FindAll(host, Hash(pairs)) == ByFinder(host, ScopeOf(pairs), pairs)
  {
  }

  /** A `:like` query is answered by the XPath built for it, whatever the
      other keys say; a context makes the query relative to it. */
  lemma FindAllLike(host: Host, pairs: seq<Pair>, like: Value)
    requires Lookup(pairs, Sym("like")) == Some(like)
    ensures FindAll(host, Hash(pairs)).Ok?
        <==> LikeXPath(like, HasKey(pairs, Sym("context")), host.render).Ok? && Searchable(ScopeOf(pairs))
    ensures FindAll(host, Hash(pairs)).Ok? ==>
              FindAll(host, Hash(pairs)).value
              == host.byXPath(ScopeOf(pairs), LikeXPath(like, HasKey(pairs, Sym("context")), host.render).value)
    ensures LikeXPath(like, HasKey(pairs, Sym("context")), host.render).Ok? && !Searchable(ScopeOf(pairs)) ==>
              FindAll(host, Hash(pairs)) == Raise(NoMethod)
  {
  }

  /** Elements whose `present?` holds, in their original order; an element
      whose check raises counts as not present. */
  function PresentOnly(present: Element -> Option<bool>, es: seq<Element>): (r: seq<Element>)
    ensures forall e :: e in r <==> e in es && present(e) == Some(true)
    ensures |r| <= |es|
  {
    if |es| == 0 then []
    else if present(es[0]) == Some(true) then [es[0]] + PresentOnly(present, es[1..])
    else PresentOnly(present, es[1..])
  }

  /** Filtering distributes over concatenation, so relative order is kept. */
  lemma {:induction false} PresentOnlyAppend(present: Element -> Option<bool>, a: seq<Element>, b: seq<Element>)
    ensures PresentOnly(present, a + b) == PresentOnly(present, a) + PresentOnly(present, b)
  {
    if |a| > 0 {
      assert (a + b)[1..] == a[1..] + b;
      PresentOnlyAppend(present, a[1..], b);
    } else {
      assert a + b == b;
    }
  }

  /** findAllPresent */
  function FindAllPresent(host: Host, settings: Value): (r: Outcome<seq<Element>>)
    ensures r.Ok? <==> FindAll(host, settings).Ok?
    ensures r.Ok? ==> forall e :: e in r.value <==> e in FindAll(host, settings).value && host.present(e) == Some(true)
  {
    match FindAll(host, settings)
    case Raise(f) => Raise(f)
    case Ok(es) => Ok(PresentOnly(host.present, es))
  }

  /** Array#shuffle with its random draws made explicit: each roll picks the
      next element among those left. */
  function Shuffle(xs: seq<Element>, rolls: seq<nat>): (r: seq<Element>)
    ensures multiset(r) == multiset(xs)
    ensures |r| == |xs|
  {
    if |xs| == 0 then []
    else
      var k := (if |rolls| == 0 then 0 else rolls[0]) % |xs|;
      var left := xs[..k] + xs[k + 1..];
      assert xs == xs[..k] + [xs[k]] + xs[k + 1..];
      assert multiset(xs) == multiset{xs[k]} + multiset(left);
      [xs[k]] + Shuffle(left, if |rolls| == 0 then [] else rolls[1..])
  }

  /** Every element can come first, so `:pick => :random` can return any member. */
  lemma ShuffleCanStartAnywhere(xs: seq<Element>, rolls: seq<nat>)
    requires |rolls| > 0 && rolls[0] < |xs|
    ensures Shuffle(xs, rolls)[0] == xs[rolls[0]]
  {
    var k := rolls[0];
    assert k % |xs| == k;
    assert Shuffle(xs, rolls) == [xs[k]] + Shuffle(xs[..k] + xs[k + 1..], rolls[1..]);
  }

  /** The `:pick` setting. */
  datatype Pick = First | Last | Random | Index(n: int)

  /** `:pick` compares with the symbols `:last` and `:random` and accepts any
      number; a missing or unrecognised pick keeps the first element. */
  function PickPolicy(pairs: seq<Pair>): (r: Pick)
    ensures r == Last <==> Lookup(pairs, Sym("pick")) == Some(Sym("last"))
    ensures r == Random <==> Lookup(pairs, Sym("pick")) == Some(Sym("random"))
    ensures r.Index? <==> Lookup(pairs, Sym("pick")).Some? && Lookup(pairs, Sym("pick")).value.Int?
    ensures r.Index? ==> Lookup(pairs, Sym("pick")) == Some(Int(r.n))
  {
    match Lookup(pairs, Sym("pick"))
    case None => First
    case Some(Sym("last")) => Last
    case Some(Sym("random")) => Random
    case Some(Int(n)) => Index(n)
    case Some(_) => First
  }

  /** Ruby Array#[] with an integer: negative indices count from the end,
      and an index out of range gives nil. */
  function At(es: seq<Element>, n: int): (r: Option<Element>)
    ensures r.Some? <==> -|es| <= n < |es|
    ensures 0 <= n < |es| ==> r == Some(es[n])
    ensures -|es| <= n < 0 ==> r == Some(es[|es| + n])
  {
    if 0 <= n < |es| then Some(es[n])
    else if -|es| <= n < 0 then Some(es[|es| + n])
    else None
  }

  /** The element `find` picks from a result collection. */
  function PickElement(es: seq<Element>, p: Pick, rolls: seq<nat>): (r: Option<Element>)
    ensures r.Some? ==> r.value in es
    ensures r.None? <==> |es| == 0 || (p.Index? && !(-|es| <= p.n < |es|))
    ensures p.First? && |es| > 0 ==> r == Some(es[0])
    ensures p.Last? && |es| > 0 ==> r == Some(es[|es| - 1])
    ensures p.Index? ==> r == At(es, p.n)
  {
    match p
    case First => if |es| == 0 then None else Some(es[0])
    case Last => if |es| == 0 then None else Some(es[|es| - 1])
    case Random =>
      var shuffled := Shuffle(es, rolls);
      if |shuffled| == 0 then None
      else
        assert shuffled[0] in multiset(es);
        Some(shuffled[0])
    case Index(n) => At(es, n)
  }

  /** `find` raises on a miss unless `:error` is given and falsy. */
  predicate ErrorFlag(pairs: seq<Pair>)
  {
    !(HasKey(pairs, Sym("error")) && !Truthy(Fetch(pairs, Sym("error"), Nil)))
  }

  /** The collection `find` picks from: `findAll` when `:present` is given
      and falsy, `findAllPresent` otherwise. */
  function FindCandidates(host: Host, s: Value): (r: Outcome<seq<Element>>)
    requires s.Hash?
    ensures r.Ok? <==> FindAll(host, s).Ok?
    ensures r.Ok? ==> forall e :: e in r.value <==>
              (e in FindAll(host, s).value &&
               ((HasKey(s.pairs, Sym("present")) && !Truthy(Fetch(s.pairs, Sym("present"), Nil))) || host.present(e) == Some(true)))
  {
    if HasKey(s.pairs, Sym("present")) && !Truthy(Fetch(s.pairs, Sym("present"), Nil))
    then FindAll(host, s)
    else FindAllPresent(host, s)
  }

  /** find on one (non-array) setting. */
  function FindSingle(host: Host, s: Value, rolls: seq<nat>): (r: Outcome<Option<Element>>)
    ensures !s.Hash? ==> r == Raise(NoMethod)
    ensures r.Ok? && r.value.Some? ==> s.Hash? && FindCandidates(host, s).Ok? && r.value.value in FindCandidates(host, s).value
    ensures r == Raise(NotFound) ==> s.Hash? && ErrorFlag(s.pairs)
  {
    if !s.Hash? then Raise(NoMethod)
    else
      match FindCandidates(host, s)
      case Raise(f) => Raise(f)
      case Ok(es) =>
        var element := PickElement(es, PickPolicy(s.pairs), rolls);
        if ErrorFlag(s.pairs) && element.None? then Raise(NotFound) else Ok(element)
  }

  /** `find` raises NotFound exactly when the error flag is on and the pick
      comes back empty; otherwise it returns the picked element. */
  lemma FindSingleNotFound(host: Host, pairs: seq<Pair>, rolls: seq<nat>)
    ensures FindSingle(host, Hash(pairs), rolls) == Raise(NotFound)
        <==> ErrorFlag(pairs) && FindCandidates(host, Hash(pairs)).Ok?
             && PickElement(FindCandidates(host, Hash(pairs)).value, PickPolicy(pairs), rolls).None?
    ensures FindCandidates(host, Hash(pairs)).Ok?
            && !(ErrorFlag(pairs) && PickElement(FindCandidates(host, Hash(pairs)).value, PickPolicy(pairs), rolls).None?) ==>
              FindSingle(host, Hash(pairs), rolls)
              == Ok(PickElement(FindCandidates(host, Hash(pairs)).value, PickPolicy(pairs), rolls))
  {
  }

  /** The error flag defaults to on; only a falsy `:error` turns it off. */
  lemma ErrorFlagDefault(pairs: seq<Pair>)
    ensures !HasKey(pairs, Sym("error")) ==> ErrorFlag(pairs)
    ensures ErrorFlag(Store(pairs, Sym("error"), Bool(false))) == false
    ensures ErrorFlag(Store(pairs, Sym("error"), Nil)) == false
    ensures ErrorFlag(Store(pairs, Sym("error"), Bool(true))) == true
  {
  }

  /** A setting run with `:error => false` never raises NotFound. */
  lemma ErrorOffNeverNotFound(host: Host, pairs: seq<Pair>, rolls: seq<nat>)
    ensures FindSingle(host, Hash(Store(pairs, Sym("error"), Bool(false))), rolls) != Raise(NotFound)
  {
    FindSingleNotFound(host, Store(pairs, Sym("error"), Bool(false)), rolls);
    assert !ErrorFlag(Store(pairs, Sym("error"), Bool(false)));
  }

  /** find on a normalised setting: an array is a list of alternatives. */
  function FindCanonical(host: Host, s: Value, rolls: seq<nat>): Outcome<Option<Element>>
  {
    match s
    case List(items) => FindAlternatives(host, items, rolls)
    case _ => FindSingle(host, s, rolls)
  }

  /** The alternatives in order; all but the last run with `:error => false`
      (a copy of the setting with that key stored), the first non-nil result
      ends the search, and nil comes back when every alternative misses. */
  function FindAlternatives(host: Host, items: seq<Value>, rolls: seq<nat>): (r: Outcome<Option<Element>>)
    ensures r == Ok(None) ==>
              (forall j :: 0 <= j < |items| - 1 ==> MissesQuietly(host, items[j], rolls))
              && (|items| > 0 ==> FindCanonical(host, items[|items| - 1], rolls) == Ok(None))
  {
    if |items| == 0 then Ok(None)
    else if |items| == 1 then FindCanonical(host, items[0], rolls)
    else if !items[0].Hash? then Raise(NoMethod)
    else
      match FindSingle(host, Hash(Store(items[0].pairs, Sym("error"), Bool(false))), rolls)
      case Raise(f) => Raise(f)
      case Ok(Some(e)) => Ok(Some(e))
      case Ok(None) =>
        var rest := items[1..];
        assert rest[|rest| - 1] == items[|items| - 1];
        assert forall j :: 1 <= j < |items| ==> rest[j - 1] == items[j];
        FindAlternatives(host, rest, rolls)
  }

  /** The outcome of `find`. */
  function FindSpec(host: Host, settings: Value, rolls: seq<nat>): Outcome<Option<Element>>
  {
    FindCanonical(host, ParseFindSettings(settings), rolls)
  }

  /** An alternative that succeeds ends the search: the later ones are never
      consulted. */
  lemma FirstAlternativeWins(host: Host, first: seq<Pair>, rest: seq<Value>, rolls: seq<nat>, e: Element)
    requires |rest| > 0
    requires FindSingle(host, Hash(Store(first, Sym("error"), Bool(false))), rolls) == Ok(Some(e))
    ensures FindAlternatives(host, [Hash(first)] + rest, rolls) == Ok(Some(e))
  {
  }

  /** An alternative other than the last, run with `:error => false`, that
      comes back nil. */
  predicate MissesQuietly(host: Host, item: Value, rolls: seq<nat>)
  {
    item.Hash? && FindSingle(host, Hash(Store(item.pairs, Sym("error"), Bool(false))), rolls) == Ok(None)
  }

  /** A quiet miss passes the search on to the next alternative. */
  lemma SkipMiss(host: Host, items: seq<Value>, rolls: seq<nat>)
    requires |items| > 1 && MissesQuietly(host, items[0], rolls)
    ensures FindAlternatives(host, items, rolls) == FindAlternatives(host, items[1..], rolls)
  {
  }

  /** When every alternative but the last misses quietly, find returns the
      last alternative's own outcome, found element, nil or error. */
  lemma {:induction false} AllButLastMiss(host: Host, items: seq<Value>, rolls: seq<nat>)
    requires |items| > 0
    requires forall j :: 0 <= j < |items| - 1 ==> MissesQuietly(host, items[j], rolls)
    ensures FindAlternatives(host, items, rolls) == FindCanonical(host, items[|items| - 1], rolls)
  {
    if |items| > 1 {
      SkipMiss(host, items, rolls);
      var rest := items[1..];
      assert forall j :: 0 <= j < |rest| - 1 ==> rest[j] == items[j + 1];
      AllButLastMiss(host, rest, rolls);
      assert rest[|rest| - 1] == items[|items| - 1];
    }
  }

  /** Only the last alternative can report a miss: when the list raises
      NotFound, every earlier alternative came back nil and the last one
      raised NotFound itself. */
  lemma {:induction false} OnlyLastAlternativeRaisesNotFound(host: Host, items: seq<Value>, rolls: seq<nat>)
    requires FindAlternatives(host, items, rolls) == Raise(NotFound)
    ensures |items| > 0
    ensures FindCanonical(host, items[|items| - 1], rolls) == Raise(NotFound)
    ensures forall j :: 0 <= j < |items| - 1 ==> MissesQuietly(host, items[j], rolls)
  {
    if |items| > 1 {
      ErrorOffNeverNotFound(host, items[0].pairs, rolls);
      assert MissesQuietly(host, items[0], rolls);
      var rest := items[1..];
      OnlyLastAlternativeRaisesNotFound(host, rest, rolls);
      assert rest[|rest| - 1] == items[|items| - 1];
      forall j | 1 <= j < |items| - 1
        ensures MissesQuietly(host, items[j], rolls)
      {
        assert rest[j - 1] == items[j];
      }
    }
  }

  /** find, with the alternatives loop of the source. */
  method Find(host: Host, settings: Value, rolls: seq<nat>) returns (r: Outcome<Option<Element>>)
    ensures r == FindSpec(host, settings, rolls)
  {
    r := FindParsed(host, ParseFindSettings(settings), rolls);
  }

  method FindParsed(host: Host, s: Value, rolls: seq<nat>) returns (r: Outcome<Option<Element>>)
    requires Canonical(s)
    ensures r == FindCanonical(host, s, rolls)
    decreases s
  {
    if !s.List? {
      return FindSingle(host, s, rolls);
    }
    var settings := s.items;
    var i := 0;
    while i < |settings|
      invariant 0 <= i <= |settings|
      invariant FindAlternatives(host, settings[i..], rolls) == FindAlternatives(host, settings, rolls)
    {
      var setting := settings[i];
      if i != |settings| - 1 {
        // Do not raise misses, except on the last alternative.
        if !setting.Hash? {
          return Raise(NoMethod);
        }
        var config := Hash(Store(setting.pairs, Sym("error"), Bool(false)));
        var result := FindSingle(host, config, rolls);
        if result.Raise? || result.value.Some? {
          return result;
        }
      } else {
        assert settings[i..] == [setting];
        // The last alternative is itself normalised: find re-parses it unchanged.
        r := FindParsed(host, setting, rolls);
        return r;
      }
      assert settings[i..][1..] == settings[i + 1..];
      i := i + 1;
    }
    assert settings[i..] == [];
    return Ok(None);
  }

  /** findRandomized as written: it switches to findAllPresent when
      `:present` is given and FALSY, the opposite of `find`. */
  function FindRandomized(host: Host, settings: Value, rolls: seq<nat>): (r: Outcome<seq<Element>>)
    ensures !settings.Hash? ==> r == Raise(NoMethod)
    ensures settings.Hash? && !(HasKey(settings.pairs, Sym("present")) && !Truthy(Fetch(settings.pairs, Sym("present"), Nil))) ==>
              r.Ok? == FindAll(host, settings).Ok?
              && (r.Ok? ==> multiset(r.value) == multiset(FindAll(host, settings).value))
    ensures settings.Hash? && HasKey(settings.pairs, Sym("present")) && !Truthy(Fetch(settings.pairs, Sym("present"), Nil)) ==>
              r.Ok? == FindAllPresent(host, settings).Ok?
              && (r.Ok? ==> multiset(r.value) == multiset(FindAllPresent(host, settings).value))
  {
    var candidates :=
      if settings.Nil? then FindAll(host, settings)
      else if !settings.Hash? then Raise(NoMethod)
      else if HasKey(settings.pairs, Sym("present")) && !Truthy(Fetch(settings.pairs, Sym("present"), Nil))
      then FindAllPresent(host, settings)
      else FindAll(host, settings);
    match candidates
    case Raise(f) => Raise(f)
    case Ok(es) => Ok(Shuffle(es, rolls))
  }

  /** The discrepancy: with `:present => false`, `find` may return a hidden
      element that findRandomized never yields. */
  lemma RandomizedDropsHiddenElements(host: Host, pairs: seq<Pair>, rolls: seq<nat>, e: Element)
    requires Lookup(pairs, Sym("present")) == Some(Bool(false))
    requires FindAll(host, Hash(pairs)).Ok? && e in FindAll(host, Hash(pairs)).value
    requires host.present(e) != Some(true)
    ensures e in FindCandidates(host, Hash(pairs)).value
    ensures FindRandomized(host, Hash(pairs), rolls).Ok?
    ensures e !in FindRandomized(host, Hash(pairs), rolls).value
  {
    assert HasKey(pairs, Sym("present")) && Fetch(pairs, Sym("present"), Nil) == Bool(false);
    var fp := FindAllPresent(host, Hash(pairs));
    assert fp.Ok? && e !in fp.value;
    assert e !in multiset(fp.value);
    var r := FindRandomized(host, Hash(pairs), rolls);
    assert r.Ok? && multiset(r.value) == multiset(fp.value);
  }

  /** findRandomized drawing from the same collection as `find`:
      findAll when `:present` is falsy, findAllPresent otherwise. */
  function FindRandomizedCorrected(host: Host, settings: Value, rolls: seq<nat>): (r: Outcome<seq<Element>>)
    ensures settings.Hash? ==>
              r.Ok? == FindCandidates(host, settings).Ok?
              && (r.Ok? ==> multiset(r.value) == multiset(FindCandidates(host, settings).value))
  {
    var candidates :=
      if settings.Nil? then FindAll(host, settings)
      else if !settings.Hash? then Raise(NoMethod)
      else FindCandidates(host, settings);
    match candidates
    case Raise(f) => Raise(f)
    case Ok(es) => Ok(Shuffle(es, rolls))
  }
}
