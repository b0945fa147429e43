/** The multi-element wait engine of lib/lapis_lazuli/browser.rb:
    `wait_multiple` and its single-item wrapper `wait`.

    Each list item becomes a matcher; the matchers are combined with
    `:one_of` or `:all_of`; the combination is polled `:until` it holds or
    `:while` it holds; afterwards every matcher is evaluated once more and
    the truthy results are returned in list order. Real time is not
    modelled: a poll is the sequence of page states the engine observed
    before its timeout, and the re-evaluation sees one more state. */
module WaitEngine {
  import opened RubyValues

  /** What `element.send(method)` gave: a truthy value, a falsy one, or an
      exception. */
  datatype CheckReply = Holds | Fails | Throws

  /** One observed state of the page. */
  datatype Page = Page(
    // browser.element(selector): Watir always hands back an element object
    element: seq<Pair> -> Element,
    // element.send(method), e.g. :present? or :exists?
    check: (Element, string) -> CheckReply,
    // element.text; None when it raises
    text: Element -> Option<string>,
    // browser.text, the text of the whole document
    documentText: string)

  /** What a satisfied matcher returns: the whole browser (for an item that
      selects nothing) or the element found. */
  datatype Hit = Document | Found(e: Element)

  /** A compiled list item: the selector left after `:wait_for`, `:text` and
      `:html` are taken out, the capability method, and the text to match
      (`Nil` when there is none). */
  datatype Matcher = Matcher(selector: seq<Pair>, capability: string, text: Value)

  /** Turns a list item into a matcher. */
  function Compile(item: Value): (r: Outcome<Matcher>)
    ensures r.Ok? <==> item.Hash? && SymbolName(Fetch(item.pairs, Sym("wait_for"), Str("present?"))).Ok?
    ensures r.Ok? && !HasKey(item.pairs, Sym("wait_for")) ==> r.value.capability == "present?"
    ensures r.Ok? && HasKey(item.pairs, Sym("text")) ==> r.value.text == Fetch(item.pairs, Sym("text"), Nil)
    ensures r.Ok? && !HasKey(item.pairs, Sym("text")) ==> r.value.text == Fetch(item.pairs, Sym("html"), Nil)
    ensures r.Ok? ==> r.value.capability == SymbolName(Fetch(item.pairs, Sym("wait_for"), Str("present?"))).value
    ensures r.Raise? ==> r.failure == NoMethod
  {
    if !item.Hash? then Raise(NoMethod)
    else
      match SymbolName(Fetch(item.pairs, Sym("wait_for"), Str("present?")))
      case Raise(f) => Raise(f)
      case Ok(capability) =>
        var text := Fetch(item.pairs, Sym("text"), Fetch(item.pairs, Sym("html"), Nil));
        var selector := Delete(Delete(Delete(item.pairs, Sym("wait_for")), Sym("text")), Sym("html"));
        Ok(Matcher(selector, capability, text))
  }

  /** The matcher's selector is the item without its three wait keys; every
      other key keeps its value. */
  lemma CompileSelector(item: Value)
    requires Compile(item).Ok?
    ensures forall k :: k in {Sym("wait_for"), Sym("text"), Sym("html")} ==> !HasKey(Compile(item).value.selector, k)
    ensures forall k :: k !in {Sym("wait_for"), Sym("text"), Sym("html")} ==>
              Lookup(Compile(item).value.selector, k) == Lookup(item.pairs, k)
  {
  }

  function HitText(page: Page, hit: Hit): Option<string>
  {
    match hit
    case Document => Some(page.documentText)
    case Found(e) => page.text(e)
  }

  /** One call of a matcher closure on the page state `page`. `rx` says
      whether a regular expression matches a text (`=~`). */
  function Eval(m: Matcher, page: Page, rx: (string, string) -> bool): (r: Outcome<Option<Hit>>)
    ensures r.Raise? ==> r.failure == Raised || r.failure == NoMethod
    ensures r.Ok? && r.value.Some? ==> (r.value.value == Document <==> |m.selector| == 0)
  {
    var hit := if |m.selector| == 0 then Document else Found(page.element(m.selector));
    var checked := if |m.selector| == 0 then Holds else page.check(hit.e, m.capability);
    if checked == Throws then Raise(Raised)
    else if checked == Fails then Ok(None)
    else if m.text.Nil? then Ok(Some(hit))
    else
      match HitText(page, hit)
      case None => Raise(Raised)
      case Some(t) =>
        if m.text.Regex? && rx(m.text.pattern, t) then Ok(Some(hit))
        else if m.text.Str? then (if Contains(t, m.text.s) then Ok(Some(hit)) else Ok(None))
        else Raise(NoMethod)
  }

  /** An item with no selector stands for the whole document and skips the
      capability check. */
  lemma EmptyItemIsDocument(m: Matcher, page: Page, rx: (string, string) -> bool)
    requires |m.selector| == 0 && m.text.Nil?
    ensures Eval(m, page, rx) == Ok(Some(Document))
  {
  }

  /** A falsy capability check makes the matcher false, whatever the text. */
  lemma FailedCheckIsFalse(m: Matcher, page: Page, rx: (string, string) -> bool)
    requires |m.selector| > 0 && page.check(page.element(m.selector), m.capability) == Fails
    ensures Eval(m, page, rx) == Ok(None)
  {
  }

  /** Once the check holds and the text can be read, a string is matched by
      containment, a regular expression by `=~`, and a regular expression
      that does not match falls through to String#include?, which rejects
      it. */
  lemma TextMatching(m: Matcher, page: Page, rx: (string, string) -> bool, hit: Hit, t: string)
    requires hit == (if |m.selector| == 0 then Document else Found(page.element(m.selector)))
    requires |m.selector| > 0 ==> page.check(page.element(m.selector), m.capability) == Holds
    requires HitText(page, hit) == Some(t)
    ensures m.text.Str? ==> Eval(m, page, rx) == (if Contains(t, m.text.s) then Ok(Some(hit)) else Ok(None))
    ensures m.text.Regex? ==> Eval(m, page, rx) == (if rx(m.text.pattern, t) then Ok(Some(hit)) else Raise(NoMethod))
    ensures m.text.Nil? ==> Eval(m, page, rx) == Ok(Some(hit))
  {
  }

  datatype Operator = OneOf | AllOf
  datatype Condition = Until | While

  /** The `:one_of` block: true at the first truthy matcher. */
  function AnyHolds(ms: seq<Matcher>, page: Page, rx: (string, string) -> bool): (r: Outcome<bool>)
    ensures r.Raise? ==> r.failure == Raised || r.failure == NoMethod
  {
    if |ms| == 0 then Ok(false)
    else
      match Eval(ms[0], page, rx)
      case Raise(f) => Raise(f)
      case Ok(Some(_)) => Ok(true)
      case Ok(None) => AnyHolds(ms[1..], page, rx)
  }

  /** The `:all_of` block: false at the first falsy matcher. */
  function AllHold(ms: seq<Matcher>, page: Page, rx: (string, string) -> bool): (r: Outcome<bool>)
    ensures r.Raise? ==> r.failure == Raised || r.failure == NoMethod
  {
    if |ms| == 0 then Ok(true)
    else
      match Eval(ms[0], page, rx)
      case Raise(f) => Raise(f)
      case Ok(None) => Ok(false)
      case Ok(Some(_)) => AllHold(ms[1..], page, rx)
  }

  /** A matcher that returns a truthy value on `page`. */
  predicate MatchesOn(m: Matcher, page: Page, rx: (string, string) -> bool)
  {
    Eval(m, page, rx).Ok? && Eval(m, page, rx).value.Some?
  }

  /** A matcher that returns false on `page` without raising. */
  predicate MissesOn(m: Matcher, page: Page, rx: (string, string) -> bool)
  {
    Eval(m, page, rx) == Ok(None)
  }

  /** `:one_of` short-circuits: it is true exactly when some matcher is
      truthy and every matcher before it returned false (later ones are not
      called, so they may even raise); it is false exactly when every matcher
      returned false. */
  lemma {:induction false} AnyHoldsFirstTruthy(ms: seq<Matcher>, page: Page, rx: (string, string) -> bool)
    ensures AnyHolds(ms, page, rx) == Ok(true)
        <==> exists i :: 0 <= i < |ms| && MatchesOn(ms[i], page, rx) && forall j :: 0 <= j < i ==> MissesOn(ms[j], page, rx)
    ensures AnyHolds(ms, page, rx) == Ok(false) <==> forall i :: 0 <= i < |ms| ==> MissesOn(ms[i], page, rx)
  {
    if |ms| > 0 {
      var rest := ms[1..];
      AnyHoldsFirstTruthy(rest, page, rx);
      assert forall i :: 1 <= i < |ms| ==> rest[i - 1] == ms[i];
      if MissesOn(ms[0], page, rx) {
        if AnyHolds(rest, page, rx) == Ok(true) {
          var i :| 0 <= i < |rest| && MatchesOn(rest[i], page, rx) && forall j :: 0 <= j < i ==> MissesOn(rest[j], page, rx);
          assert MatchesOn(ms[i + 1], page, rx);
          assert forall j :: 0 <= j < i + 1 ==> MissesOn(ms[j], page, rx);
        }
        if exists i :: 0 <= i < |ms| && MatchesOn(ms[i], page, rx) && forall j :: 0 <= j < i ==> MissesOn(ms[j], page, rx) {
          var i :| 0 <= i < |ms| && MatchesOn(ms[i], page, rx) && forall j :: 0 <= j < i ==> MissesOn(ms[j], page, rx);
          assert i > 0;
          assert MatchesOn(rest[i - 1], page, rx);
          assert forall j :: 0 <= j < i - 1 ==> MissesOn(rest[j], page, rx);
        }
      } else if MatchesOn(ms[0], page, rx) {
        assert !MissesOn(ms[0], page, rx);
      }
    }
  }

  /** `:all_of` short-circuits the other way: it is false exactly when some
      matcher returned false and every matcher before it was truthy; it is
      true exactly when every matcher is truthy. */
  lemma {:induction false} AllHoldFirstFalse(ms: seq<Matcher>, page: Page, rx: (string, string) -> bool)
    ensures AllHold(ms, page, rx) == Ok(false)
        <==> exists i :: 0 <= i < |ms| && MissesOn(ms[i], page, rx) && forall j :: 0 <= j < i ==> MatchesOn(ms[j], page, rx)
    ensures AllHold(ms, page, rx) == Ok(true) <==> forall i :: 0 <= i < |ms| ==> MatchesOn(ms[i], page, rx)
  {
    if |ms| > 0 {
      var rest := ms[1..];
      AllHoldFirstFalse(rest, page, rx);
      assert forall i :: 1 <= i < |ms| ==> rest[i - 1] == ms[i];
      if MatchesOn(ms[0], page, rx) {
        if AllHold(rest, page, rx) == Ok(false) {
          var i :| 0 <= i < |rest| && MissesOn(rest[i], page, rx) && forall j :: 0 <= j < i ==> MatchesOn(rest[j], page, rx);
          assert MissesOn(ms[i + 1], page, rx);
          assert forall j :: 0 <= j < i + 1 ==> MatchesOn(ms[j], page, rx);
        }
        if exists i :: 0 <= i < |ms| && MissesOn(ms[i], page, rx) && forall j :: 0 <= j < i ==> MatchesOn(ms[j], page, rx) {
          var i :| 0 <= i < |ms| && MissesOn(ms[i], page, rx) && forall j :: 0 <= j < i ==> MatchesOn(ms[j], page, rx);
          assert i > 0;
          assert MissesOn(rest[i - 1], page, rx);
          assert forall j :: 0 <= j < i - 1 ==> MatchesOn(rest[j], page, rx);
        }
      } else if MissesOn(ms[0], page, rx) {
        assert !MatchesOn(ms[0], page, rx);
      }
    }
  }

  function Combined(op: Operator, ms: seq<Matcher>, page: Page, rx: (string, string) -> bool): (r: Outcome<bool>)
    ensures r.Raise? ==> r.failure == Raised || r.failure == NoMethod
  {
    match op
    case OneOf => AnyHolds(ms, page, rx)
    case AllOf => AllHold(ms, page, rx)
  }

  /** The Watir wait over the observed states: `:until` stops at the first
      state where the combination is true, `:while` at the first where it is
      false. Ok(true) means the wait timed out. */
  function Poll(cond: Condition, op: Operator, ms: seq<Matcher>, polls: seq<Page>, rx: (string, string) -> bool): (r: Outcome<bool>)
    ensures r.Raise? ==> r.failure == Raised || r.failure == NoMethod
  {
    if |polls| == 0 then Ok(true)
    else
      match Combined(op, ms, polls[0], rx)
      case Raise(f) => Raise(f)
      case Ok(b) =>
        if (cond == Until && b) || (cond == While && !b) then Ok(false)
        else Poll(cond, op, ms, polls[1..], rx)
  }

  /** The wait times out exactly when no observed state gave the value the
      condition waits for (and none raised). */
  lemma {:induction false} PollTimesOut(cond: Condition, op: Operator, ms: seq<Matcher>, polls: seq<Page>, rx: (string, string) -> bool)
    ensures Poll(cond, op, ms, polls, rx) == Ok(true)
        <==> forall i :: 0 <= i < |polls| ==> Combined(op, ms, polls[i], rx) == Ok(cond == While)
  {
    if |polls| > 0 {
      PollTimesOut(cond, op, ms, polls[1..], rx);
      if Poll(cond, op, ms, polls, rx) == Ok(true) {
        forall i | 0 <= i < |polls| ensures Combined(op, ms, polls[i], rx) == Ok(cond == While) {
          if i > 0 { assert polls[1..][i - 1] == polls[i]; }
        }
      } else if Combined(op, ms, polls[0], rx) == Ok(cond == While) {
        var i :| 0 <= i < |polls| - 1 && Combined(op, ms, polls[1..][i], rx) != Ok(cond == While);
        assert polls[1..][i] == polls[i + 1];
      }
    }
  }

  /** The result list: every truthy matcher value, in list order. */
  function Collect(ms: seq<Matcher>, page: Page, rx: (string, string) -> bool): (r: Outcome<seq<Hit>>)
    ensures r.Raise? ==> r.failure == Raised || r.failure == NoMethod
    ensures r.Ok? <==> forall i :: 0 <= i < |ms| ==> Eval(ms[i], page, rx).Ok?
    ensures r.Ok? ==> |r.value| <= |ms|
    ensures r.Ok? ==> forall h :: h in r.value ==> exists i :: 0 <= i < |ms| && Eval(ms[i], page, rx) == Ok(Some(h))
  {
    if |ms| == 0 then Ok([])
    else
      var rest := Collect(ms[1..], page, rx);
      assert forall i :: 1 <= i < |ms| ==> ms[1..][i - 1] == ms[i];
      match Eval(ms[0], page, rx)
      case Raise(f) => Raise(f)
      case Ok(None) => rest
      case Ok(Some(h)) => Then([h], rest)
  }

  /** Collecting over a concatenation collects each part in turn, so the
      results keep the order of the list. */
  lemma {:induction false} CollectAppend(a: seq<Matcher>, b: seq<Matcher>, page: Page, rx: (string, string) -> bool)
    ensures Collect(a + b, page, rx) == Concat(Collect(a, page, rx), Collect(b, page, rx))
  {
    if |a| == 0 {
      assert a + b == b;
      if Collect(b, page, rx).Ok? {
        assert [] + Collect(b, page, rx).value == Collect(b, page, rx).value;
      }
    } else {
      assert (a + b)[1..] == a[1..] + b;
      assert (a + b)[0] == a[0];
      CollectAppend(a[1..], b, page, rx);
      var e := Eval(a[0], page, rx);
      if e.Ok? && e.value.Some? {
        ThenConcat([e.value.value], Collect(a[1..], page, rx), Collect(b, page, rx));
      }
    }
  }

  /** One matcher contributes its value when truthy and nothing otherwise. */
  lemma CollectOne(m: Matcher, page: Page, rx: (string, string) -> bool)
    ensures Collect([m], page, rx)
         == match Eval(m, page, rx)
            case Raise(f) => Raise(f)
            case Ok(None) => Ok([])
            case Ok(Some(h)) => Ok([h])
  {
    assert [m][1..] == [];
    if Eval(m, page, rx).Ok? && Eval(m, page, rx).value.Some? {
      assert [Eval(m, page, rx).value.value] + [] == [Eval(m, page, rx).value.value];
    }
  }

  /** `:one_of` is false exactly when the result list comes back empty. */
  lemma {:induction false} OneOfAgreesWithResults(ms: seq<Matcher>, page: Page, rx: (string, string) -> bool)
    ensures AnyHolds(ms, page, rx) == Ok(false) ==> Collect(ms, page, rx) == Ok([])
    ensures AnyHolds(ms, page, rx) == Ok(true) && Collect(ms, page, rx).Ok? ==> |Collect(ms, page, rx).value| > 0
  {
    if |ms| > 0 {
      OneOfAgreesWithResults(ms[1..], page, rx);
    }
  }

  /** `:all_of` holds exactly when every matcher contributes a result. */
  lemma {:induction false} AllOfAgreesWithResults(ms: seq<Matcher>, page: Page, rx: (string, string) -> bool)
    ensures AllHold(ms, page, rx) == Ok(true) ==> Collect(ms, page, rx).Ok? && |Collect(ms, page, rx).value| == |ms|
    ensures Collect(ms, page, rx).Ok? && |Collect(ms, page, rx).value| == |ms| ==> AllHold(ms, page, rx) == Ok(true)
  {
    if |ms| > 0 {
      AllOfAgreesWithResults(ms[1..], page, rx);
    }
  }

  /** The options of a wait, after defaults are filled in. */
  datatype Request = Request(timeout: Value, condition: Value, operator: Value, list: Value)

  /** The default options of wait_multiple, in their order; the default
      list is the argument list itself. */
  function Defaults(args: seq<Value>): seq<Pair>
  {
    [Pair(Sym("timeout"), Int(10)), Pair(Sym("condition"), Sym("until")), Pair(Sym("operator"), Sym("one_of")),
     Pair(Sym("list"), List(args)), Pair(Sym("screenshot"), Bool(false)), Pair(Sym("groups"), Nil)]
  }

  /** Stores each default whose key the caller's hash lacks. */
  lemma DefaultsLookup(args: seq<Value>)
    ensures Lookup(Defaults(args), Sym("timeout")) == Some(Int(10))
    ensures Lookup(Defaults(args), Sym("condition")) == Some(Sym("until"))
    ensures Lookup(Defaults(args), Sym("operator")) == Some(Sym("one_of"))
    ensures Lookup(Defaults(args), Sym("list")) == Some(List(args))
  {
    DefaultsKey(args, 0);
    DefaultsKey(args, 1);
    DefaultsKey(args, 2);
    DefaultsKey(args, 3);
  }

  lemma DefaultsKey(args: seq<Value>, i: nat)
    requires i < 4
    ensures Lookup(Defaults(args), Defaults(args)[i].key) == Some(Defaults(args)[i].val)
  {
    var d := Defaults(args);
    // the first four keys differ in their first letter
    assert "timeout"[0] == 't' && "condition"[0] == 'c' && "operator"[0] == 'o' && "list"[0] == 'l';
    LookupFirst(d, d[i].key, i);
  }

  function MergeDefaults(opts: seq<Pair>, defaults: seq<Pair>): seq<Pair>
    decreases |defaults|
  {
    if |defaults| == 0 then opts
    else
      var next := if HasKey(opts, defaults[0].key) then opts else Store(opts, defaults[0].key, defaults[0].val);
      MergeDefaults(next, defaults[1..])
  }

  /** The caller's values win; a missing key takes its default. */
  lemma {:induction false} MergeDefaultsLookup(opts: seq<Pair>, defaults: seq<Pair>, k: Value)
    ensures Lookup(MergeDefaults(opts, defaults), k)
         == if HasKey(opts, k) then Lookup(opts, k) else Lookup(defaults, k)
    decreases |defaults|
  {
    if |defaults| > 0 {
      var next := if HasKey(opts, defaults[0].key) then opts else Store(opts, defaults[0].key, defaults[0].val);
      MergeDefaultsLookup(next, defaults[1..], k);
    }
  }

  function RequestOf(opts: seq<Pair>): Request
  {
    Request(Fetch(opts, Sym("timeout"), Nil), Fetch(opts, Sym("condition"), Nil),
            Fetch(opts, Sym("operator"), Nil), Fetch(opts, Sym("list"), Nil))
  }

  /** The option handling as written: the defaults, the default `:list`
      among them, are merged into a single hash argument before the check
      for `:list`. */
  function RequestAsWritten(args: seq<Value>): (r: Outcome<Request>)
    ensures r.Ok?
  {
    if |args| == 1 && args[0].Hash? then
      DefaultsLookup(args);
      MergeDefaultsLookup(args[0].pairs, Defaults(args), Sym("list"));
      var opts := MergeDefaults(args[0].pairs, Defaults(args));
      if !HasKey(opts, Sym("list")) then Raise(MissingList) else Ok(RequestOf(opts))
    else Ok(RequestOf(Defaults(args)))
  }

  /** As written, the check for `:list` cannot fail: an option hash without
      one is itself taken as the only item to wait for. */
  lemma ListCheckNeverFires(opts: seq<Pair>)
    requires !HasKey(opts, Sym("list"))
    ensures RequestAsWritten([Hash(opts)]) == Ok(RequestOf(MergeDefaults(opts, Defaults([Hash(opts)]))))
    ensures RequestAsWritten([Hash(opts)]).value.list == List([Hash(opts)])
  {
    DefaultsLookup([Hash(opts)]);
    MergeDefaultsLookup(opts, Defaults([Hash(opts)]), Sym("list"));
  }

  /** The option handling the message "Need to provide a list of element
      selectors." asks for: a single hash argument must carry `:list`. */
  function WaitRequest(args: seq<Value>): (r: Outcome<Request>)
    ensures r.Raise? <==> |args| == 1 && args[0].Hash? && !HasKey(args[0].pairs, Sym("list"))
    ensures r.Raise? ==> r.failure == MissingList
    ensures r.Ok? ==> r == RequestAsWritten(args)
  {
    if |args| == 1 && args[0].Hash? then
      MergeDefaultsLookup(args[0].pairs, Defaults(args), Sym("list"));
      if !HasKey(args[0].pairs, Sym("list")) then Raise(MissingList)
      else Ok(RequestOf(MergeDefaults(args[0].pairs, Defaults(args))))
    else Ok(RequestOf(Defaults(args)))
  }

  /** A single hash argument is rejected exactly when it lacks `:list`;
      otherwise the caller's options win and the defaults are timeout 10,
      `:until` and `:one_of`. */
  lemma WaitRequestDefaults(args: seq<Value>)
    ensures WaitRequest(args) == Raise(MissingList)
        <==> |args| == 1 && args[0].Hash? && !HasKey(args[0].pairs, Sym("list"))
    ensures !(|args| == 1 && args[0].Hash?) ==>
              WaitRequest(args) == Ok(Request(Int(10), Sym("until"), Sym("one_of"), List(args)))
    ensures |args| == 1 && args[0].Hash? && HasKey(args[0].pairs, Sym("list")) ==>
              WaitRequest(args) == Ok(Request(Fetch(args[0].pairs, Sym("timeout"), Int(10)),
                                              Fetch(args[0].pairs, Sym("condition"), Sym("until")),
                                              Fetch(args[0].pairs, Sym("operator"), Sym("one_of")),
                                              Fetch(args[0].pairs, Sym("list"), Nil)))
  {
    DefaultsLookup(args);
    if |args| == 1 && args[0].Hash? {
      var opts := args[0].pairs;
      MergeDefaultsLookup(opts, Defaults(args), Sym("timeout"));
      MergeDefaultsLookup(opts, Defaults(args), Sym("condition"));
      MergeDefaultsLookup(opts, Defaults(args), Sym("operator"));
      MergeDefaultsLookup(opts, Defaults(args), Sym("list"));
    }
  }

  /** What Ruby's `each` walks over: the items of an array, or the
      [key, value] pairs of a hash. */
  function ListItems(v: Value): Outcome<seq<Value>>
  {
    match v
    case List(items) => Ok(items)
    case Hash(pairs) => Ok(seq(|pairs|, i requires 0 <= i < |pairs| => List([pairs[i].key, pairs[i].val])))
    case _ => Raise(NoMethod)
  }

  /** Every item compiled, in list order; the first item that does not
      compile makes the whole list fail (CompileAllElementwise). */
  function CompileAll(items: seq<Value>): (r: Outcome<seq<Matcher>>)
    ensures r.Ok? ==> |r.value| == |items|
    ensures r.Raise? ==> r.failure == NoMethod
  {
    if |items| == 0 then Ok([])
    else
      match Compile(items[0])
      case Raise(f) => Raise(f)
      case Ok(m) => Then([m], CompileAll(items[1..]))
  }

  /** `map` over a list with a step that may raise: the first raise ends it. */
  function MapAll<A, B>(f: A -> Outcome<B>, xs: seq<A>): Outcome<seq<B>>
  {
    if |xs| == 0 then Ok([])
    else
      match f(xs[0])
      case Raise(e) => Raise(e)
      case Ok(y) => Then([y], MapAll(f, xs[1..]))
  }

  lemma {:induction false} MapAllElementwise<A, B>(f: A -> Outcome<B>, xs: seq<A>)
    ensures MapAll(f, xs).Ok? <==> forall i :: 0 <= i < |xs| ==> f(xs[i]).Ok?
    ensures MapAll(f, xs).Ok? ==>
              |MapAll(f, xs).value| == |xs| && forall i :: 0 <= i < |xs| ==> MapAll(f, xs).value[i] == f(xs[i]).value
  {
    if |xs| > 0 {
      var rest := xs[1..];
      MapAllElementwise(f, rest);
      assert forall i :: 1 <= i < |xs| ==> rest[i - 1] == xs[i];
      if f(xs[0]).Ok? && MapAll(f, rest).Ok? {
        var v := MapAll(f, xs).value;
        assert v == [f(xs[0]).value] + MapAll(f, rest).value;
        assert forall i :: 1 <= i < |xs| ==> v[i] == MapAll(f, rest).value[i - 1];
      } else if f(xs[0]).Ok? {
        var j :| 0 <= j < |rest| && !f(rest[j]).Ok?;
        assert !f(xs[j + 1]).Ok?;
      }
    }
  }

  lemma {:induction false} CompileAllIsMap(items: seq<Value>)
    ensures CompileAll(items) == MapAll(Compile, items)
  {
    if |items| > 0 {
      CompileAllIsMap(items[1..]);
    }
  }

  /** The list compiles exactly when every item does, and then holds each
      item's matcher at the item's position. */
  lemma CompileAllElementwise(items: seq<Value>)
    ensures CompileAll(items).Ok? <==> forall i :: 0 <= i < |items| ==> Compile(items[i]).Ok?
    ensures CompileAll(items).Ok? ==> forall i :: 0 <= i < |items| ==> CompileAll(items).value[i] == Compile(items[i]).value
  {
    CompileAllIsMap(items);
    MapAllElementwise(Compile, items);
  }

  function OperatorOf(name: string): (r: Option<Operator>)
    ensures r == Some(OneOf) <==> name == "one_of"
    ensures r == Some(AllOf) <==> name == "all_of"
  {
    if name == "all_of" then Some(AllOf) else if name == "one_of" then Some(OneOf) else None
  }

  function ConditionOf(name: string): (r: Option<Condition>)
    ensures r == Some(Until) <==> name == "until"
    ensures r == Some(While) <==> name == "while"
  {
    if name == "until" then Some(Until) else if name == "while" then Some(While) else None
  }

  /** Everything wait_multiple settles before it starts polling. */
  datatype Plan = Plan(cond: Condition, op: Operator, matchers: seq<Matcher>)

  function Setup(args: seq<Value>): (r: Outcome<Plan>)
    ensures r.Raise? ==> r.failure in {MissingList, NoMethod, InvalidOperator, InvalidCondition}
    ensures r == Raise(MissingList) ==> WaitRequest(args) == Raise(MissingList)
    ensures r.Ok? ==> WaitRequest(args).Ok? && ListItems(WaitRequest(args).value.list).Ok?
                      && |r.value.matchers| == |ListItems(WaitRequest(args).value.list).value|
  {
    match WaitRequest(args)
    case Raise(f) => Raise(f)
    case Ok(req) =>
      match SymbolName(req.condition)
      case Raise(f) => Raise(f)
      case Ok(cname) =>
        match SymbolName(req.operator)
        case Raise(f) => Raise(f)
        case Ok(oname) =>
          match ListItems(req.list)
          case Raise(f) => Raise(f)
          case Ok(items) =>
            match CompileAll(items)
            case Raise(f) => Raise(f)
            case Ok(ms) =>
              if OperatorOf(oname).None? then Raise(InvalidOperator)
              else if ConditionOf(cname).None? then Raise(InvalidCondition)
              else Ok(Plan(ConditionOf(cname).value, OperatorOf(oname).value, ms))
  }

  /** Once the options, the list and every item are accepted, an operator
      other than `:one_of`/`:all_of` is rejected first, then a condition
      other than `:until`/`:while`; otherwise the plan holds the operator,
      the condition and one matcher per item. */
  lemma SetupRejects(args: seq<Value>, req: Request, cname: string, oname: string, items: seq<Value>)
    requires WaitRequest(args) == Ok(req)
    requires SymbolName(req.condition) == Ok(cname) && SymbolName(req.operator) == Ok(oname)
    requires ListItems(req.list) == Ok(items) && CompileAll(items).Ok?
    ensures oname != "one_of" && oname != "all_of" ==> Setup(args) == Raise(InvalidOperator)
    ensures (oname == "one_of" || oname == "all_of") && cname != "until" && cname != "while" ==>
              Setup(args) == Raise(InvalidCondition)
    ensures (oname == "one_of" || oname == "all_of") && (cname == "until" || cname == "while") ==>
              Setup(args) == Ok(Plan(if cname == "until" then Until else While,
                                     if oname == "one_of" then OneOf else AllOf, CompileAll(items).value))
  {
  }

  /** Polling, the final re-evaluation on `final`, and the error rule. */
  function Finish(plan: Plan, polls: seq<Page>, final: Page, rx: (string, string) -> bool): (r: Outcome<seq<Hit>>)
    ensures r.Raise? ==> r.failure in {Raised, NoMethod, WaitTimeout}
    ensures r.Ok? ==> |r.value| <= |plan.matchers|
  {
    match Poll(plan.cond, plan.op, plan.matchers, polls, rx)
    case Raise(f) => Raise(f)
    case Ok(timedOut) =>
      match Collect(plan.matchers, final, rx)
      case Raise(f) => Raise(f)
      case Ok(hits) => if timedOut && |hits| == 0 then Raise(WaitTimeout) else Ok(hits)
  }

  function WaitMultipleSpec(args: seq<Value>, polls: seq<Page>, final: Page, rx: (string, string) -> bool): Outcome<seq<Hit>>
  {
    match Setup(args)
    case Raise(f) => Raise(f)
    case Ok(plan) => Finish(plan, polls, final, rx)
  }

  /** The error rule: a wait fails with a timeout exactly when the poll
      timed out AND no matcher holds afterwards; otherwise it returns the
      matchers' truthy values on the final state. */
  lemma FinishRule(plan: Plan, polls: seq<Page>, final: Page, rx: (string, string) -> bool)
    ensures Finish(plan, polls, final, rx) == Raise(WaitTimeout)
        <==> Poll(plan.cond, plan.op, plan.matchers, polls, rx) == Ok(true) && Collect(plan.matchers, final, rx) == Ok([])
    ensures Finish(plan, polls, final, rx).Ok? ==>
              Finish(plan, polls, final, rx) == Collect(plan.matchers, final, rx)
    ensures Poll(plan.cond, plan.op, plan.matchers, polls, rx) == Ok(false) ==>
              Finish(plan, polls, final, rx) == Collect(plan.matchers, final, rx)
  {
  }

  /** Leniency: when the combination never held but some matcher holds at
      the end, the partial result is returned instead of a timeout. */
  lemma PartialResultsOnTimeout(plan: Plan, polls: seq<Page>, final: Page, rx: (string, string) -> bool, i: nat)
    requires i < |plan.matchers| && Eval(plan.matchers[i], final, rx).Ok? && Eval(plan.matchers[i], final, rx).value.Some?
    requires Collect(plan.matchers, final, rx).Ok?
    ensures Finish(plan, polls, final, rx).Ok? || Poll(plan.cond, plan.op, plan.matchers, polls, rx).Raise?
  {
    var hits := Collect(plan.matchers, final, rx).value;
    CollectAppend(plan.matchers[..i], plan.matchers[i..], final, rx);
    assert plan.matchers[..i] + plan.matchers[i..] == plan.matchers;
    assert plan.matchers[i..] == [plan.matchers[i]] + plan.matchers[i + 1..];
    CollectAppend([plan.matchers[i]], plan.matchers[i + 1..], final, rx);
    CollectOne(plan.matchers[i], final, rx);
    assert |hits| > 0;
  }

  /** wait_multiple, step by step as the source does it: compile the items,
      poll, re-evaluate every matcher, then apply the error rule. */
  method WaitMultiple(args: seq<Value>, polls: seq<Page>, final: Page, rx: (string, string) -> bool)
    returns (r: Outcome<seq<Hit>>)
    ensures r == WaitMultipleSpec(args, polls, final, rx)
  {
    var request := WaitRequest(args);
    if request.Raise? { return Raise(request.failure); }
    var condition := SymbolName(request.value.condition);
    if condition.Raise? { return Raise(condition.failure); }
    var operator := SymbolName(request.value.operator);
    if operator.Raise? { return Raise(operator.failure); }
    var list := ListItems(request.value.list);
    if list.Raise? { return Raise(list.failure); }
    var items := list.value;

    var all := CompileItems(items);
    if all.Raise? { return Raise(all.failure); }

    var op := OperatorOf(operator.value);
    if op.None? { return Raise(InvalidOperator); }
    var cond := ConditionOf(condition.value);
    if cond.None? { return Raise(InvalidCondition); }

    var polled := PollStates(cond.value, op.value, all.value, polls, rx);
    if polled.Raise? { return Raise(polled.failure); }
    var timedOut := polled.value;
    var collected := Reevaluate(all.value, final, rx);
    if collected.Raise? { return Raise(collected.failure); }
    var results := collected.value;

    if timedOut && |results| == 0 {
      return Raise(WaitTimeout);
    }
    return Ok(results);
  }

  /** The loop that compiles each item and appends its matcher to `all`. */
  method CompileItems(items: seq<Value>) returns (r: Outcome<seq<Matcher>>)
    ensures r == CompileAll(items)
  {
    var all: seq<Matcher> := [];
    var i := 0;
    assert items[0..] == items;
    ThenEmpty(CompileAll(items));
    while i < |items|
      invariant 0 <= i <= |items|
      invariant CompileAll(items) == Then(all, CompileAll(items[i..]))
    {
      var m := Compile(items[i]);
      assert items[i..][1..] == items[i + 1..];
      if m.Raise? { return Raise(m.failure); }
      ThenConcat(all, Ok([m.value]), CompileAll(items[i + 1..]));
      all := all + [m.value];
      i := i + 1;
    }
    assert items[i..] == [];
    assert all + [] == all;
    return Ok(all);
  }

  /** The Watir wait: evaluate the combined block on each observed state
      until the condition is met; true when it never was (a timeout). */
  method PollStates(cond: Condition, op: Operator, all: seq<Matcher>, polls: seq<Page>, rx: (string, string) -> bool)
    returns (r: Outcome<bool>)
    ensures r == Poll(cond, op, all, polls, rx)
  {
    var k := 0;
    while k < |polls|
      invariant 0 <= k <= |polls|
      invariant Poll(cond, op, all, polls, rx) == Poll(cond, op, all, polls[k..], rx)
    {
      var held := Combined(op, all, polls[k], rx);
      assert polls[k..][1..] == polls[k + 1..];
      if held.Raise? { return Raise(held.failure); }
      if (cond == Until && held.value) || (cond == While && !held.value) {
        return Ok(false);
      }
      k := k + 1;
    }
    return Ok(true);
  }

  /** The loop after the wait: call every matcher once more and append
      each truthy result. */
  method Reevaluate(all: seq<Matcher>, final: Page, rx: (string, string) -> bool) returns (r: Outcome<seq<Hit>>)
    ensures r == Collect(all, final, rx)
  {
    var results: seq<Hit> := [];
    var j := 0;
    assert all[0..] == all;
    ThenEmpty(Collect(all, final, rx));
    while j < |all|
      invariant 0 <= j <= |all|
      invariant Collect(all, final, rx) == Then(results, Collect(all[j..], final, rx))
    {
      var res := Eval(all[j], final, rx);
      assert all[j..][1..] == all[j + 1..];
      if res.Raise? { return Raise(res.failure); }
      if res.value.Some? {
        ThenConcat(results, Ok([res.value.value]), Collect(all[j + 1..], final, rx));
        results := results + [res.value.value];
      }
      j := j + 1;
    }
    assert all[j..] == [];
    assert results + [] == results;
    return Ok(results);
  }

  /** The item `wait` hands to wait_multiple: its settings without the four
      option keys it takes out. */
  function WaitItem(pairs: seq<Pair>): seq<Pair>
  {
    Delete(Delete(Delete(Delete(pairs, Sym("timeout")), Sym("condition")), Sym("groups")), Sym("screenshot"))
  }

  /** The options `wait` hands to wait_multiple; `:operator` is left to its
      default. */
  function WaitOptions(pairs: seq<Pair>): seq<Pair>
  {
    [Pair(Sym("timeout"), Fetch(pairs, Sym("timeout"), Int(10))),
     Pair(Sym("condition"), Fetch(pairs, Sym("condition"), Sym("until"))),
     Pair(Sym("groups"), Fetch(pairs, Sym("groups"), Nil)),
     Pair(Sym("screenshot"), Fetch(pairs, Sym("screenshot"), Bool(false))),
     Pair(Sym("list"), List([Hash(WaitItem(pairs))]))]
  }

  /** wait: a one-item wait_multiple; the first result, or nil. */
  function Wait(settings: Value, polls: seq<Page>, final: Page, rx: (string, string) -> bool): (r: Outcome<Option<Hit>>)
    ensures !settings.Hash? ==> r == Raise(NoMethod)
    ensures r.Raise? ==> r.failure != MissingList
  {
    if !settings.Hash? then Raise(NoMethod)
    else
      WaitPassesListCheck(settings.pairs);
      match WaitMultipleSpec([Hash(WaitOptions(settings.pairs))], polls, final, rx)
      case Raise(f) => Raise(f)
      case Ok(hits) => Ok(if |hits| > 0 then Some(hits[0]) else None)
  }

  /** The options `wait` builds pass the `:list` check and take the
      default operator `:one_of`. */
  lemma WaitRequestOfWait(pairs: seq<Pair>)
    ensures WaitRequest([Hash(WaitOptions(pairs))])
         == Ok(Request(Fetch(pairs, Sym("timeout"), Int(10)), Fetch(pairs, Sym("condition"), Sym("until")),
                       Sym("one_of"), List([Hash(WaitItem(pairs))])))
  {
    OptionsRequest(Fetch(pairs, Sym("timeout"), Int(10)), Fetch(pairs, Sym("condition"), Sym("until")),
                   Fetch(pairs, Sym("groups"), Nil), Fetch(pairs, Sym("screenshot"), Bool(false)),
                   Hash(WaitItem(pairs)));
  }

  lemma WaitPassesListCheck(pairs: seq<Pair>)
    ensures Setup([Hash(WaitOptions(pairs))]) != Raise(MissingList)
  {
    WaitRequestOfWait(pairs);
  }

  lemma OptionsRequest(t: Value, c: Value, g: Value, sc: Value, item: Value)
    ensures var opts := [Pair(Sym("timeout"), t), Pair(Sym("condition"), c), Pair(Sym("groups"), g),
                         Pair(Sym("screenshot"), sc), Pair(Sym("list"), List([item]))];
            WaitRequest([Hash(opts)]) == Ok(Request(t, c, Sym("one_of"), List([item])))
  {
    var opts := [Pair(Sym("timeout"), t), Pair(Sym("condition"), c), Pair(Sym("groups"), g),
                 Pair(Sym("screenshot"), sc), Pair(Sym("list"), List([item]))];
    LookupFirst(opts, Sym("list"), 4);
    LookupFirst(opts, Sym("timeout"), 0);
    LookupFirst(opts, Sym("condition"), 1);
    assert forall j :: 0 <= j < |opts| ==> opts[j].key != Sym("operator");
    WaitRequestDefaults([Hash(opts)]);
  }

  /** So `wait` polls exactly one matcher, compiled from its item. */
  lemma WaitSetup(pairs: seq<Pair>, cond: Condition)
    requires Compile(Hash(WaitItem(pairs))).Ok?
    requires SymbolName(Fetch(pairs, Sym("condition"), Sym("until"))).Ok?
    requires ConditionOf(SymbolName(Fetch(pairs, Sym("condition"), Sym("until"))).value) == Some(cond)
    ensures Setup([Hash(WaitOptions(pairs))]) == Ok(Plan(cond, OneOf, [Compile(Hash(WaitItem(pairs))).value]))
  {
    WaitRequestOfWait(pairs);
    SingleItemSetup([Hash(WaitOptions(pairs))], Fetch(pairs, Sym("timeout"), Int(10)),
                    Fetch(pairs, Sym("condition"), Sym("until")), Hash(WaitItem(pairs)), cond);
  }

  lemma SingleItemSetup(args: seq<Value>, t: Value, c: Value, item: Value, cond: Condition)
    requires WaitRequest(args) == Ok(Request(t, c, Sym("one_of"), List([item])))
    requires Compile(item).Ok?
    requires SymbolName(c).Ok? && ConditionOf(SymbolName(c).value) == Some(cond)
    ensures Setup(args) == Ok(Plan(cond, OneOf, [Compile(item).value]))
  {
    var req := Request(t, c, Sym("one_of"), List([item]));
    assert ListItems(List([item])) == Ok([item]);
    CompileOne(item);
    assert SymbolName(Sym("one_of")) == Ok("one_of");
    SetupRejects(args, req, SymbolName(c).value, "one_of", [item]);
  }

  lemma CompileOne(item: Value)
    requires Compile(item).Ok?
    ensures CompileAll([item]) == Ok([Compile(item).value])
  {
    assert [item][1..] == [];
    assert [Compile(item).value] + [] == [Compile(item).value];
  }

  /** For either condition (`:until` or `:while`), wait returns the item's
      own match on the final state, or nil when the item does not hold there
      although the poll ended in time; it raises the timeout exactly when
      the poll timed out and the item does not hold at the end. */
  lemma {:induction false} WaitFirstResult(pairs: seq<Pair>, cond: Condition, polls: seq<Page>, final: Page, rx: (string, string) -> bool)
    requires Compile(Hash(WaitItem(pairs))).Ok?
    requires SymbolName(Fetch(pairs, Sym("condition"), Sym("until"))).Ok?
    requires ConditionOf(SymbolName(Fetch(pairs, Sym("condition"), Sym("until"))).value) == Some(cond)
    ensures var m := Compile(Hash(WaitItem(pairs))).value;
            var w := Wait(Hash(pairs), polls, final, rx);
            (w.Ok? && w.value.Some? ==> Eval(m, final, rx) == Ok(w.value))
            && (w == Ok(None) ==> Eval(m, final, rx) == Ok(None) && Poll(cond, OneOf, [m], polls, rx) == Ok(false))
            && (w == Raise(WaitTimeout) <==> Poll(cond, OneOf, [m], polls, rx) == Ok(true) && Eval(m, final, rx) == Ok(None))
  {
    var m := Compile(Hash(WaitItem(pairs))).value;
    WaitSetup(pairs, cond);
    var plan := Plan(cond, OneOf, [m]);
    assert Setup([Hash(WaitOptions(pairs))]) == Ok(plan);
    FinishRule(plan, polls, final, rx);
    CollectOne(m, final, rx);
  }
}
