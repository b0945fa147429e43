/** Selector normalisation (`parseFindSettings`) and the XPath built for a
    `:like` query, in lib/lapis_lazuli/browser.rb. */
module Selectors {
  import opened RubyValues

  /** The shape `parseFindSettings` leaves behind: no bare string or symbol,
      at the top or inside (nested) arrays of alternatives. */
  predicate Canonical(v: Value)
  {
    match v
    case Str(_) => false
    case Sym(_) => false
    case List(items) => forall i :: 0 <= i < |items| ==> Canonical(items[i])
    case _ => true
  }

  /** parseFindSettings: a String names an element, a Symbol is a `:like`
      query on that tag, an Array is rewritten element by element, and every
      other value is kept. */
  function ParseFindSettings(v: Value): (r: Value)
    ensures Canonical(r)
    ensures Canonical(v) ==> r == v
    ensures v.List? <==> r.List?
    ensures v.List? ==> |r.items| == |v.items|
  {
    match v
    case Str(_) => Hash([Pair(Sym("element"), v)])
    case Sym(_) => Hash([Pair(Sym("like"), v)])
    case List(items) => List(seq(|items|, i requires 0 <= i < |items| => ParseFindSettings(items[i])))
    case _ => v
  }

  lemma ParseString(s: string)
    ensures ParseFindSettings(Str(s)) == Hash([Pair(Sym("element"), Str(s))])
  {
  }

  lemma ParseSymbol(y: string)
    ensures ParseFindSettings(Sym(y)) == Hash([Pair(Sym("like"), Sym(y))])
  {
  }

  /** An array is mapped element-wise: same length, same order. */
  lemma ParseList(items: seq<Value>, i: nat)
    requires i < |items|
    ensures ParseFindSettings(List(items)).items[i] == ParseFindSettings(items[i])
  {
  }

  /** Normalising twice is normalising once. */
  lemma ParseIdempotent(v: Value)
    ensures ParseFindSettings(ParseFindSettings(v)) == ParseFindSettings(v)
  {
  }

  /** The pieces of the library that the model leaves uninterpreted: how a
      value other than a string, symbol, nil, boolean or integer prints, and
      `xp_contains` from lapis_lazuli/xpath, which builds an XPath
      "contains" predicate. */
  datatype Render = Render(
    other: Value -> string,
    xpContains: (string, Value, string) -> string)

  /** The `:like` value after its shorthands are expanded:
      `[e, a, i]` becomes `{:element => e, :attribute => a, :include => i}`
      and a symbol `e` becomes `{:element => e}`. */
  function ExpandLike(like: Value): Value
  {
    match like
    case List(items) =>
      if |items| == 3 then
        Hash([Pair(Sym("element"), items[0]), Pair(Sym("attribute"), items[1]), Pair(Sym("include"), items[2])])
      else like
    case Sym(_) => Hash([Pair(Sym("element"), like)])
    case _ => like
  }

  /** The XPath step for the `:attribute` of a like query: `text()` for the
      attribute `text`, `@name` for any other. */
  function AttributeStep(a: Value, render: Render): (r: Outcome<string>)
    ensures r.Ok? <==> a.Str? || a.Sym?
    ensures r.Ok? ==> r.value == (if SymbolName(a).value == "text" then "text()" else "@" + SymbolName(a).value)
  {
    match SymbolName(a)
    case Raise(f) => Raise(f)
    case Ok(name) => if name == "text" then Ok("text()") else Ok("@" + ToS(a, render.other))
  }

  /** The XPath of an expanded `:like` value, starting at `//`: the
      element's tag, and an `xp_contains` predicate on the attribute when both
      an attribute and an include are given. */
  function LikeQuery(opts: Value, render: Render): (r: Outcome<string>)
    ensures r.Ok? ==> |r.value| >= 2 && r.value[..2] == "//"
    ensures r.Raise? ==> r.failure == FindByLike || r.failure == NoMethod
  {
    if opts.Hash? && HasKey(opts.pairs, Sym("element")) then
      var path := "//" + ToS(Fetch(opts.pairs, Sym("element"), Nil), render.other);
      if HasKey(opts.pairs, Sym("attribute")) && HasKey(opts.pairs, Sym("include")) then
        match AttributeStep(Fetch(opts.pairs, Sym("attribute"), Nil), render)
        case Raise(f) => Raise(f)
        case Ok(step) =>
          var full := path + "[" + render.xpContains(step, Fetch(opts.pairs, Sym("include"), Nil), "") + "]";
          assert full[..2] == path[..2];
          Ok(full)
      else Ok(path)
    else Raise(FindByLike)
  }

  /** The XPath `findAll` queries for a `:like` value; `hasContext` says
      whether the search is relative to a context element. */
  function LikeXPath(like: Value, hasContext: bool, render: Render): Outcome<string>
  {
    match LikeQuery(ExpandLike(like), render)
    case Raise(f) => Raise(f)
    case Ok(q) => Ok((if hasContext then "." else "") + q)
  }

  /** The three-element shorthand builds the same query as the named hash. */
  lemma LikeShorthandAsHash(e: Value, a: Value, inc: Value, hasContext: bool, render: Render)
    ensures LikeXPath(List([e, a, inc]), hasContext, render)
         == LikeXPath(Hash([Pair(Sym("element"), e), Pair(Sym("attribute"), a), Pair(Sym("include"), inc)]), hasContext, render)
  {
    var h := Hash([Pair(Sym("element"), e), Pair(Sym("attribute"), a), Pair(Sym("include"), inc)]);
    assert ExpandLike(List([e, a, inc])) == h == ExpandLike(h);
  }

  /** The query for the hash form: `//element`, relative to a context when
      there is one, followed by the `xp_contains` predicate on the attribute
      step when both an attribute and an include are given. */
  lemma {:induction false} LikeHashXPath(pairs: seq<Pair>, hasContext: bool, render: Render)
    requires HasKey(pairs, Sym("element"))
    ensures var prefix := (if hasContext then ".//" else "//") + ToS(Fetch(pairs, Sym("element"), Nil), render.other);
            var step := AttributeStep(Fetch(pairs, Sym("attribute"), Nil), render);
            && (!(HasKey(pairs, Sym("attribute")) && HasKey(pairs, Sym("include"))) ==>
                  LikeXPath(Hash(pairs), hasContext, render) == Ok(prefix))
            && (HasKey(pairs, Sym("attribute")) && HasKey(pairs, Sym("include")) && step.Ok? ==>
                  LikeXPath(Hash(pairs), hasContext, render)
                  == Ok(prefix + "[" + render.xpContains(step.value, Fetch(pairs, Sym("include"), Nil), "") + "]"))
  {
    var dot := if hasContext then "." else "";
    var name := ToS(Fetch(pairs, Sym("element"), Nil), render.other);
    assert dot + ("//" + name) == (if hasContext then ".//" else "//") + name;
    var step := AttributeStep(Fetch(pairs, Sym("attribute"), Nil), render);
    if HasKey(pairs, Sym("attribute")) && HasKey(pairs, Sym("include")) && step.Ok? {
      var x := render.xpContains(step.value, Fetch(pairs, Sym("include"), Nil), "");
      var q := ("//" + name) + "[" + x + "]";
      assert ExpandLike(Hash(pairs)) == Hash(pairs);
      assert LikeQuery(Hash(pairs), render) == Ok(q);
      assert dot + q == ((if hasContext then ".//" else "//") + name) + "[" + x + "]";
    }
  }

  /** A bare symbol selects every element with that tag, with no predicate. */
  lemma LikeSymbol(tag: string, hasContext: bool, render: Render)
    ensures LikeXPath(Sym(tag), hasContext, render) == Ok((if hasContext then "." else "") + "//" + tag)
  {
    var prefix := if hasContext then "." else "";
    assert LikeQuery(ExpandLike(Sym(tag)), render) == Ok("//" + tag);
    assert prefix + ("//" + tag) == prefix + "//" + tag;
  }

  /** A like query is rejected exactly when, after expansion, it is not a
      hash with an `:element`, or its attribute is not a string or symbol. */
  lemma LikeRejected(like: Value, hasContext: bool, render: Render)
    ensures LikeXPath(like, hasContext, render) == Raise(FindByLike)
        <==> !(ExpandLike(like).Hash? && HasKey(ExpandLike(like).pairs, Sym("element")))
    ensures LikeXPath(like, hasContext, render) == Raise(NoMethod)
        <==> (ExpandLike(like).Hash? && HasKey(ExpandLike(like).pairs, Sym("element"))
              && HasKey(ExpandLike(like).pairs, Sym("attribute")) && HasKey(ExpandLike(like).pairs, Sym("include"))
              && !(Fetch(ExpandLike(like).pairs, Sym("attribute"), Nil).Str? || Fetch(ExpandLike(like).pairs, Sym("attribute"), Nil).Sym?))
  {
  }

  /** A context only prefixes the path with `.`, turning `//e` into the
      relative `.//e`; nothing else about the query changes. */
  lemma LikeContextPrefix(like: Value, render: Render)
    ensures LikeXPath(like, true, render).Ok? <==> LikeXPath(like, false, render).Ok?
    ensures LikeXPath(like, false, render).Ok? ==>
              LikeXPath(like, true, render).value == "." + LikeXPath(like, false, render).value
              && LikeXPath(like, false, render).value[..2] == "//"
  {
    var q := LikeQuery(ExpandLike(like), render);
    if q.Ok? {
      assert "" + q.value == q.value;
    }
  }
}
