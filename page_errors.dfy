/** Page error detection: `get_html_errors` and `has_error?` in
    lib/lapis_lazuli/browser.rb. The configured error strings, the page HTML,
    the JavaScript error list and the HTTP status are inputs here; reading
    them from the configuration and the browser is not modelled. */
module PageErrors {
  import opened RubyValues

  /** The configured error strings that occur in the page, in configured
      order. */
  function ErrorsIn(errorStrings: seq<string>, page: string): (r: seq<string>)
    ensures forall e :: e in r <==> e in errorStrings && Contains(page, e)
    ensures |r| <= |errorStrings|
  {
    if |errorStrings| == 0 then []
    else
      var last := errorStrings[|errorStrings| - 1];
      var before := errorStrings[..|errorStrings| - 1];
      assert errorStrings == before + [last];
      ErrorsIn(before, page) + (if Contains(page, last) then [last] else [])
  }

  /** Filtering distributes over concatenation: the reported errors keep the
      configured order. */
  lemma {:induction false} ErrorsInAppend(a: seq<string>, b: seq<string>, page: string)
    ensures ErrorsIn(a + b, page) == ErrorsIn(a, page) + ErrorsIn(b, page)
  {
    if |b| == 0 {
      assert a + b == a;
    } else {
      var last := b[|b| - 1];
      assert (a + b)[..|a + b| - 1] == a + b[..|b| - 1];
      ErrorsInAppend(a, b[..|b| - 1], page);
    }
  }

  /** get_html_errors: without configured error strings, or when the HTML
      cannot be read, there are none; otherwise each configured string that
      the page contains is reported. */
  method HtmlErrors(errorStrings: Option<seq<string>>, html: Option<string>) returns (result: seq<string>)
    ensures errorStrings.None? || html.None? ==> result == []
    ensures errorStrings.Some? && html.Some? ==> result == ErrorsIn(errorStrings.value, html.value)
  {
    result := [];
    if errorStrings.None? || html.None? {
      return;
    }
    var strings := errorStrings.value;
    var page := html.value;
    for i := 0 to |strings|
      invariant result == ErrorsIn(strings[..i], page)
    {
      assert strings[..i + 1][..i] == strings[..i];
      if Contains(page, strings[i]) {
        result := result + [strings[i]];
      }
    }
    assert strings[..|strings|] == strings;
  }

  /** has_error?: the page is faulty when a configured error string occurs in
      its HTML, when the browser reports any JavaScript error, or when the HTTP
      status is above 299 (a missing status reads as 0). */
  function HasError(errorStrings: Option<seq<string>>, html: Option<string>,
                    jsErrors: Option<seq<Value>>, status: Option<int>): (r: bool)
    ensures r <==>
              (errorStrings.Some? && html.Some? && exists e :: e in errorStrings.value && Contains(html.value, e))
              || (jsErrors.Some? && |jsErrors.value| > 0)
              || (status.Some? && status.value > 299)
  {
    var htmlErrors := if errorStrings.Some? && html.Some? then ErrorsIn(errorStrings.value, html.value) else [];
    assert |htmlErrors| > 0 ==> htmlErrors[0] in htmlErrors;
    var errors := |htmlErrors| + (if jsErrors.Some? then |jsErrors.value| else 0);
    var code := if status.Some? then status.value else 0;
    errors > 0 || code > 299
  }
}
