/** The search form: on submit it hands the trimmed query to the page, unless
    nothing but white space was typed. Submitting reads the query and never
    changes it; only typing does. */
module SearchBar {
  import opened Wrappers
  import opened JsString

  /** The call the form makes on submit: `Some(q)` when it calls the page's
      search handler with `q`, `None` when it makes no call. */
  function SubmitQuery(query: string): Option<string> {
    if Trim(query) != "" then Some(Trim(query)) else None
  }

  /** The handler is called exactly when the query holds something other than
      white space, and then with the query minus surrounding white space:
      non-empty, no white space at either end, and keeping every other
      character typed, in order. */
  lemma SubmitQuerySpec(query: string)
    ensures SubmitQuery(query).Some? <==> !AllWs(query)
    ensures SubmitQuery(query).Some? ==>
      var q := SubmitQuery(query).value;
      && q == Trim(query)
      && q != "" && Trimmed(q)
      && NonWs(q) == NonWs(query)
  {
    TrimEmptyIff(query);
    TrimTrimmed(query);
    NonWsTrim(query);
  }

  /** Submitting an already submitted query submits the same text again. */
  lemma SubmitQueryIdempotent(query: string)
    requires SubmitQuery(query).Some?
    ensures SubmitQuery(SubmitQuery(query).value) == SubmitQuery(query)
  {
    TrimIdempotent(query);
  }
}
