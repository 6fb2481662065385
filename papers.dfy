/** Normalisation of search results: each Atom `entry` of the arXiv response
    (RFC 4287, section 4.1.2) becomes a `Paper` record. The XML itself is not
    modelled; an entry is the text the DOM lookups would find in it. */
module Papers {
  import opened Wrappers
  import opened JsString

  /** What `getElementsByTagName(..)[0]?.textContent` finds in one entry: `None`
      where the element is missing. `authorNames` holds, per `author` element
      in document order, the text of its first `name` element. */
  datatype Entry = Entry(
    id: Option<string>,
    title: Option<string>,
    authorNames: seq<Option<string>>,
    summary: Option<string>)

  datatype Paper = Paper(
    id: string,
    title: string,
    authors: seq<string>,
    abstractText: string,
    url: string)

  /** Title and summary text after `replace(/\s+/g, " ").trim()`. */
  function CollapseWs(s: string): string {
    Trim(ReplaceWsRuns(s))
  }

  /** The `x || ""` default: a missing element gives the empty string. */
  function OrEmpty(text: Option<string>): string {
    match text
    case None => ""
    case Some(t) => t
  }

  /** The optional-chained `?.replace(..).trim() || ""` of the title and summary. */
  function CollapsedOrEmpty(text: Option<string>): string {
    match text
    case None => ""
    case Some(t) => CollapseWs(t)
  }

  /** The record built for one entry. */
  function ToPaper(e: Entry): Paper {
    Paper(
      OrEmpty(e.id),
      CollapsedOrEmpty(e.title),
      AuthorList(e.authorNames),
      CollapsedOrEmpty(e.summary),
      OrEmpty(e.id))
  }

  /** The inner `Array.from(..).map` over `author` elements. */
  function AuthorList(names: seq<Option<string>>): (authors: seq<string>)
    ensures |authors| == |names|
    ensures forall i :: 0 <= i < |names| ==> authors[i] == OrEmpty(names[i])
  {
    if names == [] then [] else [OrEmpty(names[0])] + AuthorList(names[1..])
  }

  /** The outer `Array.from(entries).map`: one record per entry, in document order. */
  function ParsePapers(entries: seq<Entry>): (papers: seq<Paper>)
    ensures |papers| == |entries|
    ensures forall i :: 0 <= i < |entries| ==> papers[i] == ToPaper(entries[i])
  {
    if entries == [] then [] else [ToPaper(entries[0])] + ParsePapers(entries[1..])
  }

  /** The shape every normalised title or abstract has. */
  predicate Collapsed(s: string) {
    Trimmed(s) && Squashed(s)
  }

  /** What every record satisfies, whatever the entry held. */
  predicate WellFormed(p: Paper) {
    p.url == p.id && Collapsed(p.title) && Collapsed(p.abstractText)
  }

  // ------------------------------------------------------------ collapsing

  /** After collapsing there is no white space at either end, no two adjacent
      white-space characters, and every white-space character left is `' '`. */
  lemma CollapseWsCollapsed(s: string)
    ensures Collapsed(CollapseWs(s))
  {
    var squashed := ReplaceWsRuns(s);
    ReplaceWsRunsSquashed(s);
    SquashedTrim(squashed);
    TrimTrimmed(squashed);
  }

  /** Collapsing keeps the non-white-space characters, in the same order. */
  lemma CollapseWsKeepsText(s: string)
    ensures NonWs(CollapseWs(s)) == NonWs(s)
  {
    NonWsReplaceWsRuns(s);
    NonWsTrim(ReplaceWsRuns(s));
  }

  /** A string already collapsed is left unchanged. */
  lemma CollapseWsOfCollapsed(s: string)
    requires Collapsed(s)
    ensures CollapseWs(s) == s
  {
    ReplaceWsRunsOfSquashed(s);
    TrimOfTrimmed(s);
  }

  /** Collapsing is idempotent. */
  lemma CollapseWsIdempotent(s: string)
    ensures CollapseWs(CollapseWs(s)) == CollapseWs(s)
  {
    CollapseWsCollapsed(s);
    CollapseWsOfCollapsed(CollapseWs(s));
  }

  /** Collapsing yields `""` exactly when the input is all white space. */
  lemma CollapseWsEmptyIff(s: string)
    ensures CollapseWs(s) == "" <==> AllWs(s)
  {
    CollapseWsKeepsText(s);
    NonWsEmptyIff(s);
    NonWsEmptyIff(CollapseWs(s));
  }

  /** Collapsing gives exactly the words of the input, in order, separated by
      single spaces: an independent definition of the normalised text. */
  lemma CollapseWsIsJoinedWords(s: string)
    ensures CollapseWs(s) == Join(Words(s), " ")
  {
    var t := TrimStart(s);
    var joined := Join(Words(s), " ");
    WordsTrimStart(s);
    ReplaceWsRunsIsJoin(t);
    WordsAreWords(s);
    JoinWordsTrimmed(Words(s));
    var mid := ReplaceWsRuns(t);
    assert Trim(mid) == joined by {
      if EndsInWs(t) {
        TrimTrailingSpace(joined);
      } else {
        TrimOfTrimmed(joined);
      }
    }
    if s != [] && IsWs(s[0]) {
      ReplaceWsRunsWsHead(s);
      TrimLeadingSpace(mid);
    }
  }

  // --------------------------------------------------------------- records

  /** A normalised title or abstract: collapsed, `""` exactly when the element
      is missing or holds only white space, and otherwise keeping every
      non-white-space character of the element's text. */
  lemma CollapsedOrEmptySpec(text: Option<string>)
    ensures Collapsed(CollapsedOrEmpty(text))
    ensures CollapsedOrEmpty(text) == "" <==> text.None? || AllWs(text.value)
    ensures text.Some? ==> NonWs(CollapsedOrEmpty(text)) == NonWs(text.value)
  {
    if text.Some? {
      CollapseWsCollapsed(text.value);
      CollapseWsEmptyIff(text.value);
      CollapseWsKeepsText(text.value);
    }
  }

  /** Each record: `url` is a copy of `id`; title and abstract are collapsed;
      a missing id, title or summary gives `""`, and so does a title or summary
      made only of white space; the other text survives collapsing; one author
      per `author` element, in order, `""` for a missing name. */
  lemma ToPaperSpec(e: Entry)
    ensures var p := ToPaper(e);
      && WellFormed(p)
      && p.id == OrEmpty(e.id)
      && (p.title == "" <==> e.title.None? || AllWs(e.title.value))
      && (p.abstractText == "" <==> e.summary.None? || AllWs(e.summary.value))
      && (e.title.Some? ==> NonWs(p.title) == NonWs(e.title.value))
      && (e.summary.Some? ==> NonWs(p.abstractText) == NonWs(e.summary.value))
      && |p.authors| == |e.authorNames|
      && (forall i :: 0 <= i < |e.authorNames| ==>
            p.authors[i] == (if e.authorNames[i].Some? then e.authorNames[i].value else ""))
  {
    CollapsedOrEmptySpec(e.title);
    CollapsedOrEmptySpec(e.summary);
  }

  /** Every record of a parsed response is well formed and mirrors its entry. */
  lemma ParsePapersWellFormed(entries: seq<Entry>)
    ensures forall i :: 0 <= i < |entries| ==>
      WellFormed(ParsePapers(entries)[i]) && ParsePapers(entries)[i].id == OrEmpty(entries[i].id)
  {
    forall i | 0 <= i < |entries|
      ensures WellFormed(ParsePapers(entries)[i]) && ParsePapers(entries)[i].id == OrEmpty(entries[i].id)
    {
      ToPaperSpec(entries[i]);
    }
  }
}
