/** The search page: the list of papers found, whether a search is running,
    the paper whose chat is open, and the browser key store consulted before
    a chat opens. */
module Page {
  import opened Wrappers
  import opened Papers

  /** The key the page stores the chat credential under. */
  const PerplexityKeyName := "PERPLEXITY_API_KEY"

  /** Every search asks arXiv for the first page of ten results. */
  const FirstResult := 0
  const PageSize := 10

  /** The query sent to the arXiv API: the search terms, the offset of the
      first result and the number of results. */
  datatype SearchRequest = SearchRequest(query: string, start: nat, maxResults: nat)

  /** How the request ended: the `entry` elements found in the response, or an
      exception from the network or from reading the body. Parsing never
      fails: a malformed or error response yields a document in which no
      `entry` is found, that is `Fetched([])`. */
  datatype SearchOutcome = Fetched(entries: seq<Entry>) | FetchFailed

  /** The paper list after a search: the parsed entries on success, the list
      from before the search otherwise. */
  function PapersAfterSearch(before: seq<Paper>, outcome: SearchOutcome): seq<Paper> {
    match outcome
    case Fetched(entries) => ParsePapers(entries)
    case FetchFailed => before
  }

  /** `localStorage.getItem(name)`: `None` stands for `null`. */
  function GetItem(store: map<string, string>, name: string): Option<string> {
    if name in store then Some(store[name]) else None
  }

  /** `localStorage.getItem(name)` is truthy: present and not `""`. */
  predicate HasKey(store: map<string, string>, name: string) {
    name in store && store[name] != ""
  }

  /** The result of the credential check before a chat opens: whether it
      opens, and the key store afterwards. */
  datatype Gate = Gate(open: bool, store: map<string, string>)

  /** The credential check. `promptReply` is what the prompt returns if it is
      shown: `None` when it is cancelled. It is consulted only when no key is
      stored. */
  function ChatGate(store: map<string, string>, promptReply: Option<string>): Gate {
    if HasKey(store, PerplexityKeyName) then Gate(true, store)
    else if promptReply.Some? && promptReply.value != "" then
      Gate(true, store[PerplexityKeyName := promptReply.value])
    else Gate(false, store)
  }

  /** Every paper shown is well formed. */
  predicate AllWellFormed(papers: seq<Paper>) {
    forall i :: 0 <= i < |papers| ==> WellFormed(papers[i])
  }

  /** A search ends with the parsed entries, one well-formed record per entry
      in document order, or with the earlier list untouched. */
  lemma PapersAfterSearchSpec(before: seq<Paper>, outcome: SearchOutcome)
    ensures var after := PapersAfterSearch(before, outcome);
      && (outcome.FetchFailed? ==> after == before)
      && (outcome.Fetched? ==>
            && |after| == |outcome.entries|
            && AllWellFormed(after)
            && forall i :: 0 <= i < |after| ==> after[i] == ToPaper(outcome.entries[i]))
      && (AllWellFormed(before) ==> AllWellFormed(after))
  {
    if outcome.Fetched? {
      ParsePapersWellFormed(outcome.entries);
    }
  }

  /** The chat opens exactly when a key is stored or the prompt returns a
      non-empty string; in the second case that string is stored. When the
      chat stays closed the store is unchanged, and no other key ever changes.
      Once the chat has opened, a key is stored. */
  lemma ChatGateSpec(store: map<string, string>, promptReply: Option<string>)
    ensures var g := ChatGate(store, promptReply);
      && (g.open <==> HasKey(store, PerplexityKeyName) || (promptReply.Some? && promptReply.value != ""))
      && (g.open ==> HasKey(g.store, PerplexityKeyName))
      && (HasKey(store, PerplexityKeyName) || !g.open ==> g.store == store)
      && (!HasKey(store, PerplexityKeyName) && g.open ==>
            g.store == store[PerplexityKeyName := promptReply.value])
      && (forall name :: name != PerplexityKeyName ==>
            (name in g.store <==> name in store) && (name in store ==> g.store[name] == store[name]))
  {
  }

  /** After the chat has opened once, opening any chat again succeeds without
      a prompt and leaves the store as it is. */
  lemma ChatGateOnce(store: map<string, string>, first: Option<string>, later: Option<string>)
    requires ChatGate(store, first).open
    ensures var s := ChatGate(store, first).store;
      ChatGate(s, later) == Gate(true, s)
  {
    ChatGateSpec(store, first);
  }

  /** The state of the search page. `store` stands for the browser key store. */
  class Controller {
    var papers: seq<Paper>
    var isLoading: bool
    var selectedPaper: Option<Paper>
    var store: map<string, string>

    /** Every paper on the page came out of the entry normalisation. */
    predicate Valid()
      reads this
    {
      AllWellFormed(papers)
    }

    /** The page as first rendered: no papers, no search running, no chat. */
    constructor (store: map<string, string>)
      ensures Valid()
      ensures papers == [] && !isLoading && selectedPaper == None && this.store == store
    {
      papers := [];
      isLoading := false;
      selectedPaper := None;
      this.store := store;
    }

    /** The first half of `handleSearch`: mark the page busy and issue the
        request for the first page of results. */
    method StartSearch(query: string) returns (request: SearchRequest)
      requires Valid()
      modifies this
      ensures Valid()
      ensures request == SearchRequest(query, FirstResult, PageSize)
      ensures isLoading
      ensures papers == old(papers) && selectedPaper == old(selectedPaper) && store == old(store)
    {
      isLoading := true;
      request := SearchRequest(query, FirstResult, PageSize);
    }

    /** The second half of `handleSearch`: on success show the parsed
        entries, on failure keep the list; either way the page is no longer
        busy. */
    method CompleteSearch(outcome: SearchOutcome)
      requires Valid()
      modifies this
      ensures Valid()
      ensures !isLoading
      ensures papers == PapersAfterSearch(old(papers), outcome)
      ensures selectedPaper == old(selectedPaper) && store == old(store)
    {
      PapersAfterSearchSpec(papers, outcome);
      match outcome {
        case Fetched(entries) =>
          papers := ParsePapers(entries);
        case FetchFailed =>
      }
      isLoading := false;
    }

    /** `handleChat`: ask for a key when none is stored; open the chat on
        `paper` only if a key is stored or one was supplied. */
    method HandleChat(paper: Paper, promptReply: Option<string>)
      requires Valid()
      modifies this
      ensures Valid()
      ensures var g := ChatGate(old(store), promptReply);
        && store == g.store
        && selectedPaper == (if g.open then Some(paper) else old(selectedPaper))
      ensures papers == old(papers) && isLoading == old(isLoading)
    {
      if !HasKey(store, PerplexityKeyName) {
        if promptReply.Some? && promptReply.value != "" {
          store := store[PerplexityKeyName := promptReply.value];
        } else {
          return;
        }
      }
      selectedPaper := Some(paper);
    }

    /** The chat's close button. */
    method Close()
      requires Valid()
      modifies this
      ensures Valid()
      ensures selectedPaper == None
      ensures papers == old(papers) && isLoading == old(isLoading) && store == old(store)
    {
      selectedPaper := None;
    }
  }
}
