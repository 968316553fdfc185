/**
 * `recommend_books` (mcp_server.py): subject results first, search results to
 * make up a shortfall, duplicates by case-insensitive title removed keeping the
 * first, and at most `limit` of them listed.
 */
module Recommend {
  import opened Wrappers
  import opened Text
  import opened RequestParams
  import opened Listings

  /** The dictionary built for each candidate book. */
  datatype Recommendation = Recommendation(title: string, authors: string, editions: int, key: string,
                                           coverId: Option<int>, hasFulltext: bool, firstYear: Option<int>)

  /** A candidate from the subject reply; it has no `first_year` key. */
  function FromSubjectWork(work: SubjectWork): Recommendation {
    Recommendation(work.title.GetOr("Unknown"), Join(NamesOf(work.authors.GetOr([]), "Unknown"), ", "),
                   work.editionCount.GetOr(0), work.key.GetOr(""), work.coverId,
                   work.hasFulltext.GetOr(false), None)
  }

  /** A candidate from the search reply. */
  function FromSearchDoc(book: BookDoc): Recommendation {
    Recommendation(book.title.GetOr("Unknown"), Join(book.authorName.GetOr(["Unknown"]), ", "),
                   book.editionCount.GetOr(0), book.key.GetOr(""), book.coverI,
                   book.hasFulltext.GetOr(false), book.firstPublishYear)
  }

  /**
   * The candidates a reply contributes. A reply that is `None` stands for a
   * status other than 200 or a failed request, both of which are skipped.
   */
  function SubjectCandidates(reply: Option<SubjectData>): seq<Recommendation> {
    if reply.Some? then Map(reply.value.works.GetOr([]), FromSubjectWork) else []
  }

  function SearchCandidates(reply: Option<BooksData>): seq<Recommendation> {
    if reply.Some? then Map(reply.value.docs.GetOr([]), FromSearchDoc) else []
  }

  /** The loop `for x in xs: results.append(make(x))`. */
  method AppendAll<T>(results: seq<Recommendation>, xs: seq<T>, make: T -> Recommendation)
    returns (extended: seq<Recommendation>)
    ensures extended == results + Map(xs, make)
  {
    extended := results;
    var i := 0;
    while i < |xs|
      invariant 0 <= i <= |xs|
      invariant extended == results + Map(xs[..i], make)
    {
      MapSnoc(xs, i, make);
      extended := extended + [make(xs[i])];
      i := i + 1;
    }
    assert xs[..i] == xs;
  }

  // ------------------------------------------------------------ deduplication

  /** The key duplicates are detected by: the lower-cased title. */
  function TitleKey(r: Recommendation): string {
    Lower(r.title)
  }

  function TitleKeys(rs: seq<Recommendation>): set<string> {
    set i | 0 <= i < |rs| :: TitleKey(rs[i])
  }

  /** What the `seen_titles` loop keeps of `rs`. */
  function Unique(rs: seq<Recommendation>): seq<Recommendation> {
    if rs == [] then []
    else
      var kept := Unique(rs[..|rs| - 1]);
      var last := rs[|rs| - 1];
      if TitleKey(last) in TitleKeys(kept) then kept else kept + [last]
  }

  lemma TitleKeysSnoc(rs: seq<Recommendation>, r: Recommendation)
    ensures TitleKeys(rs + [r]) == TitleKeys(rs) + {TitleKey(r)}
  {
    var both := rs + [r];
    assert forall i :: 0 <= i < |rs| ==> both[i] == rs[i];
    assert both[|rs|] == r;
  }

  /** The loop removing duplicate titles, with its `seen_titles` set. */
  method DedupByTitle(results: seq<Recommendation>) returns (unique: seq<Recommendation>)
    ensures unique == Unique(results)
  {
    var seen: set<string> := {};
    unique := [];
    var i := 0;
    while i < |results|
      invariant 0 <= i <= |results|
      invariant unique == Unique(results[..i])
      invariant seen == TitleKeys(unique)
    {
      var r := results[i];
      assert results[..i + 1][..i] == results[..i];
      if Lower(r.title) !in seen {
        TitleKeysSnoc(unique, r);
        seen := seen + {Lower(r.title)};
        unique := unique + [r];
      }
      i := i + 1;
    }
    assert results[..i] == results;
  }

  /** Deduplication loses no title. */
  lemma {:induction false} UniqueKeepsTitles(rs: seq<Recommendation>)
    ensures TitleKeys(Unique(rs)) == TitleKeys(rs)
  {
    if rs != [] {
      var init := rs[..|rs| - 1];
      var last := rs[|rs| - 1];
      UniqueKeepsTitles(init);
      TitleKeysSnoc(init, last);
      assert init + [last] == rs;
      var kept := Unique(init);
      if TitleKey(last) !in TitleKeys(kept) {
        TitleKeysSnoc(kept, last);
      }
    }
  }

  /** No two kept entries share a lower-cased title. */
  lemma {:induction false} UniqueDistinct(rs: seq<Recommendation>)
    ensures forall i, j :: 0 <= i < j < |Unique(rs)| ==> TitleKey(Unique(rs)[i]) != TitleKey(Unique(rs)[j])
  {
    if rs != [] {
      var init := rs[..|rs| - 1];
      var last := rs[|rs| - 1];
      UniqueDistinct(init);
      var kept := Unique(init);
      if TitleKey(last) !in TitleKeys(kept) {
        var u := kept + [last];
        forall i, j | 0 <= i < j < |u| ensures TitleKey(u[i]) != TitleKey(u[j]) {
          if j == |kept| {
            assert TitleKey(u[i]) in TitleKeys(kept);
          }
        }
      }
    }
  }

  /** Entry i of `rs` is the first with its lower-cased title. */
  predicate IsFirstOccurrence(rs: seq<Recommendation>, i: nat)
    requires i < |rs|
  {
    forall j :: 0 <= j < i ==> TitleKey(rs[j]) != TitleKey(rs[i])
  }

  /** The entries among the first n that are first occurrences, in input order. */
  function FirstOccurrences(rs: seq<Recommendation>, n: nat): seq<Recommendation>
    requires n <= |rs|
  {
    if n == 0 then []
    else FirstOccurrences(rs, n - 1) + (if IsFirstOccurrence(rs, n - 1) then [rs[n - 1]] else [])
  }

  /**
   * Deduplication keeps exactly the first occurrence of each title and keeps
   * them in input order: it is the subsequence of first occurrences.
   */
  lemma {:induction false} UniqueIsFirstOccurrences(rs: seq<Recommendation>, n: nat)
    requires n <= |rs|
    ensures Unique(rs[..n]) == FirstOccurrences(rs, n)
  {
    if n > 0 {
      UniqueIsFirstOccurrences(rs, n - 1);
      var prefix := rs[..n - 1];
      assert rs[..n][..n - 1] == prefix;
      UniqueKeepsTitles(prefix);
      var r := rs[n - 1];
      if TitleKey(r) in TitleKeys(prefix) {
        var j :| 0 <= j < |prefix| && TitleKey(prefix[j]) == TitleKey(r);
        assert TitleKey(rs[j]) == TitleKey(rs[n - 1]);
        assert !IsFirstOccurrence(rs, n - 1);
      } else {
        forall j | 0 <= j < n - 1 ensures TitleKey(rs[j]) != TitleKey(rs[n - 1]) {
          assert TitleKey(prefix[j]) in TitleKeys(prefix);
        }
      }
    }
  }

  lemma {:induction false} UniqueNonEmpty(rs: seq<Recommendation>)
    ensures rs != [] ==> Unique(rs) != []
  {
    if rs != [] {
      var init := rs[..|rs| - 1];
      UniqueNonEmpty(init);
    }
  }

  // ------------------------------------------------------------ formatting

  /** The availability marks (emoji in the tool's output). */
  const AvailableOnline := "\U{1F4D7} Available online"
  const PrintOnly := "\U{1F4D5} Print only"
  /** The book emoji heading the listing. */
  const RecommendationsMark := "\U{1F4D6}"
  const Tip := "\U{1F4A1} **Tip:** Use search_books() for more specific searches, or browse_subject() to explore genres!"

  function SorryText(interest: string): string {
    "Sorry, I couldn't find recommendations for '" + interest
    + "'. Try different keywords like: science fiction, mystery, romance, history, biography, cooking, self-help"
  }

  function RecommendationsHeader(interest: string): string {
    RecommendationsMark + " **Book Recommendations for '" + interest + "'**\n\n"
  }

  /** A numbered recommendation; the year line only for a truthy year. */
  function RecommendationEntry(n: nat, book: Recommendation): string {
    "**" + NatToString(n) + ". " + book.title + "**\n"
    + "   By: " + book.authors + "\n"
    + (if book.firstYear.Some? && book.firstYear.value != 0 then "   Year: " + IntToString(book.firstYear.value) + "\n" else "")
    + "   Editions: " + IntToString(book.editions) + "\n"
    + "   Status: " + (if book.hasFulltext then AvailableOnline else PrintOnly) + "\n"
    + "   Link: https://openlibrary.org" + book.key + "\n"
    + "   Cover: " + CoverUrl(book.coverId) + "\n\n"
  }

  /** The candidates both phases collect, subject results first. */
  function Candidates(subjectReply: Option<SubjectData>, searchReply: Option<BooksData>, limit: nat): seq<Recommendation> {
    var first := SubjectCandidates(subjectReply);
    first + (if SupplementSize(|first|, limit).Some? then SearchCandidates(searchReply) else [])
  }

  function SubjectRequestUrl(interest: string, limit: int): string {
    "https://openlibrary.org/subjects/" + NormalizeSubject(interest) + ".json?limit=" + NatToString(RecommendLimit(limit))
  }

  function SearchRequestUrl(interest: string, count: nat): string {
    "https://openlibrary.org/search.json?q=" + interest + "&limit=" + NatToString(count) + "&sort=rating"
  }

  /**
   * The two collection phases: subject results, then, only when they fall
   * short of `limit`, a search request for exactly the shortfall.
   */
  method CollectCandidates(interest: string, limit: nat, subjectReply: Option<SubjectData>, searchReply: Option<BooksData>)
    returns (searchUrl: Option<string>, results: seq<Recommendation>)
    ensures searchUrl.Some? <==> |SubjectCandidates(subjectReply)| < limit
    ensures searchUrl.Some? ==> searchUrl.value == SearchRequestUrl(interest, limit - |SubjectCandidates(subjectReply)|)
    ensures results == Candidates(subjectReply, searchReply, limit)
  {
    results := [];
    if subjectReply.Some? {
      results := AppendAll(results, subjectReply.value.works.GetOr([]), FromSubjectWork);
    }
    var shortfall := SupplementSize(|results|, limit);
    searchUrl := None;
    if shortfall.Some? {
      searchUrl := Some(SearchRequestUrl(interest, shortfall.value));
      if searchReply.Some? {
        results := AppendAll(results, searchReply.value.docs.GetOr([]), FromSearchDoc);
      }
    }
  }

  /** The text for the collected candidates: the apology, or the listing of the first `limit` unique ones. */
  method FormatRecommendations(interest: string, limit: nat, results: seq<Recommendation>) returns (text: string)
    ensures results == [] ==> text == SorryText(interest)
    ensures results != [] ==>
      text == RecommendationsHeader(interest) + Concat(Numbered(Take(Unique(results), limit), RecommendationEntry)) + Tip
  {
    if results == [] {
      return SorryText(interest);
    }
    var unique := DedupByTitle(results);
    text := AppendNumbered(RecommendationsHeader(interest), Take(unique, limit), RecommendationEntry);
    text := text + Tip;
  }

  /**
   * `recommend_books`. The subject request carries the formatted interest and
   * the clamped limit; the search request is made only when the subject phase
   * gave fewer than `limit` candidates, and asks for the shortfall. No candidate
   * at all gives the fixed apology; otherwise the first `limit` deduplicated
   * candidates are listed, numbered from 1, between the header and the tip.
   */
  method RecommendBooks(interest: string, limit: int, subjectReply: Option<SubjectData>, searchReply: Option<BooksData>)
    returns (subjectUrl: string, searchUrl: Option<string>, text: string)
    ensures subjectUrl == SubjectRequestUrl(interest, limit)
    ensures searchUrl.Some? <==> |SubjectCandidates(subjectReply)| < RecommendLimit(limit)
    ensures searchUrl.Some? ==>
      searchUrl.value == SearchRequestUrl(interest, RecommendLimit(limit) - |SubjectCandidates(subjectReply)|)
    ensures var candidates := Candidates(subjectReply, searchReply, RecommendLimit(limit));
      && (candidates == [] ==> text == SorryText(interest))
      && (candidates != [] ==>
            text == RecommendationsHeader(interest)
                    + Concat(Numbered(Take(Unique(candidates), RecommendLimit(limit)), RecommendationEntry)) + Tip)
  {
    var lim := RecommendLimit(limit);
    subjectUrl := SubjectRequestUrl(interest, limit);
    var results;
    searchUrl, results := CollectCandidates(interest, lim, subjectReply, searchReply);
    text := FormatRecommendations(interest, lim, results);
  }

  /**
   * What the listing shows of the candidates: between one and `limit` entries,
   * no two with the same lower-cased title, each the first occurrence of its
   * title, in candidate order.
   */
  lemma ShownRecommendations(candidates: seq<Recommendation>, limit: nat)
    requires candidates != [] && limit >= 1
    ensures 1 <= |Take(Unique(candidates), limit)| <= limit
    ensures Take(Unique(candidates), limit) == Take(FirstOccurrences(candidates, |candidates|), limit)
    ensures forall i, j :: 0 <= i < j < |Take(Unique(candidates), limit)| ==>
      TitleKey(Take(Unique(candidates), limit)[i]) != TitleKey(Take(Unique(candidates), limit)[j])
  {
    UniqueNonEmpty(candidates);
    UniqueDistinct(candidates);
    UniqueIsFirstOccurrences(candidates, |candidates|);
    assert candidates[..|candidates|] == candidates;
  }
}
