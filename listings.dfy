/**
 * The listing tools of the server (mcp_server.py): `search_books`,
 * `search_authors`, `browse_subject` and `get_author_works`. Each builds its
 * request from normalised arguments, then turns the decoded reply into a
 * numbered text listing, a fixed "not found" message, or an error text.
 */
module Listings {
  import opened Wrappers
  import opened Text
  import opened RequestParams

  /** The outcome of one HTTP request and JSON decode. */
  datatype Fetch<T> = Fetched(data: T) | TimedOut | Failed(message: string)

  /** `f".../b/id/{cover_id}-M.jpg" if cover_id else "No cover"`: a zero id counts as absent. */
  function CoverUrl(coverId: Option<int>): string {
    if coverId.Some? && coverId.value != 0
    then "https://covers.openlibrary.org/b/id/" + IntToString(coverId.value) + "-M.jpg"
    else "No cover"
  }

  /** `", ".join(items[:n])` on its own line, or no line at all when nothing is left. */
  function SubjectsLine(subjects: seq<string>, n: nat): (r: string)
    ensures r == "" <==> subjects == [] || n == 0
  {
    var shown := Take(subjects, n);
    if shown == [] then "" else "   Subjects: " + Join(shown, ", ") + "\n"
  }

  // ---------------------------------------------------------------- search_books

  datatype BookDoc = BookDoc(title: Option<string>, authorName: Option<seq<string>>,
                             firstPublishYear: Option<int>, editionCount: Option<int>,
                             key: Option<string>, coverI: Option<int>, hasFulltext: Option<bool>)

  datatype BooksData = BooksData(numFound: Option<int>, docs: Option<seq<BookDoc>>)

  function BooksUrl(query: string, limit: int, sort: string): string {
    "https://openlibrary.org/search.json?q=" + query + "&limit=" + NatToString(SearchLimit(limit)) + SortParam(sort)
  }

  function BookEntry(n: nat, book: BookDoc): string {
    NatToString(n) + (". **" + BookFields(book))
  }

  function BookFields(book: BookDoc): string {
    book.title.GetOr("Unknown Title") + "**\n"
    + "   Author(s): " + Join(book.authorName.GetOr(["Unknown Author"]), ", ") + "\n"
    + "   First Published: " + (if book.firstPublishYear.Some? then IntToString(book.firstPublishYear.value) else "N/A") + "\n"
    + "   Editions: " + IntToString(book.editionCount.GetOr(0)) + "\n"
    + "   Open Library: https://openlibrary.org" + book.key.GetOr("") + "\n"
    + "   Cover: " + CoverUrl(book.coverI) + "\n\n"
  }

  function BooksHeader(query: string, numFound: Option<int>, shown: nat): string {
    "Found " + IntToString(numFound.GetOr(0)) + " books for '" + query + "'. Showing top " + NatToString(shown) + ":\n\n"
  }

  /**
   * `search_books`: the request carries the clamped limit and the sort suffix;
   * an empty reply gives the fixed "not found" message, any other the header
   * and one entry per book, numbered from 1 in reply order.
   */
  method SearchBooks(query: string, limit: int, sort: string, fetch: Fetch<BooksData>)
    returns (url: string, text: string)
    ensures url == BooksUrl(query, limit, sort)
    ensures fetch.TimedOut? ==> text == "Error: Request timed out while searching for '" + query + "'"
    ensures fetch.Failed? ==> text == "Error searching for books: " + fetch.message
    ensures fetch.Fetched? && fetch.data.docs.GetOr([]) == [] ==> text == "No books found for query: '" + query + "'"
    ensures fetch.Fetched? && fetch.data.docs.GetOr([]) != [] ==>
      var docs := fetch.data.docs.GetOr([]);
      text == BooksHeader(query, fetch.data.numFound, |docs|) + Concat(Numbered(docs, BookEntry))
  {
    url := BooksUrl(query, limit, sort);
    match fetch {
      case TimedOut =>
        text := "Error: Request timed out while searching for '" + query + "'";
      case Failed(e) =>
        text := "Error searching for books: " + e;
      case Fetched(data) =>
        var docs := data.docs.GetOr([]);
        if docs == [] {
          return url, "No books found for query: '" + query + "'";
        }
        var header := BooksHeader(query, data.numFound, |docs|);
        text := AppendNumbered(header, docs, BookEntry);
    }
  }

  /** Entry k of a book listing reads as number k. */
  lemma BookEntryNumber(n: nat, book: BookDoc)
    ensures ReadNumber(BookEntry(n, book)) == n
  {
    ReadNumberOf(n, ". **" + BookFields(book));
  }

  // -------------------------------------------------------------- search_authors

  datatype AuthorDoc = AuthorDoc(name: Option<string>, key: Option<string>, birthDate: Option<string>,
                                 topWork: Option<string>, workCount: Option<int>,
                                 topSubjects: Option<seq<string>>)

  datatype AuthorsData = AuthorsData(numFound: Option<int>, docs: Option<seq<AuthorDoc>>)

  function AuthorsUrl(query: string, limit: int): string {
    "https://openlibrary.org/search/authors.json?q=" + query + "&limit=" + NatToString(SearchLimit(limit))
  }

  /** An author's entry; only the first five subjects are listed, and no line when there are none. */
  function AuthorEntry(n: nat, author: AuthorDoc): string {
    var key := author.key.GetOr("");
    NatToString(n) + ". **" + author.name.GetOr("Unknown") + "**\n"
    + "   Birth Date: " + author.birthDate.GetOr("N/A") + "\n"
    + "   Works: " + IntToString(author.workCount.GetOr(0)) + "\n"
    + "   Top Work: " + author.topWork.GetOr("N/A") + "\n"
    + SubjectsLine(author.topSubjects.GetOr([]), 5)
    + "   Open Library: https://openlibrary.org/authors/" + key + "\n"
    + "   Photo: https://covers.openlibrary.org/a/olid/" + key + "-M.jpg\n\n"
  }

  function AuthorsHeader(query: string, numFound: Option<int>, shown: nat): string {
    "Found " + IntToString(numFound.GetOr(0)) + " authors for '" + query + "'. Showing top " + NatToString(shown) + ":\n\n"
  }

  /**
   * `search_authors`: the request carries the clamped limit; an empty reply
   * gives the fixed "not found" message, any other the header and one entry per
   * author, numbered from 1 in reply order.
   */
  method SearchAuthors(query: string, limit: int, fetch: Fetch<AuthorsData>)
    returns (url: string, text: string)
    ensures url == AuthorsUrl(query, limit)
    ensures fetch.TimedOut? ==> text == "Error: Request timed out while searching for author '" + query + "'"
    ensures fetch.Failed? ==> text == "Error searching for authors: " + fetch.message
    ensures fetch.Fetched? && fetch.data.docs.GetOr([]) == [] ==> text == "No authors found for query: '" + query + "'"
    ensures fetch.Fetched? && fetch.data.docs.GetOr([]) != [] ==>
      var docs := fetch.data.docs.GetOr([]);
      text == AuthorsHeader(query, fetch.data.numFound, |docs|) + Concat(Numbered(docs, AuthorEntry))
  {
    url := AuthorsUrl(query, limit);
    match fetch {
      case TimedOut =>
        text := "Error: Request timed out while searching for author '" + query + "'";
      case Failed(e) =>
        text := "Error searching for authors: " + e;
      case Fetched(data) =>
        var docs := data.docs.GetOr([]);
        if docs == [] {
          return url, "No authors found for query: '" + query + "'";
        }
        var header := AuthorsHeader(query, data.numFound, |docs|);
        text := AppendNumbered(header, docs, AuthorEntry);
    }
  }

  // -------------------------------------------------------------- browse_subject

  /** An object of which only `name` is read: a work's author, a related subject. */
  datatype NamedRef = NamedRef(name: Option<string>)

  datatype SubjectAuthor = SubjectAuthor(name: Option<string>, count: Option<int>)

  datatype SubjectWork = SubjectWork(title: Option<string>, authors: Option<seq<NamedRef>>,
                                     editionCount: Option<int>, key: Option<string>,
                                     hasFulltext: Option<bool>, coverId: Option<int>)

  datatype SubjectData = SubjectData(name: Option<string>, workCount: Option<int>,
                                     works: Option<seq<SubjectWork>>, subjects: Option<seq<NamedRef>>,
                                     authors: Option<seq<SubjectAuthor>>)

  /** `[a.get("name", default) for a in refs]`. */
  function NamesOf(refs: seq<NamedRef>, default: string): seq<string> {
    Map(refs, (a: NamedRef) => a.name.GetOr(default))
  }

  /** The status marks of the "Full text" line (emoji in the tool's output). */
  const FullTextAvailable := "\U{2713} Available"
  const FullTextMissing := "\U{2717} Not available"
  /** The books emoji heading a subject listing. */
  const SubjectMark := "\U{1F4DA}"

  function BrowseUrl(subject: string, limit: int, ebooksOnly: bool): string {
    "https://openlibrary.org/subjects/" + NormalizeSubject(subject) + ".json?limit=" + NatToString(SearchLimit(limit))
    + (if ebooksOnly then "&ebooks=true" else "") + "&details=true"
  }

  function WorkEntry(n: nat, work: SubjectWork): string {
    var authors := work.authors.GetOr([]);
    NatToString(n) + ". **" + work.title.GetOr("Unknown Title") + "**\n"
    + "   Author(s): " + (if authors != [] then Join(NamesOf(authors, "Unknown"), ", ") else "Unknown Author") + "\n"
    + "   Editions: " + IntToString(work.editionCount.GetOr(0)) + "\n"
    + "   Full text: " + (if work.hasFulltext == Some(true) then FullTextAvailable else FullTextMissing) + "\n"
    + "   Open Library: https://openlibrary.org" + work.key.GetOr("") + "\n"
    + "   Cover: " + CoverUrl(work.coverId) + "\n\n"
  }

  /** The subject's display name defaults to the argument as given, not as formatted. */
  function SubjectHeader(subject: string, data: SubjectData, shown: nat): string {
    SubjectMark + " **" + data.name.GetOr(subject) + "** - " + IntToString(data.workCount.GetOr(0)) + " total works\n"
    + "Showing top " + NatToString(shown) + " books:\n\n"
  }

  /** The first five related subjects, or no line. */
  function RelatedSubjectsLine(data: SubjectData): (r: string)
    ensures r == "" <==> data.subjects.GetOr([]) == []
  {
    var related := Take(data.subjects.GetOr([]), 5);
    if related == [] then "" else RelatedLabel + Join(NamesOf(related, ""), ", ") + "\n"
  }

  const RelatedLabel := "**Related Subjects:** "

  /**
   * The related-subjects line lists exactly the first five subjects (all of them
   * when there are fewer), in order: with names free of ',', the list between the
   * label and the newline splits back into one piece per shown subject.
   */
  lemma RelatedSubjectsListed(data: SubjectData)
    requires data.subjects.GetOr([]) != []
    requires forall i :: 0 <= i < |data.subjects.GetOr([])| ==> ',' !in data.subjects.GetOr([])[i].name.GetOr("")
    ensures var r := RelatedSubjectsLine(data);
      |r| > |RelatedLabel| && r[..|RelatedLabel|] == RelatedLabel && r[|r| - 1] == '\n'
    ensures var r := RelatedSubjectsLine(data);
      var subjects := data.subjects.GetOr([]);
      |r| > |RelatedLabel| &&
      var pieces := Split(r[|RelatedLabel|..|r| - 1], ',');
      |pieces| == (if |subjects| < 5 then |subjects| else 5) &&
      pieces == Spaced(NamesOf(subjects[..|pieces|], ""))
  {
    var subjects := data.subjects.GetOr([]);
    var related := Take(subjects, 5);
    var names := NamesOf(related, "");
    var listed := Join(names, ", ");
    var r := RelatedSubjectsLine(data);
    assert r == RelatedLabel + listed + "\n";
    assert r[|RelatedLabel|..|r| - 1] == listed;
    forall i | 0 <= i < |names| ensures ',' !in names[i] {
      assert related[i] == subjects[i];
    }
    ListedItems(names);
  }

  function AuthorCount(a: SubjectAuthor): string {
    a.name.GetOr("") + " (" + IntToString(a.count.GetOr(0)) + " works)"
  }

  /** The first three authors of the subject, or no line. */
  function TopAuthorsLine(data: SubjectData): (r: string)
    ensures r == "" <==> data.authors.GetOr([]) == []
  {
    var top := Take(data.authors.GetOr([]), 3);
    if top == [] then "" else TopAuthorsLabel + Join(Map(top, AuthorCount), ", ") + "\n"
  }

  const TopAuthorsLabel := "**Top Authors in this Subject:** "

  /**
   * The top-authors line lists exactly the first three authors (all of them when
   * there are fewer), in order, each with its work count: with names free of ',',
   * the list between the label and the newline splits back into one piece per
   * shown author.
   */
  lemma TopAuthorsListed(data: SubjectData)
    requires data.authors.GetOr([]) != []
    requires forall i :: 0 <= i < |data.authors.GetOr([])| ==> ',' !in data.authors.GetOr([])[i].name.GetOr("")
    ensures var r := TopAuthorsLine(data);
      |r| > |TopAuthorsLabel| && r[..|TopAuthorsLabel|] == TopAuthorsLabel && r[|r| - 1] == '\n'
    ensures var r := TopAuthorsLine(data);
      var authors := data.authors.GetOr([]);
      |r| > |TopAuthorsLabel| &&
      var pieces := Split(r[|TopAuthorsLabel|..|r| - 1], ',');
      |pieces| == (if |authors| < 3 then |authors| else 3) &&
      pieces == Spaced(Map(authors[..|pieces|], AuthorCount))
  {
    var authors := data.authors.GetOr([]);
    var top := Take(authors, 3);
    var counts := Map(top, AuthorCount);
    var listed := Join(counts, ", ");
    var r := TopAuthorsLine(data);
    assert r == TopAuthorsLabel + listed + "\n";
    assert r[|TopAuthorsLabel|..|r| - 1] == listed;
    forall i | 0 <= i < |counts| ensures ',' !in counts[i] {
      assert top[i] == authors[i];
      var n := top[i].count.GetOr(0);
      assert ',' !in IntToString(n);
    }
    ListedItems(counts);
  }

  const SubjectSuggestions := "Try subjects like: science_fiction, romance, mystery, fantasy, biography, history, love, adventure"

  /**
   * `browse_subject`: the request carries the formatted subject and the clamped
   * limit; an empty reply gives the fixed "not found" message, any other the
   * header, one entry per work numbered from 1, then the related-subject and
   * top-author lines.
   */
  method BrowseSubject(subject: string, limit: int, ebooksOnly: bool, fetch: Fetch<SubjectData>)
    returns (url: string, text: string)
    ensures url == BrowseUrl(subject, limit, ebooksOnly)
    ensures fetch.TimedOut? ==> text == "Error: Request timed out while browsing subject '" + subject + "'"
    ensures fetch.Failed? ==> text == "Error browsing subject: " + fetch.message
    ensures fetch.Fetched? && fetch.data.works.GetOr([]) == [] ==>
      text == "No books found for subject: '" + subject + "'. " + SubjectSuggestions
    ensures fetch.Fetched? && fetch.data.works.GetOr([]) != [] ==>
      var works := fetch.data.works.GetOr([]);
      text == SubjectHeader(subject, fetch.data, |works|) + Concat(Numbered(works, WorkEntry))
              + RelatedSubjectsLine(fetch.data) + TopAuthorsLine(fetch.data)
  {
    url := BrowseUrl(subject, limit, ebooksOnly);
    match fetch {
      case TimedOut =>
        text := "Error: Request timed out while browsing subject '" + subject + "'";
      case Failed(e) =>
        text := "Error browsing subject: " + e;
      case Fetched(data) =>
        var works := data.works.GetOr([]);
        if works == [] {
          return url, "No books found for subject: '" + subject + "'. " + SubjectSuggestions;
        }
        var header := SubjectHeader(subject, data, |works|);
        text := AppendNumbered(header, works, WorkEntry);
        text := text + RelatedSubjectsLine(data);
        text := text + TopAuthorsLine(data);
    }
  }

  // ------------------------------------------------------------ get_author_works

  datatype AuthorWork = AuthorWork(title: Option<string>, key: Option<string>, subjects: Option<seq<string>>,
                                   firstPublishDate: Option<string>, covers: Option<seq<int>>)

  datatype WorksData = WorksData(entries: Option<seq<AuthorWork>>)

  function WorksUrl(authorId: string, limit: int): string {
    "https://openlibrary.org/authors/" + AuthorKey(authorId) + "/works.json?limit=" + NatToString(AuthorWorksLimit(limit))
  }

  /** A work's entry; the first three subjects, and the first cover when there is one. */
  function AuthorWorkEntry(n: nat, work: AuthorWork): string {
    var covers := work.covers.GetOr([]);
    NatToString(n) + ". **" + work.title.GetOr("Unknown Title") + "**\n"
    + "   First Published: " + work.firstPublishDate.GetOr("N/A") + "\n"
    + SubjectsLine(work.subjects.GetOr([]), 3)
    + "   Open Library: https://openlibrary.org" + work.key.GetOr("") + "\n"
    + "   Cover: " + (if covers != [] then "https://covers.openlibrary.org/b/id/" + IntToString(covers[0]) + "-M.jpg" else "No cover")
    + "\n\n"
  }

  /**
   * `get_author_works`: the id is reduced to its last path segment and the
   * limit clamped into [1, 50]; an empty reply gives the fixed "not found"
   * message, any other the header and one entry per work numbered from 1.
   */
  method GetAuthorWorks(authorId: string, limit: int, fetch: Fetch<WorksData>)
    returns (url: string, text: string)
    ensures url == WorksUrl(authorId, limit)
    ensures fetch.TimedOut? ==>
      text == "Error: Request timed out while fetching works for author '" + AuthorKey(authorId) + "'"
    ensures fetch.Failed? ==> text == "Error getting author works: " + fetch.message
    ensures fetch.Fetched? && fetch.data.entries.GetOr([]) == [] ==>
      text == "No works found for author ID: '" + AuthorKey(authorId) + "'"
    ensures fetch.Fetched? && fetch.data.entries.GetOr([]) != [] ==>
      var entries := fetch.data.entries.GetOr([]);
      text == "Works by author " + AuthorKey(authorId) + ":\n\n" + Concat(Numbered(entries, AuthorWorkEntry))
  {
    var key := AuthorKey(authorId);
    url := WorksUrl(authorId, limit);
    match fetch {
      case TimedOut =>
        text := "Error: Request timed out while fetching works for author '" + key + "'";
      case Failed(e) =>
        text := "Error getting author works: " + e;
      case Fetched(data) =>
        var entries := data.entries.GetOr([]);
        if entries == [] {
          return url, "No works found for author ID: '" + key + "'";
        }
        var header := "Works by author " + key + ":\n\n";
        text := AppendNumbered(header, entries, AuthorWorkEntry);
    }
  }
}
