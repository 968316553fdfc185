/**
 * The server tools' argument normalisation (mcp_server.py): `limit` clamping,
 * the sort suffix of `search_books`, subject formatting and author-id cleanup.
 */
module RequestParams {
  import opened Wrappers
  import opened Text

  /** `min(max(lo, x), hi)`. */
  function Clamp(x: int, lo: int, hi: int): (r: int)
    requires lo <= hi
    ensures lo <= r <= hi
    ensures lo <= x <= hi ==> r == x
    ensures x < lo ==> r == lo
    ensures x > hi ==> r == hi
  {
    var raised := if lo > x then lo else x;
    if raised < hi then raised else hi
  }

  /** The `limit` of `search_books`, `search_authors` and `browse_subject`: clamped into [1, 20]. */
  function SearchLimit(limit: int): (r: nat)
    ensures 1 <= r <= 20
    ensures 1 <= limit <= 20 ==> r == limit
    ensures limit < 1 ==> r == 1
    ensures limit > 20 ==> r == 20
  {
    Clamp(limit, 1, 20)
  }

  /** The `limit` of `get_author_works`: clamped into [1, 50]. */
  function AuthorWorksLimit(limit: int): (r: nat)
    ensures 1 <= r <= 50
    ensures 1 <= limit <= 50 ==> r == limit
    ensures limit < 1 ==> r == 1
    ensures limit > 50 ==> r == 50
  {
    Clamp(limit, 1, 50)
  }

  /** The `limit` of `recommend_books`: clamped into [1, 10]. */
  function RecommendLimit(limit: int): (r: nat)
    ensures 1 <= r <= 10
    ensures 1 <= limit <= 10 ==> r == limit
    ensures limit < 1 ==> r == 1
    ensures limit > 10 ==> r == 10
  {
    Clamp(limit, 1, 10)
  }

  /**
   * The query suffix for `search_books`' `sort`: three keywords select a sort
   * order, anything else (the default "relevance" included) adds nothing.
   */
  function SortParam(sort: string): (r: string)
    ensures r == "&sort=new" <==> sort == "new"
    ensures r == "&sort=old" <==> sort == "old"
    ensures r == "&sort=rating" <==> sort == "rating"
    ensures r == "" <==> sort !in {"new", "old", "rating"}
  {
    if sort == "new" then "&sort=new"
    else if sort == "old" then "&sort=old"
    else if sort == "rating" then "&sort=rating"
    else ""
  }

  /** `subject.lower().replace(" ", "_")`. */
  function NormalizeSubject(subject: string): string {
    Replace(Lower(subject), ' ', '_')
  }

  /**
   * A formatted subject has the input's length, no spaces and no upper-case
   * letters; every other character is kept.
   */
  lemma NormalizeSubjectSpec(subject: string)
    ensures |NormalizeSubject(subject)| == |subject|
    ensures ' ' !in NormalizeSubject(subject)
    ensures forall i :: 0 <= i < |subject| ==> !IsUpper(NormalizeSubject(subject)[i])
    ensures forall i :: 0 <= i < |subject| && subject[i] != ' ' && !IsUpper(subject[i]) ==>
      NormalizeSubject(subject)[i] == subject[i]
  {
  }

  /** Formatting an already formatted subject changes nothing. */
  lemma NormalizeSubjectIdempotent(subject: string)
    ensures NormalizeSubject(NormalizeSubject(subject)) == NormalizeSubject(subject)
  {
    var once := NormalizeSubject(subject);
    var twice := NormalizeSubject(once);
    NormalizeSubjectSpec(subject);
    forall i | 0 <= i < |once| ensures twice[i] == once[i] {
      assert !IsUpper(once[i]) && once[i] != ' ';
    }
  }

  /** `get_author_works`' cleanup: the text after the last '/', if the id has one. */
  function AuthorKey(authorId: string): string {
    if '/' in authorId then LastPiece(authorId, '/') else authorId
  }

  /**
   * A path like "/authors/OL23919A" is reduced to its last segment, which holds
   * no '/'; a bare id is kept as it is.
   */
  lemma AuthorKeySpec(authorId: string)
    ensures '/' !in AuthorKey(authorId)
    ensures '/' !in authorId ==> AuthorKey(authorId) == authorId
    ensures '/' in authorId ==>
      |AuthorKey(authorId)| < |authorId| &&
      authorId == authorId[..|authorId| - |AuthorKey(authorId)| - 1] + "/" + AuthorKey(authorId)
  {
    LastPieceSpec(authorId, '/');
    var r := AuthorKey(authorId);
    if '/' in authorId {
      var pieces := Split(authorId, '/');
      assert r == pieces[|pieces| - 1];
      var k := |authorId| - |r| - 1;
      assert authorId == authorId[..k] + [authorId[k]] + authorId[k + 1..];
    }
  }

  /**
   * `recommend_books`' second request: made only when the first gave fewer
   * than `limit` results, and then for exactly the missing number, never zero.
   */
  function SupplementSize(have: nat, limit: nat): (r: Option<nat>)
    ensures r.Some? <==> have < limit
    ensures r.Some? ==> r.value > 0 && have + r.value == limit
  {
    if have < limit then Some(limit - have) else None
  }
}
