/** `checkSearchQuery`, the query normaliser both clients carry a copy of. */
module Query {
  import opened Wrappers

  /** The token the normaliser tests for, and the prefix it prepends when it is missing. */
  const Keyword: string := "search"
  const Prefix: string := "search "

  predicate StartsWith(s: string, p: string) {
    |p| <= |s| && s[..|p|] == p
  }

  /** A query is normalised: prefixed by the command token. Every query either client
      stores has this form; an unset query (`None`) satisfies it vacuously. */
  predicate Normalised(q: Option<string>) {
    q.Some? ==> StartsWith(q.value, Keyword)
  }

  /** The normaliser: prepend "search " unless the query already starts with "search".
      It only ever prepends, and what it returns always starts with the token. */
  function CheckSearchQuery(q: string): (r: string)
    ensures StartsWith(r, Keyword)
    ensures r == q || r == Prefix + q
  {
    if StartsWith(q, Keyword) then q else Prefix + q
  }

  /** A query that already starts with the token passes through unchanged, and only such
      a query does: the fixed points of the normaliser are exactly the normalised queries. */
  lemma FixedPointsAreNormalised(q: string)
    ensures CheckSearchQuery(q) == q <==> StartsWith(q, Keyword)
  {
  }

  /** Any other query gets the prefix followed by the whole query. */
  lemma PrependsPrefix(q: string)
    requires !StartsWith(q, Keyword)
    ensures CheckSearchQuery(q) == Prefix + q
    ensures StartsWith(CheckSearchQuery(q), Prefix)
  {
  }

  /** Normalising twice is normalising once; this is why the double normalisation in the
      constructors (explicit call, then the attribute hook) is harmless. */
  lemma Idempotent(q: string)
    ensures CheckSearchQuery(CheckSearchQuery(q)) == CheckSearchQuery(q)
  {
  }

  /** A stored query is never empty: even the empty query becomes "search ". */
  lemma NeverEmpty(q: string)
    ensures |CheckSearchQuery(q)| >= |Keyword|
    ensures CheckSearchQuery("") == Prefix
  {
  }

  /** The normaliser tests for the token without its space, so a query whose first word
      merely begins with "search" is not prefixed and the result need not start with
      "search " (the space is not guaranteed). */
  lemma KeywordWithoutSpace()
    ensures CheckSearchQuery("searchable") == "searchable"
    ensures !StartsWith(CheckSearchQuery("searchable"), Prefix)
  {
    assert "searchable"[..|Keyword|] == Keyword;
    assert "searchable"[6] != ' ';
  }
}
