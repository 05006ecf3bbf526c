/**
 * The search box of the bookmarks view. Every rendered bookmark carries a
 * search text: its user name, text, repost user name and repost text, each
 * lower-cased, joined by spaces and trimmed. A query is trimmed and
 * lower-cased; an empty query shows every bookmark, any other shows those
 * whose search text contains it.
 */
module BookmarkSearch {
  import opened Text
  import opened Sequences
  import opened Bookmarks

  /** The `data-ks-bookmark-text` attribute of a rendered bookmark. */
  function SearchText(b: Bookmark): string {
    Trim(ToLower(b.username) + " " + ToLower(b.text) + " " + ToLower(b.repostUsername) + " " + ToLower(b.repostText))
  }

  /** `(query || "").trim().toLowerCase()`. */
  function Needle(query: string): (n: string)
    ensures IsTrimmed(n)
  {
    ToLowerTrimmed(Trim(query));
    ToLower(Trim(query))
  }

  /** Whether `applyBookmarksFilter` leaves the bookmark displayed. */
  predicate Shown(b: Bookmark, query: string) {
    Needle(query) == "" || Contains(SearchText(b), Needle(query))
  }

  /** The bookmarks left displayed, in the order they are rendered. */
  function Visible(list: seq<Bookmark>, query: string): (r: seq<Bookmark>)
    ensures forall b :: b in r <==> b in list && Shown(b, query)
    ensures IsSubsequence(r, list)
  {
    if list == [] then []
    else
      var rest := Visible(list[1..], query);
      assert list == [list[0]] + list[1..];
      if Shown(list[0], query) then
        ConsSubsequence(list[0], rest, list[1..]);
        [list[0]] + rest
      else
        SubsequenceOfTail(rest, list);
        rest
  }

  /** A query made only of whitespace (or empty) hides nothing. */
  lemma {:induction false} BlankQueryShowsAll(list: seq<Bookmark>, query: string)
    requires AllWhitespace(query)
    ensures Visible(list, query) == list
  {
    TrimEmpty(query);
    if list != [] {
      BlankQueryShowsAll(list[1..], query);
      assert list == [list[0]] + list[1..];
    }
  }

  /**
   * A non-blank query shows a bookmark whenever its lower-cased form occurs in
   * the lower-cased user name, text, repost user name or repost text.
   */
  lemma QueryFindsField(b: Bookmark, query: string)
    requires Needle(query) != ""
    requires || Contains(ToLower(b.username), Needle(query)) || Contains(ToLower(b.text), Needle(query))
             || Contains(ToLower(b.repostUsername), Needle(query)) || Contains(ToLower(b.repostText), Needle(query))
    ensures Shown(b, query)
  {
    var n := Needle(query);
    var u, t, ru, rt := ToLower(b.username), ToLower(b.text), ToLower(b.repostUsername), ToLower(b.repostText);
    var p1 := u + " ";
    var p2 := p1 + t;
    var p3 := p2 + " ";
    var p4 := p3 + ru;
    var p5 := p4 + " ";
    var joined := p5 + rt;
    if Contains(u, n) {
      ContainsLeft(u, " ", n);
      ContainsLeft(p1, t, n);
    } else if Contains(t, n) {
      ContainsRight(p1, t, n);
    }
    if Contains(p2, n) {
      ContainsLeft(p2, " ", n);
      ContainsLeft(p3, ru, n);
    } else if Contains(ru, n) {
      ContainsRight(p3, ru, n);
    }
    if Contains(p4, n) {
      ContainsLeft(p4, " ", n);
      ContainsLeft(p5, rt, n);
    } else {
      ContainsRight(p5, rt, n);
    }
    ContainsTrim(joined, n);
  }

  /** The filter only ever narrows: what a query shows is a subset of what it was given. */
  lemma VisibleNarrows(list: seq<Bookmark>, query: string)
    ensures |Visible(list, query)| <= |list|
  {
    SubsequenceLength(Visible(list, query), list);
  }
}
