/**
 * The bookmark store of the content script. Bookmarks are records scraped
 * from post cards; the list lives in extension storage under one key, and
 * the script keeps a cache of it together with the set of its ids.
 *
 * An id is the 32-bit `hashString` of the post's `data-post-id` when the card
 * has one, and of the key `username|text` otherwise. Loading the list drops
 * missing entries, recomputes every id from `username|text`, merges entries
 * with the same id into the first one (filling only its empty fields), and
 * writes the list back only when its length changed.
 */
module Bookmarks {
  import opened Wrappers
  import opened Text
  import opened Sequences
  import opened Hash

  const MAX_BOOKMARKS := 200

  /** The interaction counters and states of a post. */
  datatype Actions = Actions(
    commentCount: int, quoteCount: int, likeCount: int, dislikeCount: int,
    likeActive: bool, dislikeActive: bool)

  /**
   * One bookmark. `id` is the number whose decimal rendering the source
   * stores; a missing string field is the empty string.
   */
  datatype Bookmark = Bookmark(
    id: int,
    username: string, time: string, text: string,
    avatar: string, profileUrl: string, userId: string,
    repostUsername: string, repostText: string, repostAvatar: string, repostProfileUrl: string,
    actions: Actions)

  /**
   * What scraping one post card yields. `username` is the trimmed name, or
   * "Unknown" when the card has no name element; `profileHref` is the `href`
   * of the profile link when there is a link ("" for a link without one).
   */
  datatype Card = Card(
    dataId: string,
    username: string, time: string, text: string,
    avatar: string, profileHref: Option<string>, userId: string,
    repostUsername: string, repostText: string, repostAvatar: string, repostProfileUrl: string,
    actions: Actions)

  // ---------------------------------------------------------------- ids

  /** `bookmarkKeyFromFields`: the trimmed user name ("Unknown" when missing), a bar, the trimmed text. */
  function BookmarkKey(username: string, text: string): string {
    Trim(if username == "" then "Unknown" else username) + "|" + Trim(text)
  }

  /**
   * Keys of names without a bar determine the trimmed name and text; a bar
   * in the name makes different fields collide, as `KeyCollision` shows.
   */
  lemma BookmarkKeyInjective(u1: string, t1: string, u2: string, t2: string)
    requires u1 != "" && u2 != "" && '|' !in Trim(u1) && '|' !in Trim(u2)
    requires BookmarkKey(u1, t1) == BookmarkKey(u2, t2)
    ensures Trim(u1) == Trim(u2) && Trim(t1) == Trim(t2)
  {
    var a1, a2 := Trim(u1), Trim(u2);
    var k := BookmarkKey(u1, t1);
    assert k == a1 + "|" + Trim(t1) && k == a2 + "|" + Trim(t2);
    IndexOfAfter(a1, '|', Trim(t1));
    IndexOfAfter(a2, '|', Trim(t2));
    assert a1 == k[..|a1|] == a2;
    assert Trim(t1) == k[|a1| + 1..] == Trim(t2);
  }

  /** Two different posts whose fields share a bar get the same key. */
  lemma KeyCollision()
    ensures BookmarkKey("a|b", "c") == BookmarkKey("a", "b|c")
  {
    TrimTrimmed("a|b");
    TrimTrimmed("c");
    TrimTrimmed("a");
    TrimTrimmed("b|c");
    assert BookmarkKey("a|b", "c") == "a|b" + "|" + "c";
    assert BookmarkKey("a", "b|c") == "a" + "|" + "b|c";
  }

  /** The id `loadBookmarks` gives an entry: always the hash of its key. */
  function KeyId(b: Bookmark): int {
    HashOf(BookmarkKey(b.username, b.text))
  }

  /** The profile link of a scraped card: the link's `href`, else `/user/<id>` when the card names a user id. */
  function CardProfileUrl(card: Card): string {
    match card.profileHref
    case Some(href) => href
    case None => if card.userId != "" then "/user/" + card.userId else ""
  }

  /**
   * The id and link part of `buildBookmarkFromCard`: the id is the hash of
   * the card's data id when it has one, else of its key.
   */
  function BuildBookmark(card: Card): (b: Bookmark)
    ensures card.dataId != "" ==> b.id == HashOf(card.dataId)
    ensures card.dataId == "" ==> b.id == HashOf(BookmarkKey(card.username, card.text))
    ensures b.profileUrl == CardProfileUrl(card)
    ensures b.username == card.username && b.text == card.text
  {
    var idSource := if card.dataId != "" then card.dataId else BookmarkKey(card.username, card.text);
    Bookmark(HashOf(idSource), card.username, card.time, card.text, card.avatar, CardProfileUrl(card),
      card.userId, card.repostUsername, card.repostText, card.repostAvatar, card.repostProfileUrl, card.actions)
  }

  /**
   * Two cards without a data id, with the same trimmed name and text, get the
   * same id, whatever else differs (avatar, time, counters).
   */
  lemma SameContentSameId(c1: Card, c2: Card)
    requires c1.dataId == "" && c2.dataId == ""
    requires Trim(if c1.username == "" then "Unknown" else c1.username)
          == Trim(if c2.username == "" then "Unknown" else c2.username)
    requires Trim(c1.text) == Trim(c2.text)
    ensures BuildBookmark(c1).id == BuildBookmark(c2).id
  {
    assert BookmarkKey(c1.username, c1.text) == BookmarkKey(c2.username, c2.text);
  }

  // ---------------------------------------------------------------- id sets and orders

  function IdSet(list: seq<Bookmark>): set<int> {
    set b | b in list :: b.id
  }

  function Ids(list: seq<Bookmark>): seq<int> {
    seq(|list|, k requires 0 <= k < |list| => list[k].id)
  }

  predicate DistinctIds(list: seq<Bookmark>) {
    forall i, j :: 0 <= i < j < |list| ==> list[i].id != list[j].id
  }

  /** The first position of `id` in `list`, or -1: what the source's `indexById` / `byId` maps give. */
  function IndexOfId(list: seq<Bookmark>, id: int): (k: int)
    ensures -1 <= k < |list|
    ensures k >= 0 ==> list[k].id == id && forall j :: 0 <= j < k ==> list[j].id != id
    ensures k == -1 <==> id !in IdSet(list)
  {
    if list == [] then -1
    else if list[0].id == id then 0
    else
      var k := IndexOfId(list[1..], id);
      assert forall b :: b in list[1..] ==> b in list;
      assert id in IdSet(list) ==> id in IdSet(list[1..]) by {
        if id in IdSet(list) {
          var b :| b in list && b.id == id;
          assert b != list[0];
        }
      }
      if k == -1 then -1 else k + 1
  }

  /** In a list with distinct ids, the position holding an id is the position found for it. */
  lemma IndexOfDistinct(list: seq<Bookmark>, k: int)
    requires DistinctIds(list) && 0 <= k < |list|
    ensures IndexOfId(list, list[k].id) == k
  {
  }

  /** The list with the first occurrence of every value only, in order. */
  function DistinctFirst(xs: seq<int>): (r: seq<int>)
    ensures forall x :: x in r <==> x in xs
    ensures forall i, j :: 0 <= i < j < |r| ==> r[i] != r[j]
  {
    if xs == [] then []
    else
      var d := DistinctFirst(xs[..|xs| - 1]);
      assert forall x :: x in xs <==> x in xs[..|xs| - 1] || x == xs[|xs| - 1] by {
        assert xs == xs[..|xs| - 1] + [xs[|xs| - 1]];
      }
      if xs[|xs| - 1] in d then d else d + [xs[|xs| - 1]]
  }

  // ---------------------------------------------------------------- loading

  /** A populated field is never overwritten. */
  predicate Keeps(before: string, after: string) {
    before != "" ==> after == before
  }

  /**
   * `after` is `before` with, at most, its avatar, time, profile link and
   * user id filled in: every other field is equal and no populated field changed.
   */
  predicate Extends(before: Bookmark, after: Bookmark) {
    && after == before.(avatar := after.avatar, time := after.time, profileUrl := after.profileUrl, userId := after.userId)
    && Keeps(before.avatar, after.avatar) && Keeps(before.time, after.time)
    && Keeps(before.profileUrl, after.profileUrl) && Keeps(before.userId, after.userId)
  }

  lemma ExtendsTransitive(a: Bookmark, b: Bookmark, c: Bookmark)
    requires Extends(a, b) && Extends(b, c)
    ensures Extends(a, c)
  {
  }

  /** `!mine && theirs ? theirs : mine`: take the other value only into an empty field. */
  function FillEmpty(mine: string, theirs: string): (r: string)
    ensures Keeps(mine, r)
    ensures r == "" <==> mine == "" && theirs == ""
  {
    if mine == "" && theirs != "" then theirs else mine
  }

  /** A later duplicate fills the empty avatar, time, profile link and user id of the kept entry. */
  function MergeDuplicate(existing: Bookmark, item: Bookmark): (r: Bookmark)
    ensures Extends(existing, r)
    ensures existing.avatar == "" ==> r.avatar == item.avatar
    ensures existing.time == "" ==> r.time == item.time
    ensures existing.profileUrl == "" ==> r.profileUrl == item.profileUrl
    ensures existing.userId == "" ==> r.userId == item.userId
  {
    existing.(
      avatar := FillEmpty(existing.avatar, item.avatar),
      time := FillEmpty(existing.time, item.time),
      profileUrl := FillEmpty(existing.profileUrl, item.profileUrl),
      userId := FillEmpty(existing.userId, item.userId))
  }

  /** The first occurrence of an id: its profile link derived from the user id when empty, its id the key's hash. */
  function NewEntry(item: Bookmark): (r: Bookmark)
    ensures r.id == KeyId(item) && r.username == item.username && r.text == item.text
    ensures r.profileUrl == if item.profileUrl != "" then item.profileUrl
                            else if item.userId != "" then "/user/" + item.userId else ""
  {
    var derived := if item.profileUrl != "" then item.profileUrl else if item.userId != "" then "/user/" + item.userId else "";
    item.(profileUrl := derived, id := KeyId(item))
  }

  /** Every entry carries the hash of its own key as its id. */
  predicate KeyedIds(list: seq<Bookmark>) {
    forall k :: 0 <= k < |list| ==> list[k].id == KeyId(list[k])
  }

  /** `next` starts with the entries of `list`, each at most filled in. */
  predicate ExtendsPrefix(list: seq<Bookmark>, next: seq<Bookmark>) {
    |list| <= |next| && forall k :: 0 <= k < |list| ==> Extends(list[k], next[k])
  }

  /** A later duplicate of the entry at `k` merged into it: positions and ids stay. */
  function MergeAt(acc: seq<Bookmark>, k: nat, item: Bookmark): (r: seq<Bookmark>)
    requires DistinctIds(acc) && k < |acc|
    ensures |r| == |acc| && forall j :: 0 <= j < |r| ==> r[j].id == acc[j].id
    ensures DistinctIds(r) && ExtendsPrefix(acc, r)
    ensures IdSet(r) == IdSet(acc) && Ids(r) == Ids(acc)
  {
    var merged := MergeDuplicate(acc[k], item);
    var r := acc[k := merged];
    assert r == acc[..k] + [merged] + acc[k + 1..];
    assert acc == acc[..k] + [acc[k]] + acc[k + 1..];
    r
  }

  /** A first occurrence appended to the list. */
  function AppendNew(acc: seq<Bookmark>, item: Bookmark): (r: seq<Bookmark>)
    requires DistinctIds(acc) && KeyId(item) !in IdSet(acc)
    ensures r == acc + [NewEntry(item)]
    ensures DistinctIds(r) && ExtendsPrefix(acc, r)
    ensures IdSet(r) == IdSet(acc) + {KeyId(item)} && Ids(r) == Ids(acc) + [KeyId(item)]
  {
    var r := acc + [NewEntry(item)];
    assert forall j :: 0 <= j < |acc| ==> acc[j] in acc;
    r
  }

  /** One iteration of the loop of `loadBookmarks`. */
  function LoadStep(acc: seq<Bookmark>, item: Option<Bookmark>): (r: seq<Bookmark>)
    requires DistinctIds(acc)
    ensures DistinctIds(r)
    ensures ExtendsPrefix(acc, r) && |r| <= |acc| + 1
  {
    match item
    case None => acc
    case Some(b) =>
      var k := IndexOfId(acc, KeyId(b));
      if k >= 0 then MergeAt(acc, k, b) else AppendNew(acc, b)
  }

  /** A step adds the key id of a present entry to the ids exactly when it is new. */
  lemma LoadStepIds(acc: seq<Bookmark>, item: Option<Bookmark>)
    requires DistinctIds(acc)
    ensures Ids(LoadStep(acc, item)) ==
      if item.None? || KeyId(item.value) in Ids(acc) then Ids(acc) else Ids(acc) + [KeyId(item.value)]
  {
    if item.Some? {
      var id := KeyId(item.value);
      assert id in Ids(acc) <==> id in IdSet(acc) by {
        if id in IdSet(acc) {
          var b :| b in acc && b.id == id;
          var j :| 0 <= j < |acc| && acc[j] == b;
          assert Ids(acc)[j] == id;
        }
      }
    }
  }

  /** `loadBookmarks`'s result for the stored list (missing entries are `None`). */
  function Loaded(stored: seq<Option<Bookmark>>): (r: seq<Bookmark>)
    ensures DistinctIds(r)
    ensures |r| <= |stored|
  {
    if stored == [] then [] else LoadStep(Loaded(stored[..|stored| - 1]), stored[|stored| - 1])
  }

  /** Every loaded entry carries the hash of its own key, whatever id it was stored with. */
  lemma {:induction false} LoadedKeyed(stored: seq<Option<Bookmark>>)
    ensures KeyedIds(Loaded(stored))
  {
    if stored != [] {
      var acc := Loaded(stored[..|stored| - 1]);
      LoadedKeyed(stored[..|stored| - 1]);
      var item := stored[|stored| - 1];
      if item.Some? {
        var k := IndexOfId(acc, KeyId(item.value));
        if k >= 0 {
          MergeAtKeyed(acc, k, item.value);
        } else {
          SameKeySameId(item.value, NewEntry(item.value));
          assert Loaded(stored) == acc + [NewEntry(item.value)];
        }
      }
    }
  }

  lemma MergeAtKeyed(acc: seq<Bookmark>, k: nat, item: Bookmark)
    requires DistinctIds(acc) && KeyedIds(acc) && k < |acc|
    ensures KeyedIds(MergeAt(acc, k, item))
  {
    var r := MergeAt(acc, k, item);
    forall j | 0 <= j < |r| ensures r[j].id == KeyId(r[j]) {
      SameKeySameId(acc[j], r[j]);
    }
  }

  lemma SameKeySameId(a: Bookmark, b: Bookmark)
    requires a.username == b.username && a.text == b.text
    ensures KeyId(a) == KeyId(b)
  {
  }

  /** The key ids of the entries present in the stored list, in order, repeats included. */
  function StoredKeyIds(stored: seq<Option<Bookmark>>): seq<int> {
    if stored == [] then []
    else
      var last := stored[|stored| - 1];
      StoredKeyIds(stored[..|stored| - 1]) + (if last.Some? then [KeyId(last.value)] else [])
  }

  /**
   * Loading keeps the first occurrence of every id, in the original order:
   * the ids of the result are the distinct key ids of the stored entries.
   */
  lemma {:induction false} LoadedKeepsFirstOccurrences(stored: seq<Option<Bookmark>>)
    ensures Ids(Loaded(stored)) == DistinctFirst(StoredKeyIds(stored))
  {
    if stored != [] {
      var init, last := stored[..|stored| - 1], stored[|stored| - 1];
      LoadedKeepsFirstOccurrences(init);
      LoadStepIds(Loaded(init), last);
      var raw := StoredKeyIds(init);
      if last.Some? {
        var xs := raw + [KeyId(last.value)];
        assert xs[..|xs| - 1] == raw;
      } else {
        assert StoredKeyIds(stored) == raw;
      }
    }
  }

  /**
   * Entries loaded from a prefix of the list keep their place, and later
   * duplicates only fill their empty fields.
   */
  lemma {:induction false} LoadKeepsPopulated(stored: seq<Option<Bookmark>>, i: nat)
    requires i <= |stored|
    ensures ExtendsPrefix(Loaded(stored[..i]), Loaded(stored))
  {
    if i == |stored| {
      assert stored[..i] == stored;
    } else {
      var init := stored[..|stored| - 1];
      assert init[..i] == stored[..i];
      LoadKeepsPopulated(init, i);
      var a, b, c := Loaded(stored[..i]), Loaded(init), Loaded(stored);
      forall k | 0 <= k < |a| ensures Extends(a[k], c[k]) {
        ExtendsTransitive(a[k], b[k], c[k]);
      }
    }
  }

  /** The stored form of a list. */
  function Stored(list: seq<Bookmark>): seq<Option<Bookmark>>
  {
    seq(|list|, k requires 0 <= k < |list| => Some(list[k]))
  }

  /**
   * Reloading a bookmark that was added under the hash of its data id gives
   * it the hash of its key instead; removing it by the id it was added under
   * then removes it only when the two hashes happen to agree.
   */
  lemma ReloadRekeys(b: Bookmark)
    ensures Loaded([Some(b)]) == [NewEntry(b)]
    ensures RemoveId(Loaded([Some(b)]), b.id) == (if b.id == KeyId(b) then [] else [NewEntry(b)])
  {
    assert [Some(b)][..0] == [];
  }

  /** A stored list without repeated keys, already carrying its key ids and derived links, loads back as itself. */
  lemma {:induction false} LoadStoredLoaded(list: seq<Bookmark>)
    requires DistinctIds(list) && KeyedIds(list)
    requires forall k :: 0 <= k < |list| ==> NewEntry(list[k]) == list[k]
    ensures Loaded(Stored(list)) == list
  {
    if list != [] {
      var init, last := list[..|list| - 1], list[|list| - 1];
      assert Stored(list)[..|list| - 1] == Stored(init);
      LoadStoredLoaded(init);
      assert KeyId(last) !in IdSet(init);
      assert Loaded(Stored(list)) == AppendNew(init, last);
      assert list == init + [last];
    }
  }

  // ---------------------------------------------------------------- adding, removing, filling

  /** `[bookmark, ...list].slice(0, 200)`. */
  function Prepend(b: Bookmark, list: seq<Bookmark>): (r: seq<Bookmark>)
    ensures 1 <= |r| <= MAX_BOOKMARKS && r[0] == b
    ensures |r| == if |list| < MAX_BOOKMARKS then |list| + 1 else MAX_BOOKMARKS
    ensures r[1..] == list[..|r| - 1]
  {
    Take([b] + list, MAX_BOOKMARKS)
  }

  /** Prepending a bookmark with a new id keeps the ids distinct. */
  lemma PrependDistinct(b: Bookmark, list: seq<Bookmark>)
    requires DistinctIds(list) && b.id !in IdSet(list)
    ensures DistinctIds(Prepend(b, list))
  {
    var r := Prepend(b, list);
    forall i, j | 0 <= i < j < |r| ensures r[i].id != r[j].id {
      assert r[j] == list[j - 1];
      if i > 0 {
        assert r[i] == list[i - 1];
      }
    }
  }

  /** `list.filter((item) => item.id !== id)`. */
  function RemoveId(list: seq<Bookmark>, id: int): (r: seq<Bookmark>)
    ensures forall b :: b in r <==> b in list && b.id != id
    ensures IsSubsequence(r, list)
  {
    if list == [] then []
    else
      var rest := RemoveId(list[1..], id);
      if list[0].id != id then
        ConsSubsequence(list[0], rest, list[1..]);
        assert list == [list[0]] + list[1..];
        [list[0]] + rest
      else
        SubsequenceOfTail(rest, list);
        rest
  }

  /** With distinct ids, removing an id drops exactly one entry when it is present and none otherwise. */
  lemma {:induction false} RemoveIdCount(list: seq<Bookmark>, id: int)
    requires DistinctIds(list)
    ensures |RemoveId(list, id)| == |list| - (if id in IdSet(list) then 1 else 0)
  {
    if list != [] {
      var tail := list[1..];
      assert DistinctIds(tail) by {
        forall i, j | 0 <= i < j < |tail| ensures tail[i].id != tail[j].id {
          assert tail[i] == list[i + 1] && tail[j] == list[j + 1];
        }
      }
      RemoveIdCount(tail, id);
      assert list == [list[0]] + tail;
      assert IdSet(list) == {list[0].id} + IdSet(tail);
    }
  }

  /** The backfill of one entry from a scanned card: empty user id, profile link and avatar take the card's. */
  function FillFromCard(existing: Bookmark, candidate: Bookmark): (r: Bookmark)
    ensures Extends(existing, r) && r.time == existing.time
    ensures existing.userId == "" ==> r.userId == candidate.userId
    ensures existing.profileUrl == "" ==> r.profileUrl == candidate.profileUrl
    ensures existing.avatar == "" ==> r.avatar == candidate.avatar
  {
    existing.(
      userId := FillEmpty(existing.userId, candidate.userId),
      profileUrl := FillEmpty(existing.profileUrl, candidate.profileUrl),
      avatar := FillEmpty(existing.avatar, candidate.avatar))
  }

  /** `list` and `next` agree except for empty fields of `list` that `next` fills. */
  predicate ExtendsAll(list: seq<Bookmark>, next: seq<Bookmark>) {
    |next| == |list| && forall k :: 0 <= k < |list| ==> Extends(list[k], next[k])
  }

  /** Filling never undoes itself: two entries that extend each other are equal. */
  lemma ExtendsAntisymmetric(a: Bookmark, b: Bookmark)
    requires Extends(a, b) && Extends(b, a)
    ensures a == b
  {
  }

  /**
   * Filling a field of an entry of a list that already extends `loaded`
   * gives a list that still extends it and differs from it.
   */
  lemma FillMakesChange(loaded: seq<Bookmark>, list: seq<Bookmark>, k: nat, filled: Bookmark)
    requires ExtendsAll(loaded, list) && k < |list|
    requires Extends(list[k], filled) && filled != list[k]
    ensures ExtendsAll(loaded, list[k := filled]) && list[k := filled] != loaded
  {
    ExtendsTransitive(loaded[k], list[k], filled);
    if filled == loaded[k] {
      ExtendsAntisymmetric(loaded[k], list[k]);
    }
  }

  /** What one scanned card does to the list: it fills the empty fields of the entry with its id, if any. */
  function BackfillStep(list: seq<Bookmark>, card: Card): (r: seq<Bookmark>)
    ensures ExtendsAll(list, r)
  {
    var candidate := BuildBookmark(card);
    var k := IndexOfId(list, candidate.id);
    if k < 0 then list else list[k := FillFromCard(list[k], candidate)]
  }

  /**
   * `backfillBookmarksFromCards` on a loaded list: each scanned card, in
   * order, fills the empty fields of the entry with its id, if any.
   */
  function Backfilled(list: seq<Bookmark>, cards: seq<Card>): (r: seq<Bookmark>)
    ensures ExtendsAll(list, r)
    ensures forall k :: 0 <= k < |list| ==> r[k].time == list[k].time
    decreases |cards|
  {
    if cards == [] then list
    else
      var next := BackfillStep(list, cards[0]);
      var r := Backfilled(next, cards[1..]);
      assert forall j :: 0 <= j < |list| ==> Extends(list[j], r[j]) by {
        forall j | 0 <= j < |list| ensures Extends(list[j], r[j]) {
          ExtendsTransitive(list[j], next[j], r[j]);
        }
      }
      r
  }

  /** A card whose id matches no entry fills nothing. */
  lemma BackfillUnmatchedCard(list: seq<Bookmark>, card: Card)
    requires BuildBookmark(card).id !in IdSet(list)
    ensures Backfilled(list, [card]) == list
  {
  }

  // ---------------------------------------------------------------- the store

  /** The four field checks of `loadBookmarks` for a duplicate. */
  method MergeFields(existing: Bookmark, item: Bookmark) returns (merged: Bookmark)
    ensures merged == MergeDuplicate(existing, item)
  {
    merged := existing;
    if merged.avatar == "" && item.avatar != "" {
      merged := merged.(avatar := item.avatar);
    }
    if merged.time == "" && item.time != "" {
      merged := merged.(time := item.time);
    }
    if merged.profileUrl == "" && item.profileUrl != "" {
      merged := merged.(profileUrl := item.profileUrl);
    }
    if merged.userId == "" && item.userId != "" {
      merged := merged.(userId := item.userId);
    }
  }

  /** The three field checks of `backfillBookmarksFromCards`, with the `changed` flag they raise. */
  method FillFields(existing: Bookmark, candidate: Bookmark) returns (filled: Bookmark, changed: bool)
    ensures filled == FillFromCard(existing, candidate)
    ensures changed <==> filled != existing
  {
    filled := existing;
    changed := false;
    if filled.userId == "" && candidate.userId != "" {
      filled := filled.(userId := candidate.userId);
      changed := true;
    }
    if filled.profileUrl == "" && candidate.profileUrl != "" {
      filled := filled.(profileUrl := candidate.profileUrl);
      changed := true;
    }
    if filled.avatar == "" && candidate.avatar != "" {
      filled := filled.(avatar := candidate.avatar);
      changed := true;
    }
  }

  /** `seen` holds the ids of `unique`, and `indexById` maps each to its position. */
  predicate Indexed(unique: seq<Bookmark>, seen: set<int>, indexById: map<int, nat>) {
    && seen == IdSet(unique) && seen == indexById.Keys
    && forall id :: id in indexById ==> indexById[id] < |unique| && unique[indexById[id]].id == id
  }

  /** One iteration of the loop of `loadBookmarks`, on the list built so far and its two indexes. */
  method LoadEntry(unique: seq<Bookmark>, seen: set<int>, indexById: map<int, nat>, entry: Option<Bookmark>)
    returns (unique': seq<Bookmark>, seen': set<int>, indexById': map<int, nat>)
    requires DistinctIds(unique) && Indexed(unique, seen, indexById)
    ensures unique' == LoadStep(unique, entry)
    ensures Indexed(unique', seen', indexById')
  {
    unique', seen', indexById' := unique, seen, indexById;
    if entry.None? {
      return;
    }
    var item := entry.value;
    var key := BookmarkKey(item.username, item.text);
    var stableId := HashString(key);
    assert stableId == KeyId(item);
    if stableId in seen {
      var existingIndex := indexById[stableId];
      IndexOfDistinct(unique, existingIndex);
      var merged := MergeFields(unique[existingIndex], item);
      unique' := unique[existingIndex := merged];
      assert unique' == MergeAt(unique, existingIndex, item);
      IndexedMerge(unique, seen, indexById, existingIndex, item);
    } else {
      seen' := seen + {stableId};
      indexById' := indexById[stableId := |unique|];
      var derivedProfileUrl := if item.profileUrl != "" then item.profileUrl
                               else if item.userId != "" then "/user/" + item.userId else "";
      unique' := unique + [item.(profileUrl := derivedProfileUrl, id := stableId)];
      assert unique' == AppendNew(unique, item);
      IndexedAppend(unique, seen, indexById, item);
    }
  }

  lemma IndexedMerge(unique: seq<Bookmark>, seen: set<int>, indexById: map<int, nat>, k: nat, item: Bookmark)
    requires DistinctIds(unique) && Indexed(unique, seen, indexById) && k < |unique|
    ensures Indexed(MergeAt(unique, k, item), seen, indexById)
  {
  }

  lemma IndexedAppend(unique: seq<Bookmark>, seen: set<int>, indexById: map<int, nat>, item: Bookmark)
    requires DistinctIds(unique) && Indexed(unique, seen, indexById) && KeyId(item) !in seen
    ensures Indexed(AppendNew(unique, item), seen + {KeyId(item)}, indexById[KeyId(item) := |unique|])
  {
  }

  /** One card of the loop of `backfillBookmarksFromCards`, with the flag that records a change. */
  method BackfillCard(ghost loaded: seq<Bookmark>, list: seq<Bookmark>, changed: bool, card: Card)
    returns (list': seq<Bookmark>, changed': bool)
    requires ExtendsAll(loaded, list) && (changed <==> list != loaded)
    ensures list' == BackfillStep(list, card)
    ensures ExtendsAll(loaded, list') && (changed' <==> list' != loaded)
  {
    list', changed' := list, changed;
    var candidate := BuildBookmark(card);
    var k := IndexOfId(list, candidate.id);
    if k < 0 {
      return;
    }
    var filled, changedHere := FillFields(list[k], candidate);
    if changedHere {
      FillMakesChange(loaded, list, k, filled);
      changed' := true;
    }
    list' := list[k := filled];
  }

  /** The bookmark list in storage, the cached list and the cached id set. */
  class BookmarkStore {
    var stored: seq<Option<Bookmark>>
    var cache: seq<Bookmark>
    var ids: set<int>

    constructor(initial: seq<Option<Bookmark>>)
      ensures stored == initial && cache == [] && ids == {}
    {
      stored := initial;
      cache := [];
      ids := {};
    }

    /** `saveBookmarks`: write the list, then cache it and its id set. */
    method Save(list: seq<Bookmark>)
      modifies this
      ensures stored == Stored(list) && cache == list && ids == IdSet(list)
    {
      stored := Stored(list);
      cache := list;
      ids := IdSet(list);
    }

    /**
     * `loadBookmarks`: one pass over the stored list with the ids seen so far
     * and the position of each in the result; the list is written back only
     * when its length changed.
     */
    method Load() returns (list: seq<Bookmark>)
      modifies this
      ensures list == Loaded(old(stored))
      ensures stored == if |list| != |old(stored)| then Stored(list) else old(stored)
      ensures cache == list && ids == IdSet(list)
    {
      var items := stored;
      var unique: seq<Bookmark> := [];
      var seen: set<int> := {};
      var indexById: map<int, nat> := map[];
      for i := 0 to |items|
        invariant unique == Loaded(items[..i])
        invariant Indexed(unique, seen, indexById)
        invariant stored == items
      {
        assert items[..i + 1][..i] == items[..i];
        unique, seen, indexById := LoadEntry(unique, seen, indexById, items[i]);
      }
      assert items[..|items|] == items;
      if |unique| != |items| {
        Save(unique);
      }
      cache := unique;
      ids := IdSet(unique);
      list := unique;
    }

    /** `addBookmark`: nothing is written when the id is already listed; otherwise the bookmark goes first and the list is capped. */
    method Add(bookmark: Bookmark)
      modifies this
      ensures var list := Loaded(old(stored));
        if bookmark.id in IdSet(list) then
          cache == list && stored == (if |list| != |old(stored)| then Stored(list) else old(stored))
        else
          cache == Prepend(bookmark, list) && stored == Stored(cache)
      ensures ids == IdSet(cache)
    {
      var list := Load();
      if exists b :: b in list && b.id == bookmark.id {
        return;
      }
      Save(Take([bookmark] + list, MAX_BOOKMARKS));
    }

    /** `removeBookmarkById`: the loaded list without the entries with this id, always written. */
    method RemoveById(id: int)
      modifies this
      ensures cache == RemoveId(Loaded(old(stored)), id)
      ensures stored == Stored(cache) && ids == IdSet(cache)
    {
      var list := Load();
      var next := RemoveId(list, id);
      Save(next);
    }

    /**
     * The click handler of a bookmark button: a listed id is removed;
     * otherwise the bookmark is added, first given the looked-up public key
     * as its user id and link when it has neither.
     */
    method Toggle(bookmark: Bookmark, publicKey: Option<string>)
      modifies this
      ensures var list := Loaded(old(stored));
        var enriched := Enriched(bookmark, publicKey);
        if bookmark.id in old(ids) then cache == RemoveId(list, bookmark.id)
        else if enriched.id in IdSet(list) then cache == list
        else cache == Prepend(enriched, list)
      ensures var list := Loaded(old(stored));
        var loadedStore := if |list| != |old(stored)| then Stored(list) else old(stored);
        stored == if bookmark.id !in old(ids) && Enriched(bookmark, publicKey).id in IdSet(list) then loadedStore else Stored(cache)
      ensures ids == IdSet(cache)
    {
      if bookmark.id in ids {
        RemoveById(bookmark.id);
      } else {
        Add(Enriched(bookmark, publicKey));
      }
    }

    /**
     * `backfillBookmarksFromCards` over the cards scanned outside the
     * bookmarks view: an empty list is left alone; the list is written only
     * when some field was filled.
     */
    method Backfill(cards: seq<Card>)
      modifies this
      ensures var list := Loaded(old(stored));
        var loadedStore := if |list| != |old(stored)| then Stored(list) else old(stored);
        && cache == Backfilled(list, cards)
        && stored == (if cache != list then Stored(cache) else loadedStore)
      ensures ids == IdSet(cache)
    {
      var list := Load();
      ghost var loaded := list;
      if |list| == 0 {
        return;
      }
      var changed := false;
      for j := 0 to |cards|
        invariant Backfilled(loaded, cards) == Backfilled(list, cards[j..])
        invariant ExtendsAll(loaded, list)
        invariant changed <==> list != loaded
        invariant cache == loaded && ids == IdSet(loaded)
        invariant stored == (if |loaded| != |old(stored)| then Stored(loaded) else old(stored))
      {
        assert cards[j..][1..] == cards[j + 1..];
        list, changed := BackfillCard(loaded, list, changed, cards[j]);
      }
      assert cards[|cards|..] == [];
      if changed {
        Save(list);
      }
    }
  }

  /** The bookmark with the looked-up public key as user id and `/user/<key>` link, when it has neither and a key was found. */
  function Enriched(bookmark: Bookmark, publicKey: Option<string>): (r: Bookmark)
    ensures r.id == bookmark.id
    ensures bookmark.userId != "" || bookmark.profileUrl != "" || publicKey.None? || publicKey.value == "" ==> r == bookmark
    ensures bookmark.userId == "" && bookmark.profileUrl == "" && publicKey.Some? && publicKey.value != "" ==>
      && r.userId == publicKey.value && r.profileUrl == "/user/" + publicKey.value
      && r.(userId := "", profileUrl := "") == bookmark
  {
    if bookmark.userId == "" && bookmark.profileUrl == "" && publicKey.Some? && publicKey.value != "" then
      bookmark.(userId := publicKey.value, profileUrl := "/user/" + publicKey.value)
    else bookmark
  }
}
