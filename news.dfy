/** The per-owner news aggregate: one document per owner holding an ordered list of
    news items, and the pure list operations the news service performs on it. */
module NewsAggregates {
  import opened Common
  import opened Reminders

  /** A news item. Its fields are the ones the news service reads and writes. */
  datatype News = News(
    newsId: int,
    author: string,
    title: string,
    description: string,
    content: string,
    url: string,
    urlToImage: string,
    reminder: Option<ReminderDoc>)

  /** The aggregate stored under one owner key. */
  datatype UserNews = UserNews(userId: string, newslist: seq<News>)

  /** Some entry of `list` carries `newsId`. */
  predicate HasNews(list: seq<News>, newsId: int)
  {
    exists j :: 0 <= j < |list| && list[j].newsId == newsId
  }

  /** The position a front-to-back scan of `list` stops at when looking for `newsId`. */
  function FirstIndex(list: seq<News>, newsId: int): (r: Option<nat>)
    ensures r.None? <==> !HasNews(list, newsId)
    ensures r.Some? ==> r.value < |list| && list[r.value].newsId == newsId
    ensures r.Some? ==> forall j :: 0 <= j < r.value ==> list[j].newsId != newsId
    decreases |list|
  {
    if |list| == 0 then None
    else if list[0].newsId == newsId then Some(0)
    else match FirstIndex(list[1..], newsId)
      case None => None
      case Some(k) => Some(k + 1)
  }

  /** The matched entry after the update's setters ran: every field comes from the
      incoming item except the stored entry's id. */
  function Patch(stored: News, incoming: News): (r: News)
    ensures r == incoming.(newsId := stored.newsId)
  {
    stored.(author := incoming.author,
            content := incoming.content,
            description := incoming.description,
            title := incoming.title,
            url := incoming.url,
            urlToImage := incoming.urlToImage,
            reminder := incoming.reminder)
  }

  /** The list the update saves: the matched entry patched in place, and the same
      patched entry appended once more at the end. */
  function UpdatedList(list: seq<News>, i: nat, incoming: News): (r: seq<News>)
    requires i < |list|
    ensures |r| == |list| + 1
    ensures r[i] == r[|list|] == Patch(list[i], incoming)
    ensures forall j :: 0 <= j < |list| && j != i ==> r[j] == list[j]
    ensures FirstIndex(list, list[i].newsId) == Some(i) ==> FirstIndex(r, list[i].newsId) == Some(i)
  {
    var patched := Patch(list[i], incoming);
    list[i := patched] + [patched]
  }

  /** How many entries of `list` carry `newsId`. */
  function Count(list: seq<News>, newsId: int): nat
    decreases |list|
  {
    if |list| == 0 then 0
    else (if list[0].newsId == newsId then 1 else 0) + Count(list[1..], newsId)
  }

  lemma {:induction false} CountConcat(a: seq<News>, b: seq<News>, newsId: int)
    ensures Count(a + b, newsId) == Count(a, newsId) + Count(b, newsId)
    decreases |a|
  {
    if |a| == 0 {
      assert a + b == b;
    } else {
      assert (a + b)[1..] == a[1..] + b;
      CountConcat(a[1..], b, newsId);
    }
  }

  /** Replacing an entry by one with the same id does not change any count. */
  lemma {:induction false} CountReplace(list: seq<News>, i: nat, x: News, newsId: int)
    requires i < |list| && x.newsId == list[i].newsId
    ensures Count(list[i := x], newsId) == Count(list, newsId)
    decreases |list|
  {
    if i == 0 {
      assert list[i := x][1..] == list[1..];
    } else {
      assert list[i := x][1..] == list[1..][i - 1 := x];
      CountReplace(list[1..], i - 1, x, newsId);
    }
  }

  /** An id that occurs in the list is counted at least once. */
  lemma {:induction false} CountPositive(list: seq<News>, i: nat)
    requires i < |list|
    ensures Count(list, list[i].newsId) >= 1
    decreases |list|
  {
    if i > 0 {
      assert list[1..][i - 1] == list[i];
      CountPositive(list[1..], i - 1);
    }
  }

  /** Updating the entry at `i` grows the list by one: the patched entry stands both at
      `i` and at the end, every other entry is kept in place, and the entry's id now
      occurs once more than before (so at least twice). */
  lemma UpdateAppendsDuplicate(list: seq<News>, i: nat, incoming: News)
    requires i < |list|
    ensures |UpdatedList(list, i, incoming)| == |list| + 1
    ensures UpdatedList(list, i, incoming)[i] == Patch(list[i], incoming)
    ensures UpdatedList(list, i, incoming)[|list|] == Patch(list[i], incoming)
    ensures forall j :: 0 <= j < |list| && j != i ==> UpdatedList(list, i, incoming)[j] == list[j]
    ensures Count(UpdatedList(list, i, incoming), list[i].newsId) == Count(list, list[i].newsId) + 1
    ensures Count(UpdatedList(list, i, incoming), list[i].newsId) >= 2
  {
    var id := list[i].newsId;
    var patched := Patch(list[i], incoming);
    CountConcat(list[i := patched], [patched], id);
    CountReplace(list, i, patched, id);
    assert Count([patched], id) == 1 by {
      assert [patched][1..] == [];
    }
    CountPositive(list, i);
  }
}
