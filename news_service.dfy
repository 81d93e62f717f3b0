/** The news service: one aggregate per owner key, each operation loading the
    aggregate, scanning its list, and writing the whole aggregate back. */
module NewsServices {
  import opened Common
  import opened NewsAggregates

  /** `NewsNotFound` is the service's own exception; `NoSuchElement` is the one that
      escapes uncaught from `findById(..).get()` on an absent key. */
  datatype NewsError = NewsNotFound | NoSuchElement

  class NewsService {
    /** The news repository: owner key to that owner's aggregate. */
    var repo: map<string, UserNews>

    /** Each aggregate is stored under its own owner id. */
    ghost predicate Valid()
      reads this
    {
      forall k :: k in repo ==> repo[k].userId == k
    }

    constructor (initial: map<string, UserNews>)
      requires forall k :: k in initial ==> initial[k].userId == k
      ensures Valid() && repo == initial
    {
      repo := initial;
    }

    /** Creates the aggregate keyed by the item's author, holding just that item.
        An author who already has an aggregate is refused: the item is not appended. */
    method AddNews(news: News) returns (added: bool)
      requires Valid()
      modifies this
      ensures Valid()
      ensures added <==> news.author !in old(repo)
      ensures added ==> repo == old(repo)[news.author := UserNews(news.author, [news])]
      ensures !added ==> repo == old(repo)
      ensures added ==> GetAllNewsByUserId(news.author) == Success([news])
    {
      var ownerExists := news.author in repo;
      if !ownerExists {
        var userNews := UserNews(news.author, [news]);
        repo := repo[userNews.userId := userNews];
        return true;
      }
      return false;
    }

    /** Answers whether the owner's list holds `newsId`; when it does, the owner's whole
        aggregate is deleted, the other items included. */
    method DeleteNews(userId: string, newsId: int) returns (r: Result<bool, NewsError>)
      requires Valid()
      modifies this
      ensures Valid()
      ensures userId !in old(repo) ==> r == Failure(NoSuchElement) && repo == old(repo)
      ensures userId in old(repo) ==> r == Success(HasNews(old(repo)[userId].newslist, newsId))
      ensures r == Success(true) ==> repo == old(repo) - {userId}
      ensures r != Success(true) ==> repo == old(repo)
    {
      if userId !in repo {
        return Failure(NoSuchElement);
      }
      var userNews := repo[userId];
      var newsList := userNews.newslist;
      var i := 0;
      while i < |newsList|
        invariant 0 <= i <= |newsList|
        invariant forall j :: 0 <= j < i ==> newsList[j].newsId != newsId
      {
        if newsList[i].newsId == newsId {
          repo := repo - {userNews.userId};
          return Success(true);
        }
        i := i + 1;
      }
      return Success(false);
    }

    /** Deletes the owner's aggregate; an absent owner raises `NewsNotFound`. */
    method DeleteAllNews(userId: string) returns (r: Result<bool, NewsError>)
      requires Valid()
      modifies this
      ensures Valid()
      ensures userId !in old(repo) ==> r == Failure(NewsNotFound) && repo == old(repo)
      ensures userId in old(repo) ==> r == Success(true) && repo == old(repo) - {userId}
    {
      if userId !in repo {
        return Failure(NewsNotFound);
      }
      var userNews := repo[userId];
      repo := repo - {userNews.userId};
      return Success(true);
    }

    /** Overwrites the first entry with `newsId` by the incoming item's fields (keeping
        its id), appends that entry once more, saves, and returns it. With no matching
        entry it answers null and saves nothing. */
    method UpdateNews(news: News, newsId: int, userId: string) returns (r: Result<Option<News>, NewsError>)
      requires Valid()
      modifies this
      ensures Valid()
      ensures userId !in old(repo) ==> r == Failure(NewsNotFound) && repo == old(repo)
      ensures userId in old(repo) ==>
        var list := old(repo)[userId].newslist;
        match FirstIndex(list, newsId)
        case None => r == Success(None) && repo == old(repo)
        case Some(i) =>
          && r == Success(Some(Patch(list[i], news)))
          && repo == old(repo)[userId := UserNews(userId, UpdatedList(list, i, news))]
    {
      if userId !in repo {
        return Failure(NewsNotFound);
      }
      var userNews := repo[userId];
      var newsList := userNews.newslist;
      var i := 0;
      while i < |newsList|
        invariant 0 <= i <= |newsList|
        invariant forall j :: 0 <= j < i ==> newsList[j].newsId != newsId
      {
        if newsList[i].newsId == newsId {
          var updated := Patch(newsList[i], news);
          newsList := newsList[i := updated];
          newsList := newsList + [updated];
          userNews := userNews.(newslist := newsList);
          repo := repo[userNews.userId := userNews];
          return Success(Some(updated));
        }
        i := i + 1;
      }
      return Success(None);
    }

    /** The first entry of the owner's list carrying `newsId`, or null when none does;
        an absent owner raises `NewsNotFound`. */
    method GetNewsByNewsId(userId: string, newsId: int) returns (r: Result<Option<News>, NewsError>)
      ensures userId !in repo ==> r == Failure(NewsNotFound)
      ensures userId in repo ==>
        var list := repo[userId].newslist;
        match FirstIndex(list, newsId)
        case None => r == Success(None)
        case Some(i) => r == Success(Some(list[i]))
    {
      if userId !in repo {
        return Failure(NewsNotFound);
      }
      var newsList := repo[userId].newslist;
      var i := 0;
      while i < |newsList|
        invariant 0 <= i <= |newsList|
        invariant forall j :: 0 <= j < i ==> newsList[j].newsId != newsId
      {
        if newsList[i].newsId == newsId {
          return Success(Some(newsList[i]));
        }
        i := i + 1;
      }
      return Success(None);
    }

    /** The owner's stored list, in stored order; an absent owner escapes as
        `NoSuchElement`. */
    function GetAllNewsByUserId(userId: string): (r: Result<seq<News>, NewsError>)
      reads this
      ensures r.Failure? <==> userId !in repo
      ensures r.Failure? ==> r.error == NoSuchElement
      ensures r.Success? ==> r.value == repo[userId].newslist
    {
      if userId in repo then Success(repo[userId].newslist) else Failure(NoSuchElement)
    }
  }
}
