/** The news-source service: a flat store keyed by source id, with a scan by the
    creator attribute. */
module NewsSourceServices {
  import opened Common
  import opened NewsSources

  /** `NewsSourceNotFound` is the service's own exception; `NoSuchElement` escapes
      uncaught from `findById(..).get()` on an absent id. */
  datatype NewsSourceError = NewsSourceNotFound | NoSuchElement

  class NewsSourceService {
    /** The news-source repository: id to stored source. */
    var repo: map<int, NewsSourceDoc>

    /** Each source is stored under its own id. */
    ghost predicate Valid()
      reads this
    {
      forall k :: k in repo ==> repo[k].newsSourceId == k
    }

    constructor (initial: map<int, NewsSourceDoc>)
      requires forall k :: k in initial ==> initial[k].newsSourceId == k
      ensures Valid() && repo == initial
    {
      repo := initial;
    }

    /** Inserts the source when its id is free; otherwise answers false and keeps the store. */
    method AddNewsSource(newsSource: NewsSourceDoc) returns (added: bool)
      requires Valid()
      modifies this
      ensures Valid()
      ensures added <==> newsSource.newsSourceId !in old(repo)
      ensures added ==> repo == old(repo)[newsSource.newsSourceId := newsSource]
      ensures !added ==> repo == old(repo)
    {
      var idTaken := newsSource.newsSourceId in repo;
      if !idTaken {
        repo := repo[newsSource.newsSourceId := newsSource];
        return true;
      }
      return false;
    }

    /** Always answers true (an Optional is never null); afterwards no source has the id. */
    method DeleteNewsSource(newsSourceId: int) returns (deleted: bool)
      requires Valid()
      modifies this
      ensures Valid()
      ensures deleted
      ensures repo == old(repo) - {newsSourceId}
    {
      repo := repo - {newsSourceId};
      return true;
    }

    /** Overwrites name, creator and description of the stored source, keeping its id and
        creation date, saves it and returns it. An absent id escapes as `NoSuchElement`:
        the service's own not-found exception is never reached. */
    method UpdateNewsSource(newsSource: NewsSourceDoc, newsSourceId: int) returns (r: Result<NewsSourceDoc, NewsSourceError>)
      requires Valid()
      modifies this
      ensures Valid()
      ensures newsSourceId !in old(repo) ==> r == Failure(NoSuchElement) && repo == old(repo)
      ensures newsSourceId in old(repo) ==>
        var stored := old(repo)[newsSourceId];
        && r.Success?
        && r.value == stored.(newsSourceName := newsSource.newsSourceName,
                              newsSourceCreatedBy := newsSource.newsSourceCreatedBy,
                              newsSourceDesc := newsSource.newsSourceDesc)
        && repo == old(repo)[newsSourceId := r.value]
    {
      if newsSourceId !in repo {
        return Failure(NoSuchElement);
      }
      var toUpdate := repo[newsSourceId];
      toUpdate := toUpdate.(newsSourceName := newsSource.newsSourceName);
      toUpdate := toUpdate.(newsSourceCreatedBy := newsSource.newsSourceCreatedBy);
      toUpdate := toUpdate.(newsSourceDesc := newsSource.newsSourceDesc);
      repo := repo[toUpdate.newsSourceId := toUpdate];
      return Success(toUpdate);
    }

    /** The derived query `findAllNewsSourceByNewsSourceCreatedBy`: every stored source
        whose creator is `createdBy`, and nothing else; empty, not an error, when none is. */
    function GetAllNewsSourceByUserId(createdBy: string): (r: set<NewsSourceDoc>)
      requires Valid()
      reads this
      ensures forall k :: k in repo && repo[k].newsSourceCreatedBy == Some(createdBy) ==> repo[k] in r
      ensures forall s :: s in r ==> s.newsSourceId in repo && repo[s.newsSourceId] == s
      ensures forall s :: s in r ==> s.newsSourceCreatedBy == Some(createdBy)
    {
      set k | k in repo && repo[k].newsSourceCreatedBy == Some(createdBy) :: repo[k]
    }

    /** The source with id `newsSourceId` among those `userId` created. It is found
        exactly when the creator scan holds a source with that id, and then it is the
        only such source; otherwise `NewsSourceNotFound`, also when the user created nothing. */
    function GetNewsSourceById(userId: string, newsSourceId: int): (r: Result<NewsSourceDoc, NewsSourceError>)
      requires Valid()
      reads this
      ensures r.Success? <==> exists s :: s in GetAllNewsSourceByUserId(userId) && s.newsSourceId == newsSourceId
      ensures r.Success? ==> r.value in GetAllNewsSourceByUserId(userId) && r.value.newsSourceId == newsSourceId
      ensures r.Success? ==> forall s :: s in GetAllNewsSourceByUserId(userId) && s.newsSourceId == newsSourceId ==> s == r.value
      ensures r.Failure? ==> r.error == NewsSourceNotFound
    {
      if newsSourceId in repo && repo[newsSourceId].newsSourceCreatedBy == Some(userId)
      then Success(repo[newsSourceId])
      else Failure(NewsSourceNotFound)
    }
  }
}
