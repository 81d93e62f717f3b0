/** The news-source entity: five fields, one setter each, and a creation date that
    only the clock ever supplies. */
module NewsSources {
  import opened Common

  /** The persisted form of a news source. */
  datatype NewsSourceDoc = NewsSourceDoc(
    newsSourceId: int,
    newsSourceName: Option<string>,
    newsSourceDesc: Option<string>,
    newsSourceCreatedBy: Option<string>,
    newsSourceCreationDate: Option<Instant>)

  class NewsSource {
    var newsSourceId: int
    var newsSourceName: Option<string>
    var newsSourceDesc: Option<string>
    var newsSourceCreatedBy: Option<string>
    var newsSourceCreationDate: Option<Instant>

    /** The no-argument constructor stamps the creation date with its clock reading
        `now`; the id keeps Java's default 0 and the strings stay null. */
    constructor (now: Instant)
      ensures newsSourceId == 0
      ensures newsSourceName == None && newsSourceDesc == None && newsSourceCreatedBy == None
      ensures newsSourceCreationDate == Some(now)
    {
      newsSourceId := 0;
      newsSourceName, newsSourceDesc, newsSourceCreatedBy := None, None, None;
      newsSourceCreationDate := Some(now);
    }

    /** The five-argument constructor stores four of its arguments and ignores the
        creation date it is given, leaving the date unset. */
    constructor WithFields(newsSourceId: int, newsSourceName: Option<string>, newsSourceDesc: Option<string>,
                           newsSourceCreatedBy: Option<string>, newsSourceCreationDate: Option<Instant>)
      ensures this.newsSourceId == newsSourceId
      ensures this.newsSourceName == newsSourceName
      ensures this.newsSourceDesc == newsSourceDesc
      ensures this.newsSourceCreatedBy == newsSourceCreatedBy
      ensures this.newsSourceCreationDate == None
    {
      this.newsSourceId := newsSourceId;
      this.newsSourceName := newsSourceName;
      this.newsSourceDesc := newsSourceDesc;
      this.newsSourceCreatedBy := newsSourceCreatedBy;
      this.newsSourceCreationDate := None;
    }

    function GetNewsSourceId(): int reads this { newsSourceId }
    function GetNewsSourceName(): Option<string> reads this { newsSourceName }
    function GetNewsSourceDesc(): Option<string> reads this { newsSourceDesc }
    function GetNewsSourceCreatedBy(): Option<string> reads this { newsSourceCreatedBy }
    function GetNewsSourceCreationDate(): Option<Instant> reads this { newsSourceCreationDate }

    /** The value the repository stores for this object. */
    function Doc(): NewsSourceDoc
      reads this
    {
      NewsSourceDoc(newsSourceId, newsSourceName, newsSourceDesc, newsSourceCreatedBy, newsSourceCreationDate)
    }

    method SetNewsSourceId(newsSourceId: int)
      modifies this
      ensures Doc() == old(Doc()).(newsSourceId := newsSourceId)
      ensures GetNewsSourceId() == newsSourceId
    {
      this.newsSourceId := newsSourceId;
    }

    method SetNewsSourceName(newsSourceName: Option<string>)
      modifies this
      ensures Doc() == old(Doc()).(newsSourceName := newsSourceName)
      ensures GetNewsSourceName() == newsSourceName
    {
      this.newsSourceName := newsSourceName;
    }

    method SetNewsSourceDesc(newsSourceDesc: Option<string>)
      modifies this
      ensures Doc() == old(Doc()).(newsSourceDesc := newsSourceDesc)
      ensures GetNewsSourceDesc() == newsSourceDesc
    {
      this.newsSourceDesc := newsSourceDesc;
    }

    method SetNewsSourceCreatedBy(newsSourceCreatedBy: Option<string>)
      modifies this
      ensures Doc() == old(Doc()).(newsSourceCreatedBy := newsSourceCreatedBy)
      ensures GetNewsSourceCreatedBy() == newsSourceCreatedBy
    {
      this.newsSourceCreatedBy := newsSourceCreatedBy;
    }

    /** Takes no value from the caller: the date becomes the clock reading `now`. */
    method SetNewsSourceCreationDate(now: Instant)
      modifies this
      ensures Doc() == old(Doc()).(newsSourceCreationDate := Some(now))
      ensures GetNewsSourceCreationDate() == Some(now)
    {
      newsSourceCreationDate := Some(now);
    }
  }
}
