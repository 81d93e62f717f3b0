/** Client scenarios of the services, written against their contracts only: each assertion
    follows from the specifications of the operations called before it. */
module Scenarios {
  import opened Common
  import opened NewsAggregates
  import opened NewsServices
  import opened UserAuth
  import opened Reminders

  /** One author's news: a second item is refused, an update leaves the item twice in
      the list, and deleting one item removes the author's whole aggregate. */
  method NewsLifecycle(first: News, second: News, edit: News)
    requires first.author == second.author && first.newsId != second.newsId
  {
    var service := new NewsService(map[]);
    var added := service.AddNews(first);
    assert added;
    added := service.AddNews(second);
    assert !added;
    assert service.GetAllNewsByUserId(first.author) == Success([first]);

    var updated := service.UpdateNews(edit, first.newsId, first.author);
    var patched := Patch(first, edit);
    assert UpdatedList([first], 0, edit) == [patched, patched];
    assert updated == Success(Some(patched));
    assert service.GetAllNewsByUserId(first.author) == Success([patched, patched]);

    assert [patched, patched][0].newsId == first.newsId;
    var deleted := service.DeleteNews(first.author, first.newsId);
    assert deleted == Success(true);
    assert service.GetAllNewsByUserId(first.author) == Failure(NewsServices.NoSuchElement);
  }

  /** Every login leaves exactly the two keys of its own outcome in the shared map. */
  method LoginTwice(sign: (Claims, string) -> string, now: Instant)
  {
    var store := new UserAuthService({User(Some("ann"), Some("pw"))});
    var controller := new UserAuthController(store, sign);
    var body, status := controller.Login(User(Some("ann"), Some("pw")), now);
    assert status == HTTP_OK;
    assert body["token"] == Some(sign(Claims("ann", now, now + 300000), SECRET_KEY));
    body, status := controller.Login(User(Some("ann"), None), now);
    assert status == HTTP_UNAUTHORIZED;
    assert body == map["message" := Some("Please fill in username and password."), "token" := None];
  }

  /** A reminder built when the clock reads `now` is embedded in a news item through
      `Doc()`; reading the item back yields that reminder, scheduled at `now`. */
  method ReminderEmbedded(item: News, reminderId: Option<string>, now: Instant, later: Instant)
  {
    var reminder := new Reminder(now);
    reminder.SetReminderId(reminderId);
    var news := item.(reminder := Some(reminder.Doc()));
    var service := new NewsService(map[]);
    var added := service.AddNews(news);
    assert added;
    assert [news][0].newsId == news.newsId;
    var read := service.GetNewsByNewsId(news.author, news.newsId);
    assert read == Success(Some(news));
    assert read.value.value.reminder == Some(ReminderDoc(reminderId, Some(now)));

    // Resetting the schedule later changes the object, not the stored copy.
    reminder.SetSchedule(later);
    assert reminder.Doc() == ReminderDoc(reminderId, Some(later));
    assert service.GetAllNewsByUserId(news.author) == Success([news]);
  }
}
