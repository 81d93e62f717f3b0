# Newz services: a Dafny model of the service layer

This project models the service layer of the Newz microservices: four small stores
of documents and the credential check behind login and registration.

- The news service keeps one `UserNews` aggregate per owner key. Each aggregate holds
  an ordered list of `News` items. Every operation loads the aggregate, scans its list,
  changes it and saves the whole aggregate back.
- The news-source service keeps flat `NewsSource` records keyed by integer id. It can
  also scan them by the creator attribute.
- The user-profile service is plain keyed storage. It fails when a profile already
  exists and when one is absent.
- The authentication controller checks a (user id, password) pair against the
  credential store. It builds the claims of a signed token and fills a response map
  that every login shares.
- The entity classes `Reminder` and `NewsSource` take their timestamps from the clock,
  never from a caller.

The model follows the code as written, including its surprising behaviour:

- news is keyed by the item's author;
- a second item for the same author is refused;
- an update appends a duplicate of the updated item;
- deleting one item deletes the owner's whole aggregate;
- an absent id escapes as an uncaught `NoSuchElementException` from `findById(..).get()` where nothing catches it: in `deleteNews`, `getAllNewsByUserId`, `updateNewsSource`, `updateUser`, `deleteUser` and `getUserById`. `updateNews`, `deleteAllNews` and `getNewsByNewsId` catch it and throw `NewsNotFoundException` instead.

Modelling choices:

- Each repository is a class holding a `map`. `Valid()` says every record is stored
  under its own id, and each mutating method keeps it.
- Exceptions are `Result` failures, with a named error variant per exception type or message.
  Java's `null` is `Option.None`.
- Clock reads are `now: Instant` parameters (milliseconds).
- Token signing and compaction is the controller's `sign` function, fixed when the
  controller is built. `GetToken` returns the claims, and `Login` signs them with the
  key `"secretkey"`.
- The services take and return documents as values. A value is the copy the document
  store hands out or receives.
- `Scenarios` holds three client scenarios. They are verified, not executed, and their assertions follow from the contracts alone.

The intended design differs from the code. It asks for:

- append-on-add;
- in-place update;
- single-item delete;
- credential uniqueness by id alone;
- a fresh response object per call.

The code does none of these, and the model does what the code does.

## Model

| member | source | states |
|---|---|---|
| `NewsAggregates.FirstIndex` | NewsService/src/main/java/com/stackroute/newz/service/NewsServiceImpl.java:131-134 | the for-each scan stops at the first entry carrying the id; none is found exactly when no entry carries it |
| `NewsAggregates.Patch` | NewsService/src/main/java/com/stackroute/newz/service/NewsServiceImpl.java:104-110 | the setters give the matched entry every field of the incoming item except its own stored id |
| `NewsAggregates.UpdatedList` | NewsService/src/main/java/com/stackroute/newz/service/NewsServiceImpl.java:104-113 | the list the update saves is one longer, with the patched entry in place and appended at the end, and every other entry kept; a later scan for the id still stops at the patched entry, not at the appended copy; its counts are proved in `UpdateAppendsDuplicate` |
| `NewsAggregates.UpdateAppendsDuplicate` | NewsService/src/main/java/com/stackroute/newz/service/NewsServiceImpl.java:102-113 | the saved list is one longer, holds the patched entry at its old place and again at the end, keeps every other entry, and holds that id once more than before (at least twice) |
| `NewsAggregates.CountConcat` | NewsService/src/main/java/com/stackroute/newz/service/NewsServiceImpl.java:111 | occurrences of an id in a concatenation add up |
| `NewsAggregates.CountReplace` | NewsService/src/main/java/com/stackroute/newz/service/NewsServiceImpl.java:104-110 | overwriting an entry with one of the same id keeps every id's count |
| `NewsAggregates.CountPositive` | NewsService/src/main/java/com/stackroute/newz/service/NewsServiceImpl.java:103 | an id present in the list is counted at least once |
| `NewsServices.NewsService.constructor` | NewsService/src/main/java/com/stackroute/newz/service/NewsServiceImpl.java:39-41 | the service starts over a given repository whose records sit under their own owner id |
| `NewsServices.NewsService.AddNews` | NewsService/src/main/java/com/stackroute/newz/service/NewsServiceImpl.java:47-62 | true iff the author had no aggregate; then the store gains one keyed by the author holding exactly `[news]`, which reads back as the owner's list; otherwise nothing changes, so a second item is refused, not appended |
| `NewsServices.NewsService.DeleteNews` | NewsService/src/main/java/com/stackroute/newz/service/NewsServiceImpl.java:66-76 | true iff the owner's list holds the id, and then the owner's whole aggregate is gone, siblings included; false leaves the store as it was; an absent owner fails with NoSuchElement |
| `NewsServices.NewsService.DeleteAllNews` | NewsService/src/main/java/com/stackroute/newz/service/NewsServiceImpl.java:80-92 | removes only the owner's aggregate and answers true; an absent owner fails with NewsNotFound and nothing changes |
| `NewsServices.NewsService.UpdateNews` | NewsService/src/main/java/com/stackroute/newz/service/NewsServiceImpl.java:98-121 | on the first match saves the list with that entry patched and appended again, and returns the patched entry; with no match answers null and saves nothing; an absent owner fails with NewsNotFound |
| `NewsServices.NewsService.GetNewsByNewsId` | NewsService/src/main/java/com/stackroute/newz/service/NewsServiceImpl.java:127-139 | the first entry with the id, null when there is none, NewsNotFound when the owner has no aggregate |
| `NewsServices.NewsService.GetAllNewsByUserId` | NewsService/src/main/java/com/stackroute/newz/service/NewsServiceImpl.java:145-147 | the owner's stored list in stored order; an absent owner fails with NoSuchElement |
| `Reminders.Reminder.constructor` | NewsService/src/main/java/com/stackroute/newz/model/Reminder.java:26-29 | the schedule is the clock reading and the id is null |
| `Reminders.Reminder.WithId` | NewsService/src/main/java/com/stackroute/newz/model/Reminder.java:31-34 | stores the id and ignores the schedule argument, leaving the schedule unset |
| `Reminders.Reminder.SetReminderId` | NewsService/src/main/java/com/stackroute/newz/model/Reminder.java:36-42 | the getter then returns the new id; the schedule is unchanged |
| `Reminders.Reminder.SetSchedule` | NewsService/src/main/java/com/stackroute/newz/model/Reminder.java:44-50 | takes no caller value: the schedule becomes the clock reading; the id is unchanged |
| `NewsSources.NewsSource.constructor` | NewsSourceService/src/main/java/com/stackroute/newz/model/NewsSource.java:36-38 | the creation date is the clock reading; the id is 0 and the strings are null |
| `NewsSources.NewsSource.WithFields` | NewsSourceService/src/main/java/com/stackroute/newz/model/NewsSource.java:40-47 | stores id, name, description and creator, and ignores the creation-date argument, leaving the date unset |
| `NewsSources.NewsSource.SetNewsSourceId` | NewsSourceService/src/main/java/com/stackroute/newz/model/NewsSource.java:49-55 | the getter returns the new id; the other four fields are unchanged |
| `NewsSources.NewsSource.SetNewsSourceName` | NewsSourceService/src/main/java/com/stackroute/newz/model/NewsSource.java:57-63 | the getter returns the new name; the other four fields are unchanged |
| `NewsSources.NewsSource.SetNewsSourceDesc` | NewsSourceService/src/main/java/com/stackroute/newz/model/NewsSource.java:65-71 | the getter returns the new description; the other four fields are unchanged |
| `NewsSources.NewsSource.SetNewsSourceCreatedBy` | NewsSourceService/src/main/java/com/stackroute/newz/model/NewsSource.java:73-79 | the getter returns the new creator; the other four fields are unchanged |
| `NewsSources.NewsSource.SetNewsSourceCreationDate` | NewsSourceService/src/main/java/com/stackroute/newz/model/NewsSource.java:81-87 | takes no caller value: the date becomes the clock reading; the other four fields are unchanged |
| `NewsSourceServices.NewsSourceService.constructor` | NewsSourceService/src/main/java/com/stackroute/newz/service/NewsSourceServiceImpl.java:33-35 | the service starts over a given repository whose records sit under their own id |
| `NewsSourceServices.NewsSourceService.AddNewsSource` | NewsSourceService/src/main/java/com/stackroute/newz/service/NewsSourceServiceImpl.java:41-49 | inserts and answers true iff the id was free; otherwise false with the store unchanged |
| `NewsSourceServices.NewsSourceService.DeleteNewsSource` | NewsSourceService/src/main/java/com/stackroute/newz/service/NewsSourceServiceImpl.java:54-60 | always answers true; afterwards the id is absent and every other source is untouched |
| `NewsSourceServices.NewsSourceService.UpdateNewsSource` | NewsSourceService/src/main/java/com/stackroute/newz/service/NewsSourceServiceImpl.java:65-75 | overwrites name, creator and description, keeps id and creation date, saves and returns the record; an absent id fails with NoSuchElement, so the NotFound throw is never reached |
| `NewsSourceServices.NewsSourceService.GetAllNewsSourceByUserId` | NewsSourceService/src/main/java/com/stackroute/newz/service/NewsSourceServiceImpl.java:102-104 | exactly the stored sources whose creator is the argument; empty, not an error, when none matches |
| `NewsSourceServices.NewsSourceService.GetNewsSourceById` | NewsSourceService/src/main/java/com/stackroute/newz/service/NewsSourceServiceImpl.java:80-97 | found iff the creator's sources hold one with that id, and then it is the only one; otherwise NewsSourceNotFound, also when the user created none |
| `UserProfiles.UserProfileService.constructor` | UserProfileService/src/main/java/com/stackroute/userprofile/service/UserProfileServiceImpl.java:30-32 | the service starts over a given repository whose records sit under their own id |
| `UserProfiles.UserProfileService.RegisterUser` | UserProfileService/src/main/java/com/stackroute/userprofile/service/UserProfileServiceImpl.java:39-47 | a free id is inserted and returned, and reads back unchanged; a taken id fails with AlreadyExists and keeps the store |
| `UserProfiles.UserProfileService.UpdateUser` | UserProfileService/src/main/java/com/stackroute/userprofile/service/UserProfileServiceImpl.java:55-67 | overwrites only first name, last name, contact and email, keeps the id, and returns the record as stored after the save; an absent id fails with NoSuchElement |
| `UserProfiles.UserProfileService.DeleteUser` | UserProfileService/src/main/java/com/stackroute/userprofile/service/UserProfileServiceImpl.java:75-82 | removes only that profile and answers true; an absent id fails with NoSuchElement |
| `UserProfiles.UserProfileService.GetUserById` | UserProfileService/src/main/java/com/stackroute/userprofile/service/UserProfileServiceImpl.java:90-96 | the stored profile, unchanged, which carries the asked id; an absent id fails with NoSuchElement |
| `UserAuth.UserAuthService.FindByUserIdAndPassword` | AuthenticationService/src/main/java/com/stackroute/user/controller/UserAuthController.java:121 | finds a user only for the exact (id, password) pair the store holds |
| `UserAuth.UserAuthService.SaveUser` | AuthenticationService/src/main/java/com/stackroute/user/controller/UserAuthController.java:70 | the store gains the user |
| `UserAuth.UserAuthController.constructor` | AuthenticationService/src/main/java/com/stackroute/user/controller/UserAuthController.java:45-51 | the controller starts with an empty response map over the given credential store |
| `UserAuth.Message` | AuthenticationService/src/main/java/com/stackroute/user/controller/UserAuthController.java:116-125 | the message of each `ServletException` that login copies into the map: one for a null field, one for an unknown pair, neither equal to the success message |
| `UserAuth.UserAuthController.GetToken` | AuthenticationService/src/main/java/com/stackroute/user/controller/UserAuthController.java:116-135 | a null field fails with MissingCredentials whatever the store holds; a pair not stored fails with InvalidCredentials; otherwise subject = user name, issued = now, expiry = now + 300000 ms |
| `UserAuth.UserAuthController.LoginResponse` | AuthenticationService/src/main/java/com/stackroute/user/controller/UserAuthController.java:99-113 | the map holds exactly the keys message and token: the success message, the signed token and 200, or the failure's message, a null token and 401 |
| `UserAuth.UserAuthController.Login` | AuthenticationService/src/main/java/com/stackroute/user/controller/UserAuthController.java:96-114 | the shared map is cleared and refilled with the response of this call's outcome, so no key of an earlier call survives, and the same map is returned |
| `UserAuth.UserAuthController.RegisterUser` | AuthenticationService/src/main/java/com/stackroute/user/controller/UserAuthController.java:66-80 | saves and answers 201 with the user only when no stored user has the same (id, password) pair and the save is not refused; otherwise 409 and nothing is saved |

## Left out

- HTTP routing, logging, JSON serialisation and `toString` are not modelled. The controllers `NewsController` and `NewsSourceController` only forward to the services and are not part of this model.
- JWT building, HS256 signing, base64 and the compact wire format are not modelled. They are the controller's `sign` function, about which nothing is assumed. Token verification is not in this code and is not modelled.
- Clock reads are not modelled: each is a `now` parameter. The two reads in `getToken` (issued-at and expiry) are one `now`, although the source reads the clock twice.
- Java `long` overflow of `now + 300000` is not modelled: time is an unbounded integer, and the overflow needs a clock near 2^63 ms.
- Concurrency is not modelled: every call runs alone. This leaves out lost updates on an aggregate and interleaved logins sharing the response map.
- The Spring Data repositories are not part of this model; each is a `map`. `insert` always succeeds, so the `!= null` tests after it (NewsServiceImpl.java:56-59, NewsSourceServiceImpl.java:45, UserProfileServiceImpl.java:43) always pass. `deleteById` on an absent id changes nothing.
- Repository scan order is not modelled: `GetAllNewsSourceByUserId` returns a set. Ids are unique keys, so the id search in `getNewsSourceById` finds at most one source whatever the order.
- The catch of `NoSuchElementException` in `getNewsSourceById` (NewsSourceServiceImpl.java:93-95) is not modelled: nothing inside its `try` throws that exception.
- `NewsServices.NewsService.DeleteAllNews`: the `false` answer for an aggregate whose list is null (NewsServiceImpl.java:84, 91) is not modelled. Every aggregate this service writes carries a list, and the model keeps the list as a sequence.
- `NewsServices.NewsService.DeleteNews`, `NewsServices.NewsService.UpdateNews` and `NewsServices.NewsService.GetNewsByNewsId`: the `NullPointerException` that a null list throws is not modelled. The for-each loops at NewsServiceImpl.java:69, 102 and 131 throw it, and the `NoSuchElementException` catches do not catch it. The reason is the one given for `DeleteAllNews`.
- The classes `News`, `UserNews`, `UserProfile` and `User` are not part of this model. Their fields are taken from the getters and setters the services call.
- `User`'s two fields may be null (`Option<string>`), as the null check in `getToken` needs.
- The strings of `News`, `UserNews` and `UserProfile` are never null. So the `IllegalArgumentException` is not modelled: `existsById(null)` throws it for a null author (NewsServiceImpl.java:48) or a null user id (UserProfileServiceImpl.java:40).
- `newsId` is an `int`, so the null-pointer failure of `getNewsId().equals` is not modelled.
- `UserAuthService` is not part of this model. Its `findByUserIdAndPassword` is an exact-pair lookup in a set of users. The model assumes it answers null when nothing matches and never throws `UserNotFoundException`. `registerUser` declares that exception (UserAuthController.java:66), and only the lookup in its `try` could raise it. If the lookup did throw, `registerUser` would let it escape uncaught, and `login` would answer 401 with that exception's message; neither path is modelled. Whether its `saveUser` throws `UserAlreadyExistsException` is the parameter `saveRejected`, and a refused save stores nothing.
- The Java objects behind a returned list or record are not modelled as shared references. The services hand out values, like the copies the document store materialises.
- Getters are functions that only read their object, so they cannot change it. They have no rows of their own; each setter's contract states its getter's round trip.
