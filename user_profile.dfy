/** The user-profile service: plain keyed records with "already exists" and
    "absent" failure paths. */
module UserProfiles {
  import opened Common

  /** A profile. Its fields are the ones the service reads and writes. */
  datatype UserProfile = UserProfile(userId: string, firstName: string, lastName: string, contact: string, email: string)

  /** `AlreadyExists` is `UserProfileAlreadyExistsException`; `NoSuchElement` escapes
      uncaught from `findById(..).get()` on an absent id. */
  datatype ProfileError = AlreadyExists | NoSuchElement

  class UserProfileService {
    /** The profile repository: user id to stored profile. */
    var repo: map<string, UserProfile>

    /** Each profile is stored under its own user id. */
    ghost predicate Valid()
      reads this
    {
      forall k :: k in repo ==> repo[k].userId == k
    }

    constructor (initial: map<string, UserProfile>)
      requires forall k :: k in initial ==> initial[k].userId == k
      ensures Valid() && repo == initial
    {
      repo := initial;
    }

    /** Inserts a profile whose id is free and returns it; a taken id raises
        `AlreadyExists` and keeps the store. */
    method RegisterUser(user: UserProfile) returns (r: Result<UserProfile, ProfileError>)
      requires Valid()
      modifies this
      ensures Valid()
      ensures r.Success? <==> user.userId !in old(repo)
      ensures r.Success? ==> r.value == user && repo == old(repo)[user.userId := user]
      ensures r.Failure? ==> r.error == AlreadyExists && repo == old(repo)
      ensures r.Success? ==> GetUserById(user.userId) == Success(user)
    {
      var idTaken := user.userId in repo;
      if !idTaken {
        repo := repo[user.userId := user];
        return Success(user);
      }
      return Failure(AlreadyExists);
    }

    /** Overwrites first name, last name, contact and email of the stored profile, keeps
        its id, saves, and returns the profile read back after the save. */
    method UpdateUser(userId: string, user: UserProfile) returns (r: Result<UserProfile, ProfileError>)
      requires Valid()
      modifies this
      ensures Valid()
      ensures userId !in old(repo) ==> r == Failure(NoSuchElement) && repo == old(repo)
      ensures userId in old(repo) ==>
        && r.Success?
        && r.value == user.(userId := userId)
        && repo == old(repo)[userId := r.value]
    {
      if userId !in repo {
        return Failure(NoSuchElement);
      }
      var profile := repo[userId];
      profile := profile.(firstName := user.firstName, lastName := user.lastName,
                          contact := user.contact, email := user.email);
      repo := repo[profile.userId := profile];
      return Success(repo[userId]);
    }

    /** Removes just the profile under `userId` and answers true; an absent id escapes
        as `NoSuchElement`. */
    method DeleteUser(userId: string) returns (r: Result<bool, ProfileError>)
      requires Valid()
      modifies this
      ensures Valid()
      ensures userId !in old(repo) ==> r == Failure(NoSuchElement) && repo == old(repo)
      ensures userId in old(repo) ==> r == Success(true) && repo == old(repo) - {userId}
    {
      if userId !in repo {
        return Failure(NoSuchElement);
      }
      repo := repo - {userId};
      return Success(true);
    }

    /** The stored profile, unchanged; an absent id escapes as `NoSuchElement`. */
    function GetUserById(userId: string): (r: Result<UserProfile, ProfileError>)
      requires Valid()
      reads this
      ensures r.Success? <==> userId in repo
      ensures r.Success? ==> r.value.userId == userId && r.value == repo[userId]
      ensures r.Failure? ==> r.error == NoSuchElement
    {
      if userId in repo then Success(repo[userId]) else Failure(NoSuchElement)
    }
  }
}
