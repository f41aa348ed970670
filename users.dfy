/**
 * The logged-in user: identity, login token, own stories and favorites, and the
 * changes made to the favorites once the service has confirmed them.
 */
module Users {
  import opened Wrappers
  import opened Api
  import opened Stories
  import opened Favorites

  /**
   * The object the User constructor reads. It names the user's own stories
   * `ownStories`, where the service's user record calls them `stories`.
   */
  datatype UserFields = UserFields(
    username: string,
    name: string,
    createdAt: string,
    favorites: Option<seq<StoryRecord>>,
    ownStories: Option<seq<StoryRecord>>)

  /** The constructor argument that signing up and both kinds of login build from a user record. */
  function FieldsOf(user: UserRecord): UserFields
  {
    UserFields(user.username, user.name, user.createdAt, user.favorites, user.stories)
  }

  /**
   * A story list of the constructor: an absent list defaults to the empty one, a
   * present one becomes one story per record, in order.
   */
  function StoriesOrEmpty(recs: Option<seq<StoryRecord>>): (r: seq<Story>)
    ensures recs.None? ==> r == []
    ensures recs.Some? ==> |r| == |recs.value|
    ensures recs.Some? ==> forall i :: 0 <= i < |r| ==> r[i] == MakeStory(recs.value[i])
  {
    match recs
    case None => []
    case Some(rs) => StoriesFromRecords(rs)
  }

  class User {
    var username: string
    var name: string
    var createdAt: string
    var favorites: seq<Story>
    var ownStories: seq<Story>
    var loginToken: string

    /** True when this user holds what the service said of `user`, with `token` as its login token. */
    ghost predicate Reflects(user: UserRecord, token: string)
      reads this
    {
      username == user.username && name == user.name && createdAt == user.createdAt &&
      favorites == StoriesOrEmpty(user.favorites) &&
      ownStories == StoriesOrEmpty(user.stories) &&
      loginToken == token
    }

    /** A user built from its fields and a login token. */
    constructor (fields: UserFields, token: string)
      ensures username == fields.username && name == fields.name && createdAt == fields.createdAt
      ensures favorites == StoriesOrEmpty(fields.favorites)
      ensures ownStories == StoriesOrEmpty(fields.ownStories)
      ensures loginToken == token
    {
      username := fields.username;
      name := fields.name;
      createdAt := fields.createdAt;
      favorites := StoriesOrEmpty(fields.favorites);
      ownStories := StoriesOrEmpty(fields.ownStories);
      loginToken := token;
    }

    /**
     * Favorites `story` once the service has answered the request to add it: the
     * story goes at the end of the favorites. A rejected request is passed on and
     * leaves the favorites as they were.
     */
    method AddFavorite(story: Story, response: Call<Ack>) returns (r: Outcome<ApiError>)
      modifies this`favorites
      ensures response.Rejected? ==> r == Fail(response.error) && favorites == old(favorites)
      ensures response.Succeeded? ==> r == Pass && favorites == old(favorites) + [story]
    {
      if response.Rejected? {
        return Fail(response.error);
      }
      favorites := favorites + [story];
      return Pass;
    }

    /**
     * Unfavorites `story` once the service has answered the request to remove it.
     * The loop splices out each examined entry with the story's id and advances its
     * index in every case, so the entry that slides into a freed slot is skipped.
     * A rejected request is passed on and leaves the favorites as they were.
     */
    method RemoveFavorite(story: Story, response: Call<Ack>) returns (r: Outcome<ApiError>)
      modifies this`favorites
      ensures response.Rejected? ==> r == Fail(response.error) && favorites == old(favorites)
      ensures response.Succeeded? ==> r == Pass && favorites == AfterRemoval(old(favorites), story.storyId)
    {
      if response.Rejected? {
        return Fail(response.error);
      }
      var favs := favorites;
      ghost var orig, id := favorites, story.storyId;
      // `out` is the part of `favs` the loop has passed and `rest` the part it has
      // not touched yet.
      ghost var out: seq<Story> := [];
      ghost var rest := favorites;
      var i := 0;
      while i < |favs|
        invariant favs == out + rest
        invariant i == |out| || (i == |out| + 1 && rest == [])
        invariant out + AfterRemoval(rest, id) == AfterRemoval(orig, id)
        decreases |rest|
      {
        assert i == |out| && rest != [] && favs[i] == rest[0];
        if favs[i].storyId == story.storyId {
          SpliceAt(out, rest);
          favs := favs[..i] + favs[i + 1..];
          if |rest| > 1 {
            RemovalStepSplice(out, rest, id);
            Shift(out, rest[1..]);
            assert rest[1..][1..] == rest[2..];
            out, rest := out + [rest[1]], rest[2..];
          } else {
            RemovalStepLast(out, rest, id);
            rest := [];
          }
        } else {
          RemovalStepKeep(out, rest, id);
          Shift(out, rest);
          out, rest := out + [rest[0]], rest[1..];
        }
        i := i + 1;
      }
      favorites := favs;
      return Pass;
    }

    /**
     * Signs up a new user. On success the user carries the service's record (its
     * `stories` becoming the own stories) and the token the service issued; a
     * rejected request is passed on. The credentials only form the request.
     */
    static method Signup(username: string, password: string, name: string, response: Call<AuthResponse>)
      returns (r: Result<User, ApiError>)
      ensures response.Rejected? ==> r == Failure(response.error)
      ensures response.Succeeded? ==>
        r.Success? && fresh(r.value) && r.value.Reflects(response.data.user, response.data.token)
    {
      if response.Rejected? {
        return Failure(response.error);
      }
      var user := new User(FieldsOf(response.data.user), response.data.token);
      return Success(user);
    }

    /**
     * Logs an existing user in. On success the user carries the service's record
     * and the token the service issued; a rejected request is passed on.
     */
    static method Login(username: string, password: string, response: Call<AuthResponse>)
      returns (r: Result<User, ApiError>)
      ensures response.Rejected? ==> r == Failure(response.error)
      ensures response.Succeeded? ==>
        r.Success? && fresh(r.value) && r.value.Reflects(response.data.user, response.data.token)
    {
      if response.Rejected? {
        return Failure(response.error);
      }
      var user := new User(FieldsOf(response.data.user), response.data.token);
      return Success(user);
    }

    /**
     * Logs a user in again with a stored token. On success the user carries the
     * service's record and keeps the stored token; any failure yields null instead
     * of an error.
     */
    static method LoginViaStoredCredentials(token: string, username: string, response: Call<UserResponse>)
      returns (u: User?)
      ensures response.Rejected? <==> u == null
      ensures u != null ==> fresh(u) && u.Reflects(response.data.user, token)
    {
      if response.Rejected? {
        return null;
      }
      u := new User(FieldsOf(response.data.user), token);
    }
  }
}
