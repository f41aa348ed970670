/**
 * The records the Hack or Snooze service sends back, already decoded from JSON,
 * and the outcome of one call to it. The HTTP requests themselves are not modelled:
 * every operation receives the outcome of its call as an input.
 */
module Api {
  import opened Wrappers

  /** Why a call to the service failed: an error status, or no response at all. */
  datatype ApiError = HttpError(status: int) | NetworkError

  /**
   * The settled outcome of one awaited request: the decoded response body, or the
   * error with which the request was rejected.
   */
  datatype Call<+T> = Succeeded(data: T) | Rejected(error: ApiError)

  /**
   * A story as the service describes it. `others` holds every further property the
   * service may send (for example the time of the last update).
   */
  datatype StoryRecord = StoryRecord(
    storyId: string,
    title: string,
    author: string,
    url: string,
    username: string,
    createdAt: string,
    others: map<string, string>)

  /** The fields a client supplies for a story it wants to create. */
  datatype Draft = Draft(title: string, author: string, url: string)

  /**
   * A user as the service describes it. The story lists are `None` when the
   * response does not carry them.
   */
  datatype UserRecord = UserRecord(
    username: string,
    name: string,
    createdAt: string,
    favorites: Option<seq<StoryRecord>>,
    stories: Option<seq<StoryRecord>>)

  /** Body of the response to reading the feed: `{stories: [...]}`. */
  datatype StoriesResponse = StoriesResponse(stories: seq<StoryRecord>)

  /** Body of the response to creating a story: `{story: {...}}`. */
  datatype StoryResponse = StoryResponse(story: StoryRecord)

  /** Body of the response to signing up or logging in: `{user: {...}, token}`. */
  datatype AuthResponse = AuthResponse(user: UserRecord, token: string)

  /** Body of the response to reading a user with a stored token: `{user: {...}}`. */
  datatype UserResponse = UserResponse(user: UserRecord)

  /** Body of the response to adding or removing a favorite: only its arrival matters. */
  datatype Ack = Ack
}
