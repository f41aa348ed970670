/** The list of stories shown by the client, and how it is fetched and extended. */
module StoryLists {
  import opened Wrappers
  import opened Api
  import opened Stories
  import opened Users

  class StoryList {
    var stories: seq<Story>

    /** A list holding the given stories. */
    constructor (stories: seq<Story>)
      ensures this.stories == stories
    {
      this.stories := stories;
    }

    /**
     * Builds a new list from the service's feed: one story per record, in the
     * feed's order. A rejected request is passed on.
     */
    static method GetStories(response: Call<StoriesResponse>) returns (r: Result<StoryList, ApiError>)
      ensures response.Rejected? ==> r == Failure(response.error)
      ensures response.Succeeded? ==>
        r.Success? && fresh(r.value) && r.value.stories == StoriesFromRecords(response.data.stories)
    {
      if response.Rejected? {
        return Failure(response.error);
      }
      var list := new StoryList(StoriesFromRecords(response.data.stories));
      return Success(list);
    }

    /**
     * Adds a story once the service has created it: the story built from the
     * record the service sends back (not from the draft) goes at the end of the list
     * and is returned. A rejected request is passed on and leaves the list as it was.
     * The user and the draft only form the request.
     */
    method AddStory(user: User, draft: Draft, response: Call<StoryResponse>) returns (r: Result<Story, ApiError>)
      modifies this`stories
      ensures response.Rejected? ==> r == Failure(response.error) && stories == old(stories)
      ensures response.Succeeded? ==>
        r == Success(MakeStory(response.data.story)) && stories == old(stories) + [r.value]
    {
      if response.Rejected? {
        return Failure(response.error);
      }
      var added := MakeStory(response.data.story);
      stories := stories + [added];
      return Success(added);
    }
  }

  /**
   * The story list of a session: the feed is fetched, then one story is created.
   * The list holds the stories of the feed's records followed by the story of the
   * record the service sent back for the new story.
   */
  method FetchThenAdd(feed: StoriesResponse, user: User, draft: Draft, created: StoryResponse)
    returns (list: StoryList)
    ensures list.stories == StoriesFromRecords(feed.stories + [created.story])
  {
    var fetched := StoryList.GetStories(Succeeded(feed));
    list := fetched.value;
    var added := list.AddStory(user, draft, Succeeded(created));
    StoriesFromRecordsAppend(feed.stories, created.story);
  }
}
