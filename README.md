# Hack or Snooze: the client's domain model

Hack or Snooze is a browser client for a news-aggregation service: users read a
feed of stories, submit stories, sign up or log in, and keep a list of favorite
stories. This project models the in-memory part of its domain model
(`js/models.js`): how `Story`, `StoryList` and `User` objects are built from the
records the service sends back, and how the story list and the favorites list
change once a call to the service has returned.

Every call to the service is replaced by its settled outcome, which the operation
receives as an input (`Api.Call<T>`): either the decoded response body or the
error the request was rejected with. An awaited request that is rejected makes
the JavaScript operation throw before it touches any list. So each modelled
operation returns `Failure`/`Fail` with that error and leaves its state as it was.
The one exception is `LoginViaStoredCredentials`: it catches the error and returns
null.

Modules:

- `Wrappers`: `Option`, `Result` and `Outcome`.
- `Api`: the decoded response records (`StoryRecord`, `UserRecord`, and the
  bodies `{stories}`, `{story}`, `{user, token}`, `{user}`), the call outcome
  `Call<T>` and `ApiError`.
- `Stories`: `Story` is a datatype, since a story is never changed after it is
  built; `MakeStory` is the `Story` constructor and `StoriesFromRecords` the
  `map` that turns an array of records into stories.
- `StoryLists`: the `StoryList` class, whose `stories` array is a `seq` field
  that `AddStory` reassigns.
- `Users`: the `User` class, whose `favorites` field `AddFavorite` and
  `RemoveFavorite` reassign, and the three ways of building a user from a
  response.
- `Favorites`: `AfterRemoval`, the favorites that the removal loop leaves
  behind, and the lemmas that say which entries it keeps and which it removes.

The source's `addStory`, `addFavorite` and `removeFavorite` change the global
`storyList` and `currentUser` instead of `this`. The one call of `addStory`
(js/stories.js:67) is made on `storyList` and passes `currentUser`. Neither
js/stories.js nor js/nav.js calls `addFavorite` or `removeFavorite`; the model
assumes they are called on `currentUser`. So every mutating operation changes its receiver.

The removal loop (`js/models.js:165-175`) splices a matching entry out and then
advances its index anyway, so the entry that slides into the freed slot is
never compared. `RemoveFavorite` models the loop as written, with the splice,
and is proved equal to `AfterRemoval`. As a result, `[A, A]` becomes `[A]`,
while `[A, B, A]` becomes `[B]`.

Further facts about the code that the model keeps:

- `addStory` appends the new story at the end of the list (js/models.js:95).
- The story list and the favorites change only after the awaited request resolves.
  A rejected request throws out of the `await` before any list is touched.
- `removeFavorite` does not always delete every matching entry, as explained above.

## Model

| member | source | states |
|---|---|---|
| `Stories.MakeStory` | js/models.js:15-22 | the story has exactly the `storyId`, `title`, `author`, `url`, `username` and `createdAt` of its record, unchanged |
| `Stories.MakeStoryKeepsExactlyTheFields` | js/models.js:15-22 | two records give the same story if and only if they agree on those six properties; every other property is dropped |
| `Stories.StoriesFromRecords` | js/models.js:69 | the converted list has the same length as the records, and element i is the story built from record i |
| `Stories.StoriesFromRecordsAppend` | js/models.js:69 | converting one more record at the end appends its story at the end of the converted list |
| `StoryLists.StoryList.constructor` | js/models.js:44-46 | the list holds exactly the given stories |
| `StoryLists.StoryList.GetStories` | js/models.js:56-73 | a successful fetch gives a new list, one story per feed record in feed order; a failed one passes the error on |
| `StoryLists.FetchThenAdd` | js/models.js:93-96 | a feed fetched and then extended by one created story holds the stories of the feed's records followed by the story of the echoed record |
| `StoryLists.StoryList.AddStory` | js/models.js:83-97 | on success, exactly one story is appended at the end: the one built from the service's echoed record (not the draft); earlier entries are unchanged and the appended story is returned; on failure, the error is passed on and the list is unchanged |
| `Users.StoriesOrEmpty` | js/models.js:116-126 | an absent story list becomes the empty list; a present one becomes one story per record, in order |
| `Users.User.constructor` | js/models.js:112-130 | username, name and creation time are copied; `favorites` and `ownStories` are the element-wise conversions of their inputs, or empty when absent; `loginToken` is the token argument |
| `Users.User.AddFavorite` | js/models.js:138-149 | on success, the story is appended at the end of the favorites, so the length grows by one and earlier entries are unchanged; on failure, the error is passed on and the favorites are unchanged; no other field changes |
| `Users.User.RemoveFavorite` | js/models.js:157-176 | on success, the favorites become `AfterRemoval` of the old favorites and the story's id (the loop as written, with the splice); on failure, the error is passed on and the favorites are unchanged; no other field changes |
| `Users.User.Signup` | js/models.js:185-204 | on success, a new user with the response's user record (own stories from `user.stories`) and the token from the response; a failure is passed on |
| `Users.User.Login` | js/models.js:212-231 | on success, a new user with the response's user record (own stories from `user.stories`) and the token from the response; a failure is passed on |
| `Users.User.LoginViaStoredCredentials` | js/models.js:237-261 | the result is null exactly when the call fails; otherwise a new user with the response's user record and the stored token that was passed in |
| `Favorites.AfterRemoval` | js/models.js:165-175 | the loop never lengthens the favorites |
| `Favorites.AfterRemovalIsSubsequence` | js/models.js:165-175 | what the loop leaves is a subsequence of the original favorites |
| `Favorites.AfterRemovalKeepsOthers` | js/models.js:166-172 | the entries whose story id differs from the removed one are exactly those of the original list, in the original order |
| `Favorites.OthersSurviveInOrder` | js/models.js:166-172 | every entry with a different story id is kept, in its original relative order |
| `Favorites.AfterRemovalNoMatch` | js/models.js:165-175 | if no entry has the story id, the favorites are unchanged |
| `Favorites.AfterRemovalSoleMatch` | js/models.js:166-172 | if exactly one entry has the story id, that entry alone is removed and the length drops by one |
| `Favorites.SlidEntryIsKept` | js/models.js:166-172 | after a matching entry is spliced out, the entry that slides into its slot is kept without being compared (an unfolding of `AfterRemoval`'s third case; `RunKeepsHalf` is the general form) |
| `Favorites.DuplicateSurvives` | js/models.js:166-172 | a list holding one story twice keeps one copy: `[A, A]` becomes `[A]` |
| `Favorites.AddThenRemove` | js/models.js:138-176 | adding a story that was not yet a favorite and then removing it restores the original favorites; for a story already among the favorites see the next two rows |
| `Favorites.AddFavoriteAgainThenRemove` | js/models.js:138-176 | for a story already among the favorites the round trip can fail: `[s, b]` plus `s` becomes `[b]` |
| `Favorites.AddFavoriteAgainAfterLastThenRemove` | js/models.js:138-176 | for a story whose only copy among the favorites is the last entry, the round trip restores the favorites: the appended copy slides into the freed slot and stays |
| `Favorites.RunKeepsHalf` | js/models.js:166-172 | of a run of n copies of one story the removal keeps n / 2, since every other copy slides into a freed slot and is never compared |

## Left out

- The HTTP requests, the service's URL and the token and credentials sent with them are not modelled. Each operation receives the decoded response, or the rejection, as an input. For this reason `AddStory` takes the user and the draft, and `Signup` and `Login` take the credentials, without using them.
- `Story.getHostName` (js/models.js:29-35) is not modelled. It delegates to the browser's `URL` class, which is not part of this model.
- Logging calls (`console.debug`, `console.log`, `console.error`) are not modelled.
- The global variables `storyList` and `currentUser` are not modelled. Each mutating operation acts on its receiver, as described above; for `addFavorite` and `removeFavorite` this assumes they are called on `currentUser`, which neither js/stories.js nor js/nav.js shows.
- Concurrency is not modelled. Overlapping awaited calls can interleave their changes to the shared lists; here each operation is one sequential step that runs after its call has settled.
- Responses that do not have the expected shape are not modelled. Examples are a missing `user`, or `null` where a story array is expected; in JavaScript these throw a `TypeError` (which `loginViaStoredCredentials` would also turn into null). Inputs here are well-formed decoded records, and an absent story array of a user record is `None`.
- Object identity is not modelled. `removeFavorite` splices the very array held by the user, and `addFavorite` stores the caller's `Story` object itself. Here stories are values and the favorites a sequence that is reassigned, which leaves the same final contents.
- js/stories.js and js/nav.js (rendering, form handling and navigation) are not part of this model.
