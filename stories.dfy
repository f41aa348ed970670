/** A single story of the feed and its construction from a service record. */
module Stories {
  import opened Api

  /** A story as the client holds it. It is never changed after construction. */
  datatype Story = Story(
    storyId: string,
    title: string,
    author: string,
    url: string,
    username: string,
    createdAt: string)

  /** True when two records agree on the six properties a story keeps. */
  predicate SameStoryFields(a: StoryRecord, b: StoryRecord)
  {
    a.storyId == b.storyId && a.title == b.title && a.author == b.author &&
    a.url == b.url && a.username == b.username && a.createdAt == b.createdAt
  }

  /**
   * The story built from a record: it copies the six properties it knows
   * and drops every other property of the record.
   */
  function MakeStory(rec: StoryRecord): (s: Story)
    ensures s.storyId == rec.storyId && s.title == rec.title && s.author == rec.author
    ensures s.url == rec.url && s.username == rec.username && s.createdAt == rec.createdAt
  {
    Story(rec.storyId, rec.title, rec.author, rec.url, rec.username, rec.createdAt)
  }

  /** Two records give the same story exactly when they agree on the six kept properties. */
  lemma MakeStoryKeepsExactlyTheFields(a: StoryRecord, b: StoryRecord)
    ensures MakeStory(a) == MakeStory(b) <==> SameStoryFields(a, b)
  {
  }

  /** The stories built from a sequence of records, one per record and in the same order. */
  function StoriesFromRecords(recs: seq<StoryRecord>): (r: seq<Story>)
    ensures |r| == |recs|
    ensures forall i :: 0 <= i < |recs| ==> r[i] == MakeStory(recs[i])
  {
    if recs == [] then [] else [MakeStory(recs[0])] + StoriesFromRecords(recs[1..])
  }

  /** Converting one more record at the end adds its story at the end of the conversion. */
  lemma StoriesFromRecordsAppend(recs: seq<StoryRecord>, rec: StoryRecord)
    ensures StoriesFromRecords(recs + [rec]) == StoriesFromRecords(recs) + [MakeStory(rec)]
  {
  }
}
