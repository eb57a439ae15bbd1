/** The new-story page: validating the form and inserting the post. */
module NewPost {
  import opened Wrappers
  import opened Posts

  datatype SaveOutcome =
    | MissingFields   // title or content empty; nothing sent
    | NotSignedIn     // no authenticated user; nothing inserted
    | SaveFailed      // the insert came back with an error
    | Saved           // inserted; the page moves to the dashboard

  /** The record the page inserts. */
  function NewRecord(authorId: Id, title: string, excerpt: string, content: string,
                     publish: bool, now: Time): (p: Post)
    ensures DatedIffPublished(p)
    ensures p.published == publish && (publish ==> p.publishedAt == Some(now))
    ensures p.authorId == authorId && p.title == title && p.excerpt == excerpt && p.content == content
  {
    Post(authorId, title, excerpt, content, publish, if publish then Some(now) else None)
  }

  class Page {
    var title: string
    var excerpt: string
    var content: string
    var loading: bool
    /** Where the router was sent, if anywhere. */
    var location: Option<string>

    constructor ()
      ensures title == "" && excerpt == "" && content == "" && !loading && location == None
    {
      title, excerpt, content := "", "", "";
      loading := false;
      location := None;
    }

    method SetFields(title: string, excerpt: string, content: string)
      modifies this`title, this`excerpt, this`content
      ensures this.title == title && this.excerpt == excerpt && this.content == content
    {
      this.title, this.excerpt, this.content := title, excerpt, content;
    }

    /**
     * `handleSave(publish)`. `user` is what `getUser` answers, `newId` the id
     * the store gives the row and `ok` whether the insert succeeds. Both save
     * buttons are disabled while the page is loading.
     */
    method HandleSave(db: Store, publish: bool, user: Option<Id>, newId: Id, ok: bool, now: Time)
      returns (outcome: SaveOutcome)
      requires !loading
      modifies this, db
      ensures title == old(title) && excerpt == old(excerpt) && content == old(content)
      ensures outcome == MissingFields <==> Incomplete(title, content)
      ensures outcome == MissingFields ==> unchanged(this) && unchanged(db)
      ensures outcome != MissingFields ==> !loading
      ensures outcome == NotSignedIn <==> !Incomplete(title, content) && user.None?
      ensures outcome == Saved <==>
        !Incomplete(title, content) && user.Some? && ok && newId !in old(db.posts)
      ensures db.posts == if outcome == Saved
        then old(db.posts)[newId := NewRecord(user.value, title, excerpt, content, publish, now)]
        else old(db.posts)
      ensures location == if outcome == Saved then Some("/admin") else old(location)
    {
      if title == "" || content == "" {
        return MissingFields;
      }
      loading := true;
      if user.None? {
        loading := false;
        return NotSignedIn;
      }
      var record := NewRecord(user.value, title, excerpt, content, publish, now);
      var success := db.Insert(newId, record, ok);
      loading := false;
      if !success {
        outcome := SaveFailed;
      } else {
        outcome := Saved;
        location := Some("/admin");
      }
    }
  }
}
