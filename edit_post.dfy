/** The edit page: loading a post into the form and saving it back. */
module EditPost {
  import opened Wrappers
  import opened Posts
  import Admin

  datatype SaveOutcome =
    | MissingFields   // title or content empty; nothing sent
    | SaveFailed      // the update came back with an error
    | Saved           // updated; the page moves to the dashboard

  /**
   * The update `handleSave(shouldPublish)` sends. `wasPublished` is the
   * published flag the page loaded. The date is written only when a draft
   * becomes published; otherwise the key is `undefined` and left alone.
   */
  function EditPatch(title: string, excerpt: string, content: string,
                     shouldPublish: bool, wasPublished: bool, now: Time): (u: Patch)
    ensures u.title == Write(title) && u.excerpt == Write(excerpt) && u.content == Write(content)
    ensures u.published == Write(shouldPublish)
    ensures u.publishedAt.Write? <==> shouldPublish && !wasPublished
    ensures u.publishedAt.Write? ==> u.publishedAt.value == Some(now)
  {
    Patch(Write(title), Write(excerpt), Write(content), Write(shouldPublish),
          if shouldPublish && !wasPublished then Write(Some(now)) else Keep)
  }

  /** What a save does to the stored post. */
  lemma EditSaveEffect(p: Post, title: string, excerpt: string, content: string,
                       shouldPublish: bool, wasPublished: bool, now: Time)
    ensures var r := Apply(p, EditPatch(title, excerpt, content, shouldPublish, wasPublished, now));
      && r.authorId == p.authorId
      && r.title == title && r.excerpt == excerpt && r.content == content
      && r.published == shouldPublish
      && r.publishedAt == if shouldPublish && !wasPublished then Some(now) else p.publishedAt
  {
  }

  /** Saving a published post as a draft unpublishes it but keeps its date. */
  lemma DraftKeepsDate(p: Post, title: string, excerpt: string, content: string, now: Time)
    requires p.published && p.publishedAt.Some?
    ensures var r := Apply(p, EditPatch(title, excerpt, content, false, p.published, now));
      !r.published && r.publishedAt == p.publishedAt && !DatedIffPublished(r)
  {
  }

  /** Saving a published post as published keeps its original date. */
  lemma RepublishKeepsDate(p: Post, title: string, excerpt: string, content: string, now: Time)
    requires p.published
    ensures var r := Apply(p, EditPatch(title, excerpt, content, true, p.published, now));
      r.published && r.publishedAt == p.publishedAt
  {
  }

  /**
   * For a post that obeys the dating rule and whose flag the page loaded,
   * a save keeps the rule exactly unless it unpublishes the post.
   */
  lemma SaveKeepsDatingIff(p: Post, title: string, excerpt: string, content: string,
                           shouldPublish: bool, now: Time)
    requires DatedIffPublished(p)
    ensures DatedIffPublished(Apply(p, EditPatch(title, excerpt, content, shouldPublish, p.published, now)))
      <==> !(p.published && !shouldPublish)
  {
  }

  /**
   * The loaded flag can be stale: if the dashboard unpublishes the post after
   * the page loaded it as published, saving it as published sends no date, and
   * the post ends up published without a publication date.
   */
  lemma StaleFlagDropsDate(p: Post, title: string, excerpt: string, content: string,
                           toggledAt: Time, now: Time)
    requires p.published
    ensures var unpublished := Apply(p, Admin.TogglePatch(true, toggledAt));
      var r := Apply(unpublished, EditPatch(title, excerpt, content, true, p.published, now));
      && !unpublished.published && DatedIffPublished(unpublished)
      && r.published && r.publishedAt.None? && !DatedIffPublished(r)
  {
  }

  class Page {
    const id: Id
    var title: string
    var excerpt: string
    var content: string
    var published: bool
    var loading: bool
    var saving: bool
    var location: Option<string>

    constructor (id: Id)
      ensures this.id == id && title == "" && excerpt == "" && content == ""
      ensures !published && loading && !saving && location == None
    {
      this.id := id;
      title, excerpt, content := "", "", "";
      published := false;
      loading := true;
      saving := false;
      location := None;
    }

    /** `fetchPost`: fills the form from the stored post; `ok` is whether the query succeeds. */
    method Load(db: Store, ok: bool)
      modifies this
      ensures !loading && saving == old(saving) && location == old(location)
      ensures ok && id in db.posts ==>
        && title == db.posts[id].title && excerpt == db.posts[id].excerpt
        && content == db.posts[id].content && published == db.posts[id].published
      ensures !(ok && id in db.posts) ==>
        title == old(title) && excerpt == old(excerpt) && content == old(content) && published == old(published)
    {
      if ok && id in db.posts {
        var p := db.posts[id];
        title, excerpt, content, published := p.title, p.excerpt, p.content, p.published;
      }
      loading := false;
    }

    method SetFields(title: string, excerpt: string, content: string)
      modifies this`title, this`excerpt, this`content
      ensures this.title == title && this.excerpt == excerpt && this.content == content
    {
      this.title, this.excerpt, this.content := title, excerpt, content;
    }

    /**
     * `handleSave(shouldPublish)`; `ok` is whether the update succeeds. Both
     * save buttons are disabled while a save is in flight.
     */
    method HandleSave(db: Store, shouldPublish: bool, ok: bool, now: Time) returns (outcome: SaveOutcome)
      requires !saving
      modifies this`saving, this`location, db
      ensures outcome == MissingFields <==> Incomplete(title, content)
      ensures outcome == MissingFields ==> unchanged(this) && unchanged(db)
      ensures outcome != MissingFields ==> !saving
      ensures outcome == Saved <==> !Incomplete(title, content) && ok
      ensures db.posts == if outcome == Saved && id in old(db.posts)
        then old(db.posts)[id := Apply(old(db.posts)[id],
               EditPatch(title, excerpt, content, shouldPublish, published, now))]
        else old(db.posts)
      ensures location == if outcome == Saved then Some("/admin") else old(location)
    {
      if title == "" || content == "" {
        return MissingFields;
      }
      saving := true;
      var success := db.Update(id, EditPatch(title, excerpt, content, shouldPublish, published, now), ok);
      saving := false;
      if !success {
        outcome := SaveFailed;
      } else {
        outcome := Saved;
        location := Some("/admin");
      }
    }
  }
}
