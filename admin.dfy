/** The dashboard: the list of posts, the publish toggle and deletion. */
module Admin {
  import opened Wrappers
  import opened Posts

  /** A row of the dashboard's list. */
  datatype Summary = Summary(id: Id, title: string, published: bool)

  function Summarize(id: Id, p: Post): Summary {
    Summary(id, p.title, p.published)
  }

  /** The ids of a list of rows, in the rows' order. */
  function Ids(rows: seq<Summary>): seq<Id> {
    seq(|rows|, i requires 0 <= i < |rows| => rows[i].id)
  }

  /** `xs` is `ys` with some entries left out: the entries of `xs` occur in `ys` in the same order. */
  predicate IsSubsequence(xs: seq<Id>, ys: seq<Id>)
    decreases |ys|
  {
    xs == [] ||
    (ys != [] && ((xs[0] == ys[0] && IsSubsequence(xs[1..], ys[1..])) || IsSubsequence(xs, ys[1..])))
  }

  predicate Distinct(order: seq<Id>) {
    forall i, j :: 0 <= i < j < |order| ==> order[i] != order[j]
  }

  /** `order` is an answer of the posts query: every stored id, each exactly once. */
  predicate Enumerates(order: seq<Id>, posts: map<Id, Post>) {
    && Distinct(order)
    && (forall i :: 0 <= i < |order| ==> order[i] in posts)
    && (forall id :: id in posts ==> id in order)
  }

  /**
   * The rows `fetchPosts` receives: the stored posts in the order the store
   * sorts them by creation date, which is the parameter `order`.
   */
  function Listing(posts: map<Id, Post>, order: seq<Id>): (rows: seq<Summary>)
    ensures |rows| <= |order|
    ensures forall i :: 0 <= i < |rows| ==> rows[i].id in posts && rows[i] == Summarize(rows[i].id, posts[rows[i].id])
    ensures forall id :: id in order && id in posts ==> Summarize(id, posts[id]) in rows
    ensures IsSubsequence(Ids(rows), order)
    ensures (forall i :: 0 <= i < |order| ==> order[i] in posts) ==>
      |rows| == |order| && forall i :: 0 <= i < |rows| ==> rows[i] == Summarize(order[i], posts[order[i]])
  {
    if order == [] then []
    else
      var rest := Listing(posts, order[1..]);
      if order[0] in posts then
        var rows := [Summarize(order[0], posts[order[0]])] + rest;
        assert Ids(rows)[1..] == Ids(rest);
        rows
      else rest
  }

  /** When `order` answers the posts query, the listing shows every stored post exactly once. */
  lemma ListsEveryPostOnce(posts: map<Id, Post>, order: seq<Id>)
    requires Enumerates(order, posts)
    ensures var rows := Listing(posts, order);
      && (forall id :: id in posts ==> Summarize(id, posts[id]) in rows)
      && (forall i, j :: 0 <= i < j < |rows| ==> rows[i].id != rows[j].id)
  {
  }

  /**
   * The update `togglePublish(id, currentStatus)` sends: only the flag and
   * the date, the date set to `now` when publishing and to `null` otherwise.
   */
  function TogglePatch(currentStatus: bool, now: Time): (u: Patch)
    ensures u.title.Keep? && u.excerpt.Keep? && u.content.Keep?
    ensures u.published == Write(!currentStatus)
    ensures u.publishedAt.Write? && (u.publishedAt.value.Some? <==> !currentStatus)
    ensures !currentStatus ==> u.publishedAt.value == Some(now)
  {
    Patch(Keep, Keep, Keep, Write(!currentStatus), Write(if !currentStatus then Some(now) else None))
  }

  /**
   * A toggle flips the flag it was given and leaves the post obeying the
   * dating rule, whatever the post held before.
   */
  lemma ToggleDates(p: Post, currentStatus: bool, now: Time)
    ensures var r := Apply(p, TogglePatch(currentStatus, now));
      && r.published == !currentStatus && DatedIffPublished(r)
      && (r.published ==> r.publishedAt == Some(now))
      && r.title == p.title && r.excerpt == p.excerpt && r.content == p.content
      && r.authorId == p.authorId
  {
  }

  /** Toggling twice from the row's flag gives the flag back. */
  lemma ToggleTwice(p: Post, now1: Time, now2: Time)
    ensures var once := Apply(p, TogglePatch(p.published, now1));
      Apply(once, TogglePatch(once.published, now2)).published == p.published
  {
  }

  /** The row's status badge. */
  function StatusLabel(published: bool): (s: string)
    ensures s == "Published" <==> published
    ensures s == "Draft" <==> !published
  {
    if published then "Published" else "Draft"
  }

  /** The row's toggle button. */
  function ToggleLabel(published: bool): (s: string)
    ensures s == "Unpublish" <==> published
    ensures s == "Publish" <==> !published
  {
    if published then "Unpublish" else "Publish"
  }

  /** The status label names the row's state and the button the opposite action. */
  lemma LabelsAgree(published: bool)
    ensures StatusLabel(published) == (if published then "Published" else "Draft")
    ensures ToggleLabel(published) == (if published then "Unpublish" else "Publish")
    ensures StatusLabel(published) == "Draft" <==> ToggleLabel(published) == "Publish"
  {
  }

  datatype DeleteOutcome = NotConfirmed | DeleteFailed | Deleted
  datatype ToggleOutcome = ToggleFailed | Toggled(toast: string)

  class Dashboard {
    var posts: seq<Summary>
    var loading: bool
    /** How many times the list was fetched. */
    ghost var fetches: nat

    constructor ()
      ensures posts == [] && loading && fetches == 0
    {
      posts := [];
      loading := true;
      fetches := 0;
    }

    /** `fetchPosts`; `ok` is whether the query succeeds. */
    method FetchPosts(db: Store, order: seq<Id>, ok: bool)
      requires Enumerates(order, db.posts)
      modifies this
      ensures posts == if ok then Listing(db.posts, order) else old(posts)
      ensures ok ==> |posts| == |order| && forall i :: 0 <= i < |posts| ==> posts[i] == Summarize(order[i], db.posts[order[i]])
      ensures !loading && fetches == old(fetches) + 1
    {
      if ok {
        posts := Listing(db.posts, order);
      }
      loading := false;
      fetches := fetches + 1;
    }

    /**
     * `handleDelete(id)`: `confirmed` is the answer to the confirmation,
     * `ok` whether the delete succeeds, `order` and `refetchOk` describe the
     * refetch that follows a successful delete.
     */
    method HandleDelete(db: Store, id: Id, confirmed: bool, ok: bool, order: seq<Id>, refetchOk: bool)
      returns (outcome: DeleteOutcome)
      requires Enumerates(order, db.posts - {id})
      modifies this, db
      ensures outcome == NotConfirmed <==> !confirmed
      ensures outcome == Deleted <==> confirmed && ok
      ensures outcome != Deleted ==> unchanged(this) && unchanged(db)
      ensures outcome == Deleted ==>
        && db.posts == old(db.posts) - {id}
        && fetches == old(fetches) + 1 && !loading
        && posts == (if refetchOk then Listing(db.posts, order) else old(posts))
    {
      if !confirmed {
        return NotConfirmed;
      }
      var success := db.Delete(id, ok);
      if !success {
        outcome := DeleteFailed;
      } else {
        outcome := Deleted;
        FetchPosts(db, order, refetchOk);
      }
    }

    /** `togglePublish(id, currentStatus)`, with the same parameters as HandleDelete. */
    method TogglePublish(db: Store, id: Id, currentStatus: bool, ok: bool, now: Time,
                         order: seq<Id>, refetchOk: bool)
      returns (outcome: ToggleOutcome)
      requires Enumerates(order, db.posts)
      modifies this, db
      ensures outcome.Toggled? <==> ok
      ensures db.posts == if ok && id in old(db.posts)
        then old(db.posts)[id := Apply(old(db.posts)[id], TogglePatch(currentStatus, now))]
        else old(db.posts)
      ensures !ok ==> unchanged(this)
      ensures ok ==>
        && outcome.toast == (if currentStatus then "Post unpublished" else "Post published")
        && fetches == old(fetches) + 1 && !loading
        && posts == (if refetchOk then Listing(db.posts, order) else old(posts))
    {
      var success := db.Update(id, TogglePatch(currentStatus, now), ok);
      if !success {
        outcome := ToggleFailed;
      } else {
        outcome := Toggled(if currentStatus then "Post unpublished" else "Post published");
        FetchPosts(db, order, refetchOk);
      }
    }
  }

  /** After a successful delete and refetch, the deleted post is not listed. */
  lemma DeletedNotListed(posts: map<Id, Post>, id: Id, order: seq<Id>)
    ensures forall i :: 0 <= i < |Listing(posts - {id}, order)| ==> Listing(posts - {id}, order)[i].id != id
  {
  }
}
