/**
 * Post records as the pages read and write them, the partial updates the
 * pages send, and the hosted store reduced to a map from id to post. Whether
 * the store answers a call with an error is a parameter of each call.
 */
module Posts {
  import opened Wrappers

  type Id = string
  /** An ISO timestamp; the pages read the clock, the model takes it as a parameter. */
  type Time = string

  datatype Post = Post(
    authorId: Id,
    title: string,
    excerpt: string,
    content: string,
    published: bool,
    publishedAt: Option<Time>)

  /** The rule that a post carries a publication date exactly when it is published. */
  predicate DatedIffPublished(p: Post) {
    p.publishedAt.Some? <==> p.published
  }

  /** Create and edit-save both refuse an empty title or empty content. */
  predicate Incomplete(title: string, content: string) {
    title == "" || content == ""
  }

  /** One field of an update payload: `Keep` is a key left out or set to `undefined`. */
  datatype Field<T> = Keep | Write(value: T)

  function Put<T>(f: Field<T>, current: T): T {
    match f
    case Keep => current
    case Write(v) => v
  }

  /** An update payload; `publishedAt := Write(None)` is an explicit `null`. */
  datatype Patch = Patch(
    title: Field<string>,
    excerpt: Field<string>,
    content: Field<string>,
    published: Field<bool>,
    publishedAt: Field<Option<Time>>)

  /** The row after an update: written keys take the new value, kept keys stay. */
  function Apply(p: Post, u: Patch): (r: Post)
    ensures r.authorId == p.authorId
    ensures r.title == (if u.title.Write? then u.title.value else p.title)
    ensures r.excerpt == (if u.excerpt.Write? then u.excerpt.value else p.excerpt)
    ensures r.content == (if u.content.Write? then u.content.value else p.content)
    ensures r.published == (if u.published.Write? then u.published.value else p.published)
    ensures r.publishedAt == (if u.publishedAt.Write? then u.publishedAt.value else p.publishedAt)
  {
    p.(title := Put(u.title, p.title),
       excerpt := Put(u.excerpt, p.excerpt),
       content := Put(u.content, p.content),
       published := Put(u.published, p.published),
       publishedAt := Put(u.publishedAt, p.publishedAt))
  }

  /** The `posts` table. */
  class Store {
    var posts: map<Id, Post>

    constructor (initial: map<Id, Post>)
      ensures posts == initial
    {
      posts := initial;
    }

    /** An insert; an id already taken is refused as a duplicate key. */
    method Insert(id: Id, p: Post, ok: bool) returns (success: bool)
      modifies this
      ensures success == (ok && id !in old(posts))
      ensures posts == if success then old(posts)[id := p] else old(posts)
      ensures !success ==> unchanged(this)
    {
      success := ok && id !in posts;
      if success {
        posts := posts[id := p];
      }
    }

    /** `update(u).eq("id", id)`: a missing id matches no row and is not an error. */
    method Update(id: Id, u: Patch, ok: bool) returns (success: bool)
      modifies this
      ensures success == ok
      ensures posts == if ok && id in old(posts)
        then old(posts)[id := Apply(old(posts)[id], u)] else old(posts)
      ensures !(ok && id in old(posts)) ==> unchanged(this)
    {
      success := ok;
      if ok && id in posts {
        posts := posts[id := Apply(posts[id], u)];
      }
    }

    /** `delete().eq("id", id)`. */
    method Delete(id: Id, ok: bool) returns (success: bool)
      modifies this
      ensures success == ok
      ensures posts == if ok then old(posts) - {id} else old(posts)
      ensures !ok ==> unchanged(this)
    {
      success := ok;
      if ok {
        posts := posts - {id};
      }
    }
  }
}
