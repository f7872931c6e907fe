/**
 The records shared by the store, the gateway and the form: a post as the
 server and the store hold it, the form's payload, and a browser file as far
 as validation and upload look at it.
 */
module Types {

  /** `T | null` in the source. */
  datatype Option<+T> = None | Some(value: T)

  /** A publication record (`PostModel`). Ids are JavaScript numbers; only
      integral ids occur, so they are modelled as `int`. */
  datatype Post = Post(id: int, title: string, body: string, userId: int)

  /** A browser `File`, reduced to the three attributes the core reads. */
  datatype File = File(name: string, mediaType: string, size: nat)

  /** What the form hands to the store (`FormPostModel`); `files` is optional. */
  datatype FormPost = FormPost(title: string, body: string, files: Option<seq<File>>)

  /** The list of ids of `posts`, in order. */
  function Ids(posts: seq<Post>): (ids: seq<int>)
    ensures |ids| == |posts|
    ensures forall i :: 0 <= i < |posts| ==> ids[i] == posts[i].id
  {
    seq(|posts|, i requires 0 <= i < |posts| => posts[i].id)
  }

  /** No two records of `posts` share an id. */
  predicate UniqueIds(posts: seq<Post>)
  {
    forall i, j :: 0 <= i < j < |posts| ==> posts[i].id != posts[j].id
  }
}
