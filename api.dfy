/**
 The remote post gateway with HTTP taken out: each operation is split into
 the request it sends and the mapping of the server's answer to the value it
 returns. The server's answer and the clock (`Date.now()`) are parameters.
 */
module Api {
  import opened Types

  datatype HttpMethod = GET | POST | PUT | DELETE

  /** `/posts` or `/posts/{id}`. */
  datatype Endpoint = Posts | PostById(id: int)

  /** The JSON body sent with a create or an update. */
  datatype Payload = Payload(title: string, body: string, userId: int)

  datatype Request = Request(verb: HttpMethod, endpoint: Endpoint, payload: Option<Payload>)

  /** The author id every write carries. */
  const FixedUserId: int := 1

  /** `getPost` sends `GET /posts` and returns the response body as is. */
  function ListRequest(): (r: Request)
    ensures r.verb == GET && r.endpoint == Posts && r.payload == None
  {
    Request(GET, Posts, None)
  }

  /** `createPost` sends the title and body under user 1 to `/posts`. */
  function CreateRequest(data: FormPost): (r: Request)
    ensures r.verb == POST && r.endpoint == Posts
    ensures r.payload == Some(Payload(data.title, data.body, 1))
  {
    Request(POST, Posts, Some(Payload(data.title, data.body, FixedUserId)))
  }

  /** `createPost`'s result: the server's record with its id replaced by the
      clock reading. */
  function CreateResult(response: Post, now: int): (r: Post)
    ensures r.id == now
    ensures r.(id := response.id) == response
  {
    response.(id := now)
  }

  /** `updatePost` sends the title and body under user 1 to `/posts/{id}`. */
  function UpdateRequest(id: int, data: FormPost): (r: Request)
    ensures r.verb == PUT && r.endpoint == PostById(id)
    ensures r.payload == Some(Payload(data.title, data.body, 1))
  {
    Request(PUT, PostById(id), Some(Payload(data.title, data.body, FixedUserId)))
  }

  /** `updatePost`'s result: the server's record with its id forced back to
      the requested one. */
  function UpdateResult(id: int, response: Post): (r: Post)
    ensures r.id == id
    ensures r.(id := response.id) == response
  {
    response.(id := id)
  }

  /** `deletePost` sends `DELETE /posts/{id}` and returns nothing. */
  function DeleteRequest(id: int): (r: Request)
    ensures r.verb == DELETE && r.endpoint == PostById(id) && r.payload == None
  {
    Request(DELETE, PostById(id), None)
  }

  /** Attachments never reach the server: two form payloads with the same
      title and body produce the same create and update requests. */
  lemma FilesNotSent(a: FormPost, b: FormPost, id: int)
    requires a.title == b.title && a.body == b.body
    ensures CreateRequest(a) == CreateRequest(b)
    ensures UpdateRequest(id, a) == UpdateRequest(id, b)
  {
  }

  /** The id the server assigns on create or echoes on update is discarded:
      answers that differ only in their id give the same result. */
  lemma ServerIdIgnored(r1: Post, r2: Post, id: int, now: int)
    requires r1.(id := 0) == r2.(id := 0)
    ensures CreateResult(r1, now) == CreateResult(r2, now)
    ensures UpdateResult(id, r1) == UpdateResult(id, r2)
  {
  }
}
