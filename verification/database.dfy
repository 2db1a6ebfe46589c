/**
 * The three collections the handlers touch (users, profiles, posts) and the
 * handlers that work on the collections rather than on one post: saving a
 * profile, deleting an account and deleting a post. The collections are
 * keyed maps; a profile is filed under the id of the user it belongs to.
 */
module Database {
  import opened Api
  import Posts
  import Profiles

  type PostId = string

  /** A user record. */
  datatype User = User(name: string, email: string, avatar: string)

  class Db {
    var users: map<UserId, User>
    var profiles: map<UserId, Profiles.Document>
    var posts: map<PostId, Posts.Post>

    /** At most one profile per user: each one is filed under the user its `user` field names. */
    ghost predicate Valid()
      reads this
    {
      Profiles.IndexedByUser(profiles)
    }

    constructor ()
      ensures Valid() && users == map[] && profiles == map[] && posts == map[]
    {
      users, profiles, posts := map[], map[], map[];
    }

    /**
     * POST /api/profile. A body without `status` or `skills` is refused with
     * 400 and the messages, and nothing changes. Otherwise the requester's
     * profile gets the fields built from the body, `$set` onto the existing
     * one or created afresh; the stored profile is returned.
     */
    method SaveProfile(requester: UserId, body: Profiles.Body)
      returns (status: Status, errors: seq<string>, profile: Profiles.Document)
      requires Valid()
      modifies this`profiles
      ensures Valid()
      ensures errors == Profiles.ValidationErrors(body)
      ensures status == (if errors == [] then Ok else BadRequest)
      ensures status == BadRequest ==> profiles == old(profiles)
      ensures status == Ok ==>
        && profiles == Profiles.Upsert(old(profiles), requester, Profiles.ProfileFieldsOf(requester, body))
        && profile == profiles[requester]
    {
      errors := Profiles.ValidationErrors(body);
      if errors != [] {
        return BadRequest, errors, map[];
      }
      var fields := Profiles.BuildProfileFields(requester, body);
      if requester in profiles {
        profile := profiles[requester] + fields;
      } else {
        profile := fields;
      }
      Profiles.UpsertKeepsIndexed(profiles, requester, body);
      profiles := profiles[requester := profile];
      status := Ok;
    }

    /**
     * DELETE /api/profile. Removes the requester's profile and user record,
     * whether or not they exist, and answers 200. The requester's posts stay.
     */
    method DeleteAccount(requester: UserId) returns (status: Status)
      requires Valid()
      modifies this`profiles, this`users
      ensures Valid()
      ensures status == Ok
      ensures profiles == old(profiles) - {requester} && users == old(users) - {requester}
      ensures posts == old(posts)
    {
      profiles := profiles - {requester};
      users := users - {requester};
      status := Ok;
    }

    /**
     * DELETE /api/posts/:id. 404 when there is no such post, 401 when the
     * requester did not write it; otherwise the post is removed.
     */
    method DeletePost(requester: UserId, id: PostId) returns (status: Status)
      requires Valid()
      modifies this`posts
      ensures Valid()
      ensures status == NotFound <==> id !in old(posts)
      ensures status == Unauthorized <==> id in old(posts) && old(posts)[id].user != requester
      ensures status == Ok <==> id in old(posts) && old(posts)[id].user == requester
      ensures posts == if status == Ok then old(posts) - {id} else old(posts)
    {
      if id !in posts {
        return NotFound;
      }
      if posts[id].user != requester {
        return Unauthorized;
      }
      posts := posts - {id};
      status := Ok;
    }
  }
}
