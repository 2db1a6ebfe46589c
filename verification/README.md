# DevConnector post and profile handlers in Dafny

A model of the list and record logic inside two Express route files of the
DevConnector social network: the post routes (like, unlike, comment, delete a
comment, delete a post) and the profile routes (validate the body, build
`profileFields` with its `social` object and parsed `skills`, upsert the
profile, delete the account). HTTP, the auth middleware and the Mongoose
persistence calls are replaced by plain values: the requester's id is a
parameter, each handler returns a `Status` named after the HTTP code it sends,
and each collection is a keyed map.

Files:

- `api.dfy` — `UserId` and `Status` (200, 400, 401, 404).
- `text.dfy` — the JavaScript string primitives the profile handler uses:
  `split` on one character (with `join` as its inverse) and `trim`.
- `posts.dfy` — `class Post` with `likes` and `comments` as sequences that its
  methods reassign, the pure `filter`/`map`/`indexOf` checks, and lemmas about
  like and unlike.
- `profile.dfy` — validation, the `profileFields` builder, the skills parser
  and the create-or-`$set` upsert as a function on the profile map.
- `database.dfy` — `class Db` holding the users, profiles and posts
  collections, with the profile save, account delete and post delete handlers.

Where the code and its comments disagree, the model follows the code: the
comment above the delete-comment route says only the comment's author may
delete it, but the code also lets the post's author delete any comment on the
post, and `Posts.Post.DeleteComment` states that.

## Model

| member | source | states |
|---|---|---|
| `Posts.IndexOf` | routes/api/posts.js:171 | `indexOf`: -1 exactly when the value is absent, otherwise the position of its first occurrence |
| `Posts.RemoveAt` | routes/api/posts.js:172 | `splice(i, 1)`: one entry shorter, entries before `i` unchanged, entries after `i` shifted down by one |
| `Posts.LikesBy` | routes/api/posts.js:135 | `likes.filter(like => like.user === u)`: no longer than the likes, every entry it keeps is a like by `u`, and it is non-empty exactly when `u` is among the likers, the `.length > 0` / `=== 0` tests of both like handlers |
| `Posts.Post.AddLike` | routes/api/posts.js:135-143 | 400 with `likes` unchanged when the requester already likes the post; otherwise 200 and `likes` becomes the requester's like followed by the old list; unique likers stay unique |
| `Posts.LikeKeepsUnique` | routes/api/posts.js:135-143 | a successful like keeps at most one like per user |
| `Posts.Post.RemoveLike` | routes/api/posts.js:164-172 | 400 with `likes` unchanged when the requester does not like the post; otherwise 200 and the requester's first like is spliced out; with unique likers, no like by the requester remains |
| `Posts.Unliked` | routes/api/posts.js:170-172 | the likes after the `indexOf`/`splice`: unchanged when the user has no like, otherwise exactly the first like by the user is removed and all other likes keep their order |
| `Posts.LikeThenUnlike` | routes/api/posts.js:141-172 | a successful like followed by an unlike by the same user restores the original likes |
| `Posts.UnlikeClearsLiker` | routes/api/posts.js:164-172 | with unique likers, an unlike leaves the likers unique and the requester no longer liking |
| `Posts.Post.AddComment` | routes/api/posts.js:189-209 | 400 with nothing changed for empty text; otherwise the comment carrying the requester's id, name and avatar is put in front of the unchanged old comments |
| `Posts.Post.DeleteComment` | routes/api/posts.js:231-258 | 404 and no change when no comment has the id; otherwise the first comment with that id is removed (200) when the requester wrote the post or the comment, and 401 with no change when neither |
| `Posts.CommentDeletionWiderThanDocumented` | routes/api/posts.js:224-252 | the code's deletion rule allows everything the route's comment allows (the comment's author deletes it), and strictly more: there is a post author who may delete a comment someone else wrote |
| `Database.Db.DeletePost` | routes/api/posts.js:93-123 | 404 when the post does not exist, 401 with the post kept when the requester is not its author, otherwise 200 and only that post is removed |
| `Text.TrimStart` | routes/api/profile.js:80 | removes exactly the leading whitespace: the result is a suffix that does not start with whitespace |
| `Text.TrimEnd` | routes/api/profile.js:80 | removes exactly the trailing whitespace: the result is a prefix that does not end with whitespace |
| `Text.Trim` | routes/api/profile.js:80 | the result has no whitespace at either end, and the input is the result padded with whitespace only |
| `Text.Split` | routes/api/profile.js:80 | one piece more than there are separators, and no piece contains the separator |
| `Text.JoinSplit` | routes/api/profile.js:80 | joining the split pieces with the separator gives back the original string |
| `Profiles.ParseSkills` | routes/api/profile.js:79-81 | the parsed skills number the commas plus one, each is trimmed, holds no comma, and is its comma-separated piece without surrounding whitespace |
| `Profiles.ValidationErrors` | routes/api/profile.js:43-53 | no error exactly when both `status` and `skills` are non-empty; exactly one message per missing field, the `status` message first |
| `Profiles.ScalarCopies` | routes/api/profile.js:72-78 | the six conditional copies in order give exactly the truthy plain fields with their values, plus `user` |
| `Profiles.BuildSocial` | routes/api/profile.js:83-89 | the `social` object equals the truthy links among youtube, twitter, facebook, linkedin and xing |
| `Profiles.BuildProfileFields` | routes/api/profile.js:71-89 | the object built field by field equals the `profileFields` specification |
| `Profiles.ProfileFieldsFacts` | routes/api/profile.js:71-89 | `user` is the requester; a plain field is present exactly when truthy and then equals the body's value; `skills` likewise, parsed; `social` is always present and holds `SocialOf` of the body; no other keys |
| `Profiles.SocialFacts` | routes/api/profile.js:64-89 | `social` holds exactly the truthy keys among the five links, with the body's values, and never `instagram` |
| `Profiles.ValidBodyHasStatusAndSkills` | routes/api/profile.js:43-81 | a body that passes validation always yields `status` and `skills` in `profileFields` |
| `Profiles.Upsert` | routes/api/profile.js:92-111 | an existing profile has exactly the keys of `profileFields` overwritten and keeps the rest; a missing one is created equal to `profileFields`; no other user's profile changes |
| `Profiles.UpsertKeepsIndexed` | routes/api/profile.js:92-111 | after an upsert every profile is still filed under the user its `user` field names, so there is at most one per user |
| `Database.Db.SaveProfile` | routes/api/profile.js:39-119 | 400 with the validation messages and no change when `status` or `skills` is empty; otherwise 200, the store becomes the upsert of the built fields and the stored profile is returned; at most one profile per user |
| `Database.Db.DeleteAccount` | routes/api/profile.js:167-195 | removes the requester's profile and user record and no other user's, leaves every post in place, and answers 200 |

## Left out

- HTTP, the auth middleware and Mongoose calls (`findById`, `findOne`, `findOneAndUpdate`, `save`, `remove`): the requester's id is a parameter and each collection is a map held by `Database.Db`.
- The 500 paths: a missing post in like, unlike and comment (the handlers dereference `null`) and the generic catch blocks. A malformed post id in DELETE /api/posts/:id, which the handler answers with 404, is covered by `Database.Db.DeletePost` because such an id is never a key of the posts collection.
- The un-awaited `post.save()` calls after adding and deleting a comment: the in-memory change is modelled, not the race with the save.
- The id of a new comment and the requester's name and avatar come from the database (`User.findById`); `Posts.Post.AddComment` takes them as parameters.
- Post creation, listing (with its `sort({date: -1})`) and lookup by id, and the profile read routes: they hold no list logic.
- `Database.Db.DeleteAccount`: does not remove the user's posts, because the handler does not either (its `@todo`); the model states that posts stay.
- Request body values are modelled as strings only: JavaScript truthiness of numbers, booleans, `null` or arrays sent in JSON is not modelled, nor is `skills` arriving as an array.
- `Text.IsSpace` fixes the whitespace set that `trim` strips to the ECMAScript WhiteSpace and LineTerminator characters of current Unicode; later Unicode changes to the space-separator category are not followed.
- Express-validator's error objects are reduced to their messages.
- `Profiles.ValidationErrors`: the `check('status')` and `check('skills')` validators read the field from every request location (body, query string, route parameters, headers, cookies), while the model reads the body only; a request with `status` and `skills` in the query string and not in the body passes the real validation and `$set`s fields without them, where the model answers 400.
- `Profiles.ValidBodyHasStatusAndSkills`: holds for the body-only validation above; with the values supplied in another request location, the real `profileFields` can lack `status` and `skills`.
- `Posts.Post.AddComment`: the `check('text')` validator likewise reads every request location while the model checks the body's text only; a text supplied only in the query string is accepted by the handler, which then adds a comment without text.
- `Database.Db.SaveProfile`: inherits the body-only validation of `Profiles.ValidationErrors`.
- Client-side action creators and React components (`client/src/...`) and `routes/api/users.js`: UI and library glue.
- Concurrency between requests (last write wins in the database) is not modelled.
