/**
 * The profile handler's pure part: validating the request body, building
 * `profileFields` (with its `social` sub-object and the parsed `skills`), and
 * the create-or-`$set` upsert into the per-user profile collection.
 */
module Profiles {
  import Api
  import Text

  /**
   * The keys the handler reads from the request body and writes into a
   * profile document (`Experience` and `Education` are profile paths this
   * handler never writes).
   */
  datatype Key =
    | User | Company | Website | Location | Bio | Status | GithubUsername | Skills | Social
    | Youtube | Twitter | Facebook | Linkedin | Xing | Instagram
    | Experience | Education

  /** A JSON request body: the string value sent under each key. */
  type Body = map<Key, string>

  /** A value inside a profile document. */
  datatype Value =
    | Str(s: string)
    | List(items: seq<string>)                    // skills
    | Doc(fields: map<Key, string>)               // social
    | Entries(entries: seq<map<Key, string>>)    // experience, education

  /** A profile document: the keys it has, with their values. */
  type Document = map<Key, Value>

  /** JavaScript truthiness of `body[key]`: present and not the empty string. */
  predicate Truthy(body: Body, key: Key) {
    key in body && body[key] != ""
  }

  /** The plain string fields copied from the body when truthy. */
  const ScalarKeys: set<Key> := {Company, Website, Location, Bio, Status, GithubUsername}

  /** The social links copied into `social` when truthy (`instagram` is not among them). */
  const SocialKeys: set<Key> := {Youtube, Twitter, Facebook, Linkedin, Xing}

  /**
   * The `check('status').not().isEmpty()` and `check('skills').not().isEmpty()`
   * validators: one message per missing field, in that order.
   */
  function ValidationErrors(body: Body): (errors: seq<string>)
    ensures errors == [] <==> Truthy(body, Status) && Truthy(body, Skills)
    ensures "status is required" in errors <==> !Truthy(body, Status)
    ensures "skills is required" in errors <==> !Truthy(body, Skills)
    ensures |errors| == (if Truthy(body, Status) then 0 else 1) + (if Truthy(body, Skills) then 0 else 1)
    ensures !Truthy(body, Status) ==> errors[0] == "status is required"
  {
    (if Truthy(body, Status) then [] else ["status is required"])
      + (if Truthy(body, Skills) then [] else ["skills is required"])
  }

  /**
   * `skills.split(',').map(skill => skill.trim())`: one skill per
   * comma-separated piece of the input, so the commas plus one; each is its
   * piece without the surrounding whitespace, and holds no comma.
   */
  function ParseSkills(skills: string): (r: seq<string>)
    ensures |r| == Text.Count(skills, ',') + 1
    ensures forall i :: 0 <= i < |r| ==> Text.IsTrimmed(r[i]) && ',' !in r[i]
    ensures forall i :: 0 <= i < |r| ==> Text.IsPadded(Text.Split(skills, ',')[i], r[i])
  {
    var pieces := Text.Split(skills, ',');
    seq(|pieces|, i requires 0 <= i < |pieces| => Text.Trim(pieces[i]))
  }

  /** The `social` object: the truthy social links of the body. */
  function SocialOf(body: Body): map<Key, string> {
    map k | k in SocialKeys && Truthy(body, k) :: body[k]
  }

  /** `if (value) profileFields.<k> = value` for a plain field `k`. */
  function CopyIfTruthy(fields: Document, body: Body, k: Key): Document {
    if Truthy(body, k) then fields[k := Str(body[k])] else fields
  }

  /** The plain fields of `body` that are truthy, with their values. */
  function CopiedScalars(body: Body): Document {
    map k | k in ScalarKeys && Truthy(body, k) :: Str(body[k])
  }

  /** The six conditional copies, in the handler's order, copy exactly the truthy plain fields. */
  lemma ScalarCopies(requester: Api.UserId, body: Body)
    ensures CopyIfTruthy(CopyIfTruthy(CopyIfTruthy(CopyIfTruthy(CopyIfTruthy(CopyIfTruthy(
              map[User := Str(requester)], body, Company), body, Website), body, Location),
              body, Bio), body, Status), body, GithubUsername)
            == CopiedScalars(body)[User := Str(requester)]
  {
    var m := CopyIfTruthy(CopyIfTruthy(CopyIfTruthy(CopyIfTruthy(CopyIfTruthy(CopyIfTruthy(
              map[User := Str(requester)], body, Company), body, Website), body, Location),
              body, Bio), body, Status), body, GithubUsername);
    var m' := CopiedScalars(body)[User := Str(requester)];
    forall k ensures (k in m <==> k in m') && (k in m ==> m[k] == m'[k]) {
      match k
      case User => case Company => case Website => case Location => case Bio => case Status =>
      case GithubUsername => case Skills => case Social => case Youtube => case Twitter =>
      case Facebook => case Linkedin => case Xing => case Instagram => case Experience =>
      case Education =>
    }
  }

  /**
   * The `profileFields` object the handler builds for `requester` from `body`:
   * the truthy plain fields, `user`, the parsed `skills` when truthy, and `social`.
   */
  function ProfileFieldsOf(requester: Api.UserId, body: Body): Document {
    var fields := CopiedScalars(body)[User := Str(requester)];
    var fields := if Truthy(body, Skills) then fields[Skills := List(ParseSkills(body[Skills]))] else fields;
    fields[Social := Doc(SocialOf(body))]
  }

  /** Builds `profileFields.social` by one conditional assignment per link. */
  method BuildSocial(body: Body) returns (social: map<Key, string>)
    ensures social == SocialOf(body)
  {
    social := map[];
    if Truthy(body, Youtube) { social := social[Youtube := body[Youtube]]; }
    if Truthy(body, Twitter) { social := social[Twitter := body[Twitter]]; }
    if Truthy(body, Facebook) { social := social[Facebook := body[Facebook]]; }
    if Truthy(body, Linkedin) { social := social[Linkedin := body[Linkedin]]; }
    if Truthy(body, Linkedin) { social := social[Linkedin := body[Linkedin]]; }
    if Truthy(body, Xing) { social := social[Xing := body[Xing]]; }
  }

  /** Builds `profileFields` by one conditional assignment per field. */
  method BuildProfileFields(requester: Api.UserId, body: Body) returns (fields: Document)
    ensures fields == ProfileFieldsOf(requester, body)
  {
    fields := map[User := Str(requester)];
    if Truthy(body, Company) { fields := fields[Company := Str(body[Company])]; }
    if Truthy(body, Website) { fields := fields[Website := Str(body[Website])]; }
    if Truthy(body, Location) { fields := fields[Location := Str(body[Location])]; }
    if Truthy(body, Bio) { fields := fields[Bio := Str(body[Bio])]; }
    if Truthy(body, Status) { fields := fields[Status := Str(body[Status])]; }
    if Truthy(body, GithubUsername) { fields := fields[GithubUsername := Str(body[GithubUsername])]; }
    ScalarCopies(requester, body);
    if Truthy(body, Skills) {
      fields := fields[Skills := List(ParseSkills(body[Skills]))];
    }
    var social := BuildSocial(body);
    fields := fields[Social := Doc(social)];
  }

  /**
   * What `profileFields` holds: the requester's id under `user`; each plain
   * field exactly when the body's value is truthy, and then that value;
   * `skills` exactly when truthy, parsed; and always a `social` object of
   * the truthy links (see `SocialFacts`), never `instagram`. Nothing else.
   */
  lemma ProfileFieldsFacts(requester: Api.UserId, body: Body)
    ensures var fields := ProfileFieldsOf(requester, body);
      && fields[User] == Str(requester)
      && (forall k :: k in ScalarKeys ==> (k in fields <==> Truthy(body, k)))
      && (forall k :: k in ScalarKeys && k in fields ==> fields[k] == Str(body[k]))
      && (Skills in fields <==> Truthy(body, Skills))
      && (Skills in fields ==> fields[Skills] == List(ParseSkills(body[Skills])))
      && Social in fields
      && fields[Social] == Doc(SocialOf(body))
      && fields.Keys <= ScalarKeys + {Skills, User, Social}
  {
  }

  /** `social` holds exactly the truthy links among the five it copies; `instagram` never. */
  lemma SocialFacts(body: Body)
    ensures forall k :: k in SocialOf(body) <==> k in SocialKeys && Truthy(body, k)
    ensures forall k :: k in SocialOf(body) ==> SocialOf(body)[k] == body[k]
    ensures Instagram !in SocialOf(body)
  {
  }

  /** A body that passes validation always yields `status` and `skills`. */
  lemma ValidBodyHasStatusAndSkills(requester: Api.UserId, body: Body)
    requires ValidationErrors(body) == []
    ensures Status in ProfileFieldsOf(requester, body) && Skills in ProfileFieldsOf(requester, body)
  {
  }

  /** Every stored profile sits under the id its `user` field names. */
  ghost predicate IndexedByUser(profiles: map<Api.UserId, Document>) {
    forall u :: u in profiles ==> User in profiles[u] && profiles[u][User] == Str(u)
  }

  /**
   * The create-or-update: an existing profile has exactly the keys of
   * `fields` overwritten (`$set`) and keeps the rest; a missing one is
   * created equal to `fields`. No other user's profile changes.
   */
  function Upsert(profiles: map<Api.UserId, Document>, requester: Api.UserId, fields: Document): (r: map<Api.UserId, Document>)
    ensures r.Keys == profiles.Keys + {requester}
    ensures forall u :: u in profiles && u != requester ==> r[u] == profiles[u]
    ensures requester !in profiles ==> r[requester] == fields
    ensures requester in profiles ==>
      && r[requester].Keys == profiles[requester].Keys + fields.Keys
      && (forall k :: k in fields ==> r[requester][k] == fields[k])
      && (forall k :: k in profiles[requester] && k !in fields ==> r[requester][k] == profiles[requester][k])
  {
    profiles[requester := if requester in profiles then profiles[requester] + fields else fields]
  }

  /** Upserting the requester's own fields keeps one profile per user, filed under its owner. */
  lemma UpsertKeepsIndexed(profiles: map<Api.UserId, Document>, requester: Api.UserId, body: Body)
    requires IndexedByUser(profiles)
    ensures IndexedByUser(Upsert(profiles, requester, ProfileFieldsOf(requester, body)))
  {
  }
}
