/**
 * The caller's own profile, api/user_router.py: reading it, and patching the
 * health-profile fields with a partial update (`exclude_unset`), which is
 * written to the user document and mirrored onto the user's graph node.
 */
module UserRouter {
  import opened Common
  import opened Schemas
  import opened DocumentStore
  import opened GraphMirror

  const NoUpdateData := HttpError(400, "No update data provided.")

  /** `UserProfile(**doc)`: the public fields of a stored user; the digest is dropped. */
  function PublicProfile(d: UserDoc): (p: UserProfile)
    ensures p.username == d.username && p.email == d.email && p.fullName == d.fullName
    ensures p.profile == d.profile
  {
    UserProfile(d.username, d.email, d.fullName, d.profile)
  }

  /** `get_user_profile`: the caller's public fields and profile as authenticated. */
  function GetUserProfile(caller: CurrentUser): (r: UserProfile)
    ensures r == PublicProfile(caller.doc)
  {
    UserProfile(caller.doc.username, caller.doc.email, caller.doc.fullName, caller.doc.profile)
  }

  /** `$set` of the given fields of a patch: an explicit null is stored as null, unset fields are kept. */
  function ApplyPatch(p: Profile, patch: ProfilePatch): (r: Profile)
    ensures patch.age.Given? ==> r.age == patch.age.value
    ensures patch.age.Unset? ==> r.age == p.age
    ensures patch.gender.Given? ==> r.gender == patch.gender.value
    ensures patch.gender.Unset? ==> r.gender == p.gender
    ensures patch.weightKg.Given? ==> r.weightKg == patch.weightKg.value
    ensures patch.weightKg.Unset? ==> r.weightKg == p.weightKg
    ensures patch.heightCm.Given? ==> r.heightCm == patch.heightCm.value
    ensures patch.heightCm.Unset? ==> r.heightCm == p.heightCm
    ensures patch.allergies.Given? ==> r.allergies == patch.allergies.value
    ensures patch.allergies.Unset? ==> r.allergies == p.allergies
    ensures patch.previousIssues.Given? ==> r.previousIssues == patch.previousIssues.value
    ensures patch.previousIssues.Unset? ==> r.previousIssues == p.previousIssues
    ensures patch.currentMedications.Given? ==> r.currentMedications == patch.currentMedications.value
    ensures patch.currentMedications.Unset? ==> r.currentMedications == p.currentMedications
  {
    Profile(
      GivenOr(patch.age, p.age),
      GivenOr(patch.gender, p.gender),
      GivenOr(patch.weightKg, p.weightKg),
      GivenOr(patch.heightCm, p.heightCm),
      GivenOr(patch.allergies, p.allergies),
      GivenOr(patch.previousIssues, p.previousIssues),
      GivenOr(patch.currentMedications, p.currentMedications))
  }

  /** A patch with nothing set leaves the profile as it was. */
  lemma EmptyPatchChangesNothing(p: Profile, patch: ProfilePatch)
    requires NothingSet(patch)
    ensures ApplyPatch(p, patch) == p
  {
  }

  /** Applying the same patch twice is applying it once. */
  lemma ApplyPatchIdempotent(p: Profile, patch: ProfilePatch)
    ensures ApplyPatch(ApplyPatch(p, patch), patch) == ApplyPatch(p, patch)
  {
  }

  /** A patch that passed validation keeps the profile within its field constraints. */
  lemma ApplyPatchKeepsValid(p: Profile, patch: ProfilePatch)
    requires ValidProfile(p) && ValidProfilePatch(patch)
    ensures ValidProfile(ApplyPatch(p, patch))
  {
  }

  // ---------------------------------------------------------------- the graph node's copy

  /** The graph property names of the profile fields (the request body's own keys). */
  const ProfileKeys: set<string> :=
    {"age", "gender", "weight_kg", "height_cm", "allergies", "previous_issues", "current_medications"}

  function IntValue(v: Option<int>): Value
  {
    if v.Some? then VInt(v.value) else VNull
  }

  function ListValue(v: Option<seq<string>>): Value
  {
    if v.Some? then VTextList(v.value) else VNull
  }

  /** A given field as a property value (null for an explicit null); nothing for an unset one. */
  function Given<T>(f: Field<T>, conv: Option<T> -> Value): Option<Value>
  {
    if f.Given? then Some(conv(f.value)) else None
  }

  /** The value a profile holds under a property name, null when the field is absent. */
  function ValueAt(p: Profile, k: string): Value
  {
    match k
    case "age" => IntValue(p.age)
    case "gender" => TextOrNull(p.gender)
    case "weight_kg" => IntValue(p.weightKg)
    case "height_cm" => IntValue(p.heightCm)
    case "allergies" => ListValue(p.allergies)
    case "previous_issues" => ListValue(p.previousIssues)
    case "current_medications" => ListValue(p.currentMedications)
    case _ => VNull
  }

  /** The `update_dict` entry of a property name: present exactly when the field was given. */
  function PatchAt(patch: ProfilePatch, k: string): Option<Value>
  {
    match k
    case "age" => Given(patch.age, IntValue)
    case "gender" => Given(patch.gender, TextOrNull)
    case "weight_kg" => Given(patch.weightKg, IntValue)
    case "height_cm" => Given(patch.heightCm, IntValue)
    case "allergies" => Given(patch.allergies, ListValue)
    case "previous_issues" => Given(patch.previousIssues, ListValue)
    case "current_medications" => Given(patch.currentMedications, ListValue)
    case _ => None
  }

  /** `update_dict` as the property map passed to the graph: exactly the given fields. */
  function PatchProps(patch: ProfilePatch): (props: Props)
    ensures props.Keys <= ProfileKeys
    ensures props == map[] <==> NothingSet(patch)
  {
    var props := map k | k in ProfileKeys && PatchAt(patch, k).Some? :: PatchAt(patch, k).value;
    assert !NothingSet(patch) ==> props != map[] by {
      if patch.age.Given? { assert "age" in props; }
      else if patch.gender.Given? { assert "gender" in props; }
      else if patch.weightKg.Given? { assert "weight_kg" in props; }
      else if patch.heightCm.Given? { assert "height_cm" in props; }
      else if patch.allergies.Given? { assert "allergies" in props; }
      else if patch.previousIssues.Given? { assert "previous_issues" in props; }
      else if patch.currentMedications.Given? { assert "current_medications" in props; }
    }
    props
  }

  /** A profile's non-null fields as graph properties. */
  function ProfileProps(p: Profile): Props
  {
    map k | k in ProfileKeys && ValueAt(p, k) != VNull :: ValueAt(p, k)
  }

  function Lookup(props: Props, k: string): Option<Value>
  {
    if k in props then Some(props[k]) else None
  }

  /** The node's properties hold exactly the profile's non-null fields under the profile keys. */
  predicate Mirrors(props: Props, p: Profile)
  {
    forall k :: k in ProfileKeys ==> Lookup(props, k) == Lookup(ProfileProps(p), k)
  }

  /** Under one property name, the patched profile holds the given value, or the old one. */
  lemma ValueAtPatched(p: Profile, patch: ProfilePatch, k: string)
    ensures PatchAt(patch, k).Some? ==> ValueAt(ApplyPatch(p, patch), k) == PatchAt(patch, k).value
    ensures PatchAt(patch, k).None? ==> ValueAt(ApplyPatch(p, patch), k) == ValueAt(p, k)
  {
  }

  /**
   * `SET u += $props` with the patch's properties keeps the node in step with
   * the document: a node that mirrored the old profile mirrors the patched one.
   */
  lemma PatchKeepsMirror(props: Props, p: Profile, patch: ProfilePatch)
    requires Mirrors(props, p)
    ensures Mirrors(SetAdd(props, PatchProps(patch)), ApplyPatch(p, patch))
  {
    var updates := PatchProps(patch);
    var after := SetAdd(props, updates);
    var q := ApplyPatch(p, patch);
    forall k | k in ProfileKeys
      ensures Lookup(after, k) == Lookup(ProfileProps(q), k)
    {
      ValueAtPatched(p, patch, k);
      assert Lookup(props, k) == Lookup(ProfileProps(p), k);
    }
  }

  // ---------------------------------------------------------------- the endpoint

  /** The user collection after `update_one({"_id": id}, {"$set": update_dict})`; no match changes nothing. */
  function PatchedUsers(docs: map<Oid, UserDoc>, id: Oid, patch: ProfilePatch): (r: map<Oid, UserDoc>)
    ensures r.Keys == docs.Keys
    ensures forall k :: k in docs && k != id ==> r[k] == docs[k]
    ensures id in docs ==> r[id] == docs[id].(profile := ApplyPatch(docs[id].profile, patch))
  {
    if id in docs then docs[id := docs[id].(profile := ApplyPatch(docs[id].profile, patch))] else docs
  }

  /**
   * `update_user_profile`: 422 for a body outside the field constraints, 400
   * for an empty patch, otherwise the document is patched, the graph node is
   * given the same properties (a failure is swallowed) and the re-read
   * document is returned; a document that vanished makes `UserProfile(**None)`
   * raise, a 500.
   */
  method UpdateUserProfile(users: Collection<UserDoc>, driver: Neo4jDriver, caller: CurrentUser, patch: ProfilePatch,
                           now: Time, graphFails: bool)
    returns (r: Result<UserProfile>)
    modifies users, driver
    ensures driver.connected == old(driver.connected)
    ensures !ValidProfilePatch(patch) ==>
      r == Err(ValidationError) && users.docs == old(users.docs) && driver.database == old(driver.database)
    ensures ValidProfilePatch(patch) && NothingSet(patch) ==>
      r == Err(NoUpdateData) && users.docs == old(users.docs) && driver.database == old(driver.database)
    ensures ValidProfilePatch(patch) && !NothingSet(patch) ==>
      && users.docs == PatchedUsers(old(users.docs), caller.id, patch)
      && driver.database == After(driver.connected, graphFails, old(driver.database), UpdateUser(caller.doc.email, PatchProps(patch)), now)
      && r == (if caller.id in users.docs then Ok(PublicProfile(users.docs[caller.id])) else Err(InternalError))
    ensures forall k :: k in users.docs ==> k in old(users.docs) && (ValidProfile(old(users.docs)[k].profile) ==> ValidProfile(users.docs[k].profile))
  {
    if !ValidProfilePatch(patch) {
      return Err(ValidationError);
    }
    var updateDict := PatchProps(patch);
    if updateDict == map[] {
      return Err(NoUpdateData);
    }
    if caller.id in users.docs && ValidProfile(users.docs[caller.id].profile) {
      ApplyPatchKeepsValid(users.docs[caller.id].profile, patch);
    }
    users.docs := PatchedUsers(users.docs, caller.id, patch);
    var raised := UpdateUserNodeProperties(driver, caller.doc.email, updateDict, now, graphFails);
    if caller.id !in users.docs {
      return Err(InternalError);
    }
    r := Ok(PublicProfile(users.docs[caller.id]));
  }
}
