/** The `/api/children` routes: the name-ordered listing, create, partial update and hard delete. */
module ChildRoutes {
  import opened Wrappers
  import opened Text
  import opened Request
  import opened Sorting
  import opened ChildModel
  import opened ChatSessionModel
  import opened Database

  const InvalidChildId := "Invalid child ID"

  // ---------------------------------------------------------------- GET /

  /** The order of `.sort({ name: 1 })`. */
  predicate ByName(a: (Id, Child), b: (Id, Child)) {
    StrLe(a.1.name, b.1.name)
  }

  lemma ByNameIsPreorder()
    ensures TotalPreorder(ByName)
  {
    forall a: (Id, Child), b: (Id, Child) ensures ByName(a, b) || ByName(b, a) {
      StrLeTotal(a.1.name, b.1.name);
    }
    forall a: (Id, Child), b: (Id, Child), c: (Id, Child) | ByName(a, b) && ByName(b, c)
      ensures ByName(a, c)
    {
      StrLeTransitive(a.1.name, b.1.name, c.1.name);
    }
  }

  function Entries(children: map<Id, Child>): set<(Id, Child)> {
    set k | k in children :: (k, children[k])
  }

  /** GET /: every stored child exactly once, in ascending order of name. Children with equal
      names come in an order the database chooses. */
  ghost function ListChildren(children: map<Id, Child>): (r: seq<(Id, Child)>)
    ensures multiset(r) == multiset(Entries(children))
    ensures SortedBy(r, ByName)
  {
    ByNameIsPreorder();
    SortBy(Enumerate(Entries(children)), ByName)
  }

  /** The listing holds exactly the stored children, each under its own id. */
  lemma ListedIffStored(children: map<Id, Child>, id: Id, c: Child)
    ensures (id, c) in ListChildren(children) <==> id in children && children[id] == c
  {
    var r := ListChildren(children);
    assert (id, c) in r <==> (id, c) in multiset(r);
  }

  // ---------------------------------------------------------------- POST /

  /** The fields of a child body; absent fields are `None`. */
  datatype ChildBody = ChildBody(
    name: Option<string>,
    personality: Option<string>,
    age: Option<Value>,
    avatar: Option<string>,
    preferences: Option<Value>)

  predicate NameOk(t: string) { 1 <= |Trim(t)| <= MaxNameLength }
  predicate PersonalityOk(t: string) { 1 <= |Trim(t)| <= MaxPersonalityLength }
  predicate AgeOk(v: Value) { IsIntIn(v, MinAge, MaxAge) }
  predicate PreferencesOk(v: Value) { v.Arr? }

  /** What the validation chain of POST / accepts; `isUrl` is the validator's `isURL`. */
  predicate CreateBodyOk(b: ChildBody, isUrl: string -> bool) {
    && NameOk(FieldText(b.name)) && PersonalityOk(FieldText(b.personality))
    && (b.age.Some? ==> AgeOk(b.age.value))
    && (b.avatar.Some? ==> isUrl(b.avatar.value))
    && (b.preferences.Some? ==> PreferencesOk(b.preferences.value))
  }

  /** The validation chain of POST /. */
  function CreateErrors(b: ChildBody, isUrl: string -> bool): (errors: seq<string>)
    ensures errors == [] <==> CreateBodyOk(b, isUrl)
  {
    var e1 := Check(NameOk(FieldText(b.name)), "Name is required and must be less than 50 characters");
    var e2 := Check(PersonalityOk(FieldText(b.personality)),
                    "Personality is required and must be less than 200 characters");
    var e3 := Check(b.age.None? || AgeOk(b.age.value), "Age must be between 5 and 18");
    var e4 := Check(b.avatar.None? || isUrl(b.avatar.value), "Avatar must be a valid URL");
    var e5 := Check(b.preferences.None? || PreferencesOk(b.preferences.value), "Preferences must be an array");
    Concat5Empty(e1, e2, e3, e4, e5);
    e1 + e2 + e3 + e4 + e5
  }

  /** Casting the preference items to the schema's `[String]`: every item must be a string. */
  function CastPreferences(items: seq<Value>): (r: Option<seq<string>>)
    ensures r.Some? <==> forall i :: 0 <= i < |items| ==> items[i].Str?
    ensures r.Some? ==> |r.value| == |items| && forall i :: 0 <= i < |items| ==> r.value[i] == items[i].s
  {
    if items == [] then Some([])
    else if !items[0].Str? then None
    else
      var rest := CastPreferences(items[1..]);
      if rest.None? then
        assert !forall i :: 0 <= i < |items| ==> items[i].Str? by {
          var j :| 0 <= j < |items| - 1 && !items[1..][j].Str?;
          assert items[j + 1] == items[1..][j];
        }
        None
      else
        Some([items[0].s] + rest.value)
  }

  /** The preferences of a body as cast, `Some(None)` when they cannot be cast. */
  function BodyPreferences(b: ChildBody): Option<Option<seq<string>>>
    requires b.preferences.Some? ==> b.preferences.value.Arr?
  {
    if b.preferences.None? then None else Some(CastPreferences(b.preferences.value.items))
  }

  /** What POST / answers: 400 with the validation errors; 500 when a preference is not a string
      (the document cannot be cast); otherwise 201 with the child built from the sanitized body
      and the schema defaults. */
  function CreateReply(b: ChildBody, isUrl: string -> bool): Reply<Child> {
    if CreateErrors(b, isUrl) != [] then BadRequest(CreateErrors(b, isUrl))
    else
      var prefs := BodyPreferences(b);
      if prefs.Some? && prefs.value.None? then ServerError
      else Created(NewChild(Trim(FieldText(b.name)), Trim(FieldText(b.personality)),
                            if b.age.Some? then Some(b.age.value.i) else None,
                            b.avatar, if prefs.Some? then prefs.value else None))
  }

  /** A created child satisfies the schema and carries the sanitized body: trimmed name and
      personality, the placeholder avatar when none was given, trimmed preferences. */
  lemma CreatedChild(b: ChildBody, isUrl: string -> bool)
    requires CreateReply(b, isUrl).Created?
    ensures var c := CreateReply(b, isUrl).value;
      && ChildSchemaValid(c)
      && c.name == Trim(b.name.value) && c.personality == Trim(b.personality.value)
      && c.avatar == (if b.avatar.Some? then b.avatar.value else DefaultAvatar)
      && (b.age.Some? <==> c.age.Some?)
      && (b.preferences.None? ==> c.preferences == [])
  {
    assert CreateErrors(b, isUrl) == [];
    TrimIdempotent(b.name.value);
  }

  /** POST / creates a child exactly when the body passes validation and every preference is a
      string; otherwise the store is left alone. */
  lemma CreatedIff(b: ChildBody, isUrl: string -> bool)
    ensures CreateReply(b, isUrl).Created? <==>
      && CreateBodyOk(b, isUrl)
      && (b.preferences.Some? ==> forall i :: 0 <= i < |b.preferences.value.items| ==> b.preferences.value.items[i].Str?)
  {
  }

  /** POST /: answers `CreateReply` and stores the created child under `freshId`. */
  method PostChild(db: Db, b: ChildBody, isUrl: string -> bool, freshId: Id) returns (r: Reply<Child>)
    requires db.Valid() && IsObjectId(freshId) && freshId !in db.children
    modifies db`children
    ensures db.Valid()
    ensures r == CreateReply(b, isUrl)
    ensures r.Created? ==> db.children == old(db.children)[freshId := r.value]
    ensures !r.Created? ==> db.children == old(db.children)
  {
    r := CreateReply(b, isUrl);
    if r.Created? {
      db.StoreChild(freshId, r.value);
    }
  }

  // ---------------------------------------------------------------- PUT /:id

  /** What the validation chain of PUT /:id accepts in the body: every field optional. */
  predicate UpdateBodyOk(b: ChildBody, isUrl: string -> bool) {
    && (b.name.Some? ==> NameOk(b.name.value))
    && (b.personality.Some? ==> PersonalityOk(b.personality.value))
    && (b.age.Some? ==> AgeOk(b.age.value))
    && (b.avatar.Some? ==> isUrl(b.avatar.value))
    && (b.preferences.Some? ==> PreferencesOk(b.preferences.value))
  }

  /** The validation chain of PUT /:id. */
  function UpdateErrors(id: string, b: ChildBody, isUrl: string -> bool): (errors: seq<string>)
    ensures errors == [] <==> IsMongoId(id) && UpdateBodyOk(b, isUrl)
  {
    var e1 := Check(IsMongoId(id), InvalidChildId);
    var e2 := Check(b.name.None? || NameOk(b.name.value), "Name must be less than 50 characters");
    var e3 := Check(b.personality.None? || PersonalityOk(b.personality.value),
                    "Personality must be less than 200 characters");
    var e4 := Check(b.age.None? || AgeOk(b.age.value), "Age must be between 5 and 18");
    var e5 := Check(b.avatar.None? || isUrl(b.avatar.value), "Avatar must be a valid URL");
    var e6 := Check(b.preferences.None? || PreferencesOk(b.preferences.value), "Preferences must be an array");
    Concat6Empty(e1, e2, e3, e4, e5, e6);
    e1 + e2 + e3 + e4 + e5 + e6
  }

  /** The child after `findByIdAndUpdate` with the (sanitized) body: each supplied field replaces
      the stored one and nothing else changes. */
  function Updated(c: Child, b: ChildBody, prefs: Option<seq<string>>): (r: Child)
    requires b.age.Some? ==> b.age.value.Int?
    ensures r.name == (if b.name.Some? then Trim(b.name.value) else c.name)
    ensures r.personality == (if b.personality.Some? then Trim(b.personality.value) else c.personality)
    ensures r.age == (if b.age.Some? then Some(b.age.value.i) else c.age)
    ensures r.avatar == (if b.avatar.Some? then b.avatar.value else c.avatar)
    ensures r.preferences == (if prefs.Some? then TrimAll(prefs.value) else c.preferences)
  {
    Child(if b.name.Some? then Trim(b.name.value) else c.name,
          if b.avatar.Some? then b.avatar.value else c.avatar,
          if b.personality.Some? then Trim(b.personality.value) else c.personality,
          if b.age.Some? then Some(b.age.value.i) else c.age,
          if prefs.Some? then TrimAll(prefs.value) else c.preferences)
  }

  /** An update that passes validation keeps a schema-valid child schema-valid. */
  lemma UpdatedKeepsSchema(c: Child, id: string, b: ChildBody, isUrl: string -> bool, prefs: Option<seq<string>>)
    requires ChildSchemaValid(c) && UpdateErrors(id, b, isUrl) == []
    ensures ChildSchemaValid(Updated(c, b, prefs))
  {
    assert b.name.Some? ==> NameOk(b.name.value);
    assert b.personality.Some? ==> PersonalityOk(b.personality.value);
    assert b.age.Some? ==> AgeOk(b.age.value);
  }

  /** PUT /:id: 400 on a failed rule, 500 when the id or a preference cannot be cast, 404 when
      no child has the id, otherwise the updated child, stored in place. */
  method PutChild(db: Db, id: string, b: ChildBody, isUrl: string -> bool) returns (r: Reply<Child>)
    requires db.Valid()
    modifies db`children
    ensures db.Valid()
    ensures UpdateErrors(id, b, isUrl) != [] ==> r == BadRequest(UpdateErrors(id, b, isUrl))
    ensures UpdateErrors(id, b, isUrl) == [] ==>
      var prefs := BodyPreferences(b);
      && (prefs.Some? && prefs.value.None? ==> r == ServerError)
      && (!(prefs.Some? && prefs.value.None?) && !IsObjectId(id) ==> r == ServerError)
      && (!(prefs.Some? && prefs.value.None?) && IsObjectId(id) && id !in old(db.children) ==> r == NotFound)
      && (!(prefs.Some? && prefs.value.None?) && IsObjectId(id) && id in old(db.children) ==>
            r == Ok(Updated(old(db.children)[id], b, if prefs.Some? then prefs.value else None)))
    ensures r.Ok? ==> id in old(db.children) && db.children == old(db.children)[id := r.value]
    ensures !r.Ok? ==> db.children == old(db.children)
  {
    var gate := HandleValidationErrors<Child>(UpdateErrors(id, b, isUrl));
    if gate.Some? {
      return gate.value;
    }
    var prefs := BodyPreferences(b);
    if prefs.Some? && prefs.value.None? {
      return ServerError;
    }
    if !IsObjectId(id) {
      return ServerError;
    }
    if id !in db.children {
      return NotFound;
    }
    var updated := Updated(db.children[id], b, if prefs.Some? then prefs.value else None);
    db.children := db.children[id := updated];
    r := Ok(updated);
  }

  // ---------------------------------------------------------------- DELETE /:id

  /** DELETE /:id: removes the child's document. */
  method DeleteChild(db: Db, id: string) returns (r: Reply<string>)
    requires db.Valid()
    modifies db`children
    ensures db.Valid()
    ensures !IsMongoId(id) ==> r == BadRequest([InvalidChildId]) && db.children == old(db.children)
    ensures IsMongoId(id) && !IsObjectId(id) ==> r == ServerError && db.children == old(db.children)
    ensures IsObjectId(id) && id !in old(db.children) ==> r == NotFound && db.children == old(db.children)
    ensures IsObjectId(id) && id in old(db.children) ==>
      r == Ok("Child deleted successfully") && db.children == old(db.children) - {id}
  {
    var gate := HandleValidationErrors<string>(Check(IsMongoId(id), InvalidChildId));
    if gate.Some? {
      return gate.value;
    }
    if !IsObjectId(id) {
      return ServerError;
    }
    if id !in db.children {
      return NotFound;
    }
    db.children := db.children - {id};
    r := Ok("Child deleted successfully");
  }

  /** After a delete the child is no longer listed. */
  lemma DeletedNotListed(children: map<Id, Child>, id: Id, c: Child)
    ensures (id, c) !in ListChildren(children - {id})
  {
    ListedIffStored(children - {id}, id, c);
  }
}
