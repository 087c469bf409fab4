/** The Child collection's schema: a simulated pupil with a personality. */
module ChildModel {
  import opened Wrappers
  import opened Text

  const MaxNameLength: nat := 50
  const MaxPersonalityLength: nat := 200
  const MinAge: int := 5
  const MaxAge: int := 18
  const DefaultAvatar: string := "/api/placeholder/100/100"

  /** A child (`IChild`). */
  datatype Child = Child(
    name: string,
    avatar: string,
    personality: string,
    age: Option<int>,
    preferences: seq<string>)

  /** `childSchema`'s validators: a required name of at most 50 characters, a required personality
      of at most 200, an age within 5..18 when given. */
  predicate ChildSchemaValid(c: Child) {
    && c.name != "" && |c.name| <= MaxNameLength
    && c.personality != "" && |c.personality| <= MaxPersonalityLength
    && (c.age.Some? ==> MinAge <= c.age.value <= MaxAge)
  }

  /** Every preference trimmed, as the `trim: true` setter on the preference strings does. */
  function TrimAll(ps: seq<string>): (r: seq<string>)
    ensures |r| == |ps| && forall i :: 0 <= i < |ps| ==> r[i] == Trim(ps[i])
  {
    if ps == [] then [] else [Trim(ps[0])] + TrimAll(ps[1..])
  }

  /** A child document built from given fields and the schema's defaults: the placeholder
      avatar when none is given, no preferences when none are given. */
  function NewChild(name: string, personality: string, age: Option<int>,
                    avatar: Option<string>, preferences: Option<seq<string>>): (c: Child)
    ensures c.name == Trim(name) && c.personality == personality && c.age == age
    ensures c.avatar == (if avatar.Some? then avatar.value else DefaultAvatar)
    ensures c.preferences == (if preferences.Some? then TrimAll(preferences.value) else [])
  {
    Child(Trim(name),
          if avatar.Some? then avatar.value else DefaultAvatar,
          personality,
          age,
          if preferences.Some? then TrimAll(preferences.value) else [])
  }
}
