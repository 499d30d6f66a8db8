/**
 * The profile editor dialog: toggling skills and limitations in and out of
 * the working lists, and saving them. The profile update request is a
 * parameter (`updateSucceeds`); the `onSave` and `onClose` callbacks are
 * recorded as events.
 */
module ProfileEdit {

  const LIMITATION_OPTIONS: seq<string> := ["heavy_lifting", "standing_long", "driving_required", "outdoor_work"]

  /** `items.filter(x => x !== item)`. */
  function Without(items: seq<string>, item: string): (r: seq<string>)
    ensures item !in r
    ensures |r| <= |items|
    ensures forall y :: y != item ==> multiset(r)[y] == multiset(items)[y]
    ensures forall y :: y != item ==> (y in r <==> y in items)
  {
    if items == [] then []
    else
      assert items == [items[0]] + items[1..];
      if items[0] == item then Without(items[1..], item)
      else [items[0]] + Without(items[1..], item)
  }

  /** Filtering out an absent item keeps the list as it is. */
  lemma {:induction false} WithoutAbsent(items: seq<string>, item: string)
    requires item !in items
    ensures Without(items, item) == items
  {
    if items != [] {
      WithoutAbsent(items[1..], item);
    }
  }

  /** Filtering distributes over concatenation, so the kept elements stay in order. */
  lemma {:induction false} WithoutAppend(a: seq<string>, b: seq<string>, item: string)
    ensures Without(a + b, item) == Without(a, item) + Without(b, item)
  {
    if a == [] {
      assert a + b == b;
    } else {
      assert (a + b)[1..] == a[1..] + b;
      WithoutAppend(a[1..], b, item);
    }
  }

  /** The toggle updater: remove every occurrence of a present item, or append an absent one. */
  function Toggle(items: seq<string>, item: string): (r: seq<string>)
    ensures item in items ==> r == Without(items, item)
    ensures item !in items ==> r == items + [item]
    ensures item in r <==> item !in items
    ensures forall y :: y != item ==> (y in r <==> y in items)
  {
    if item in items then Without(items, item) else items + [item]
  }

  /** Toggling an absent item twice restores the list. */
  lemma ToggleTwiceRestores(items: seq<string>, item: string)
    requires item !in items
    ensures Toggle(Toggle(items, item), item) == items
  {
    WithoutAppend(items, [item], item);
    WithoutAbsent(items, item);
  }

  /** Toggling an offered option keeps a list drawn from the options within them. */
  lemma ToggleStaysWithin(items: seq<string>, item: string, options: seq<string>)
    requires forall i :: 0 <= i < |items| ==> items[i] in options
    requires item in options
    ensures forall i :: 0 <= i < |Toggle(items, item)| ==> Toggle(items, item)[i] in options
  {
    var r := Toggle(items, item);
    forall i | 0 <= i < |r| ensures r[i] in options {
      assert r[i] in r;
    }
  }

  /** The callbacks the dialog invokes. */
  datatype Callback = OnSave | OnClose

  /** The body of the profile update request. */
  datatype UpdateProfilePayload = UpdateProfilePayload(skillTags: seq<string>, limitations: seq<string>)

  class ProfileEditor {
    var skills: seq<string>
    var limitations: seq<string>
    var isSaving: bool
    var callbacks: seq<Callback>

    /** The dialog starts from the profile's current lists. */
    constructor (currentSkills: seq<string>, currentLimitations: seq<string>)
      ensures skills == currentSkills && limitations == currentLimitations
      ensures !isSaving && callbacks == []
    {
      skills := currentSkills;
      limitations := currentLimitations;
      isSaving := false;
      callbacks := [];
    }

    method ToggleSkill(skill: string)
      modifies this
      ensures skills == Toggle(old(skills), skill)
      ensures limitations == old(limitations) && isSaving == old(isSaving) && callbacks == old(callbacks)
    {
      skills := Toggle(skills, skill);
    }

    method ToggleLimitation(limitation: string)
      modifies this
      ensures limitations == Toggle(old(limitations), limitation)
      ensures skills == old(skills) && isSaving == old(isSaving) && callbacks == old(callbacks)
    {
      limitations := Toggle(limitations, limitation);
    }

    /**
     * Sends the current lists; on success calls `onSave` then `onClose`;
     * the saving flag is down again however the request ends.
     */
    method HandleSave(updateSucceeds: bool) returns (payload: UpdateProfilePayload)
      modifies this
      ensures payload == UpdateProfilePayload(old(skills), old(limitations))
      ensures !isSaving
      ensures updateSucceeds ==> callbacks == old(callbacks) + [OnSave, OnClose]
      ensures !updateSucceeds ==> callbacks == old(callbacks)
      ensures skills == old(skills) && limitations == old(limitations)
    {
      isSaving := true;
      payload := UpdateProfilePayload(skills, limitations);
      if updateSucceeds {
        callbacks := callbacks + [OnSave];
        callbacks := callbacks + [OnClose];
      }
      isSaving := false;
    }
  }
}
