/**
 * MatchItemNameCriterion.cs: a tutorial criterion that is complete when a
 * string property (or the first element of a string array property) of a
 * scene object equals a name chosen from the item database.  The serialized
 * property lookup is an input; C# exceptions become `Raised`.
 */
module ItemNameCriterion {
  import opened Wrappers

  /** The criterion's `MatchType`; `Undefined` stands for any other value the enum field can hold. */
  datatype MatchType = First | Last | Index | Undefined(code: int)

  /** The `ItemDatabase` asset, reduced to `GetAllItemNames()`. */
  datatype ItemDatabase = ItemDatabase(names: seq<string>)

  /** A `SerializedProperty` as far as the criterion inspects it. */
  datatype Property = StringProperty(value: string) | ArrayProperty(elements: seq<Property>) | OtherProperty

  /** The end of an evaluation: a returned verdict, or an exception. */
  datatype Outcome = Returned(complete: bool) | Raised

  /** `ItemName`: the name the match type selects; `None` where the access is out of range. */
  function ItemName(names: seq<string>, matchType: MatchType, index: int): (r: Option<string>)
    ensures r.Some? <==> |names| > 0 && (matchType.Index? ==> 0 <= index < |names|)
    ensures r.Some? && matchType.Last? ==> r.value == names[|names| - 1]
    ensures r.Some? && matchType.Index? ==> r.value == names[index]
    ensures r.Some? && (matchType.First? || matchType.Undefined?) ==> r.value == names[0]
  {
    match matchType
    case Last => if |names| > 0 then Some(names[|names| - 1]) else None
    case Index => if 0 <= index < |names| then Some(names[index]) else None
    case _ => if |names| > 0 then Some(names[0]) else None
  }

  /** The string the criterion compares: the property itself, or its first element. */
  function Compared(property: Property): (r: Option<Option<string>>)
    ensures r.None? <==> property.ArrayProperty? && |property.elements| == 0
    ensures property.StringProperty? ==> r == Some(Some(property.value))
    ensures property.OtherProperty? ==> r == Some(None)
    ensures property.ArrayProperty? && |property.elements| > 0 ==>
      r == Some(if property.elements[0].StringProperty? then Some(property.elements[0].value) else None)
  {
    match property
    case StringProperty(value) => Some(Some(value))
    case ArrayProperty(elements) =>
      if |elements| == 0 then None
      else if elements[0].StringProperty? then Some(Some(elements[0].value))
      else Some(None)
    case OtherProperty => Some(None)
  }

  /**
   * The verdict of `EvaluateCompletion`: true without a database, a property
   * path or an object reference; false without the property; otherwise the
   * compared string against `ItemName`.
   */
  function Evaluation(database: Option<ItemDatabase>, propertyPath: string, hasReference: bool,
                      found: Option<Property>, matchType: MatchType, index: int): (r: Outcome)
    ensures database.None? || propertyPath == "" || !hasReference ==> r == Returned(true)
    ensures database.Some? && propertyPath != "" && hasReference ==>
      (found.None? ==> r == Returned(false))
    ensures r == Returned(true) <==>
      database.None? || propertyPath == "" || !hasReference ||
      (found.Some? && Compared(found.value).Some? && Compared(found.value).value.Some? &&
       ItemName(database.value.names, matchType, index) == Compared(found.value).value)
  {
    if database.None? then Returned(true)
    else if propertyPath == "" then Returned(true)
    else if !hasReference then Returned(true)
    else if found.None? then Returned(false)
    else match Compared(found.value)
      case None => Raised
      case Some(None) => Returned(false)
      case Some(Some(s)) =>
        match ItemName(database.value.names, matchType, index)
        case None => Raised
        case Some(name) => Returned(s == name)
  }

  /** Checking a property in full: what raises, and the verdict on a string or string array. */
  lemma EvaluationOfProperty(database: ItemDatabase, propertyPath: string, found: Property,
                             matchType: MatchType, index: int)
    requires propertyPath != ""
    ensures found.OtherProperty? ==>
      Evaluation(Some(database), propertyPath, true, Some(found), matchType, index) == Returned(false)
    ensures found.ArrayProperty? && |found.elements| == 0 ==>
      Evaluation(Some(database), propertyPath, true, Some(found), matchType, index) == Raised
    ensures found.ArrayProperty? && |found.elements| > 0 && !found.elements[0].StringProperty? ==>
      Evaluation(Some(database), propertyPath, true, Some(found), matchType, index) == Returned(false)
    ensures found.ArrayProperty? && |found.elements| > 0 && found.elements[0].StringProperty? &&
            ItemName(database.names, matchType, index).Some? ==>
      Evaluation(Some(database), propertyPath, true, Some(found), matchType, index) ==
      Returned(found.elements[0].value == ItemName(database.names, matchType, index).value)
    ensures found.ArrayProperty? && |found.elements| > 0 && found.elements[0].StringProperty? &&
            ItemName(database.names, matchType, index).None? ==>
      Evaluation(Some(database), propertyPath, true, Some(found), matchType, index) == Raised
    ensures found.StringProperty? && ItemName(database.names, matchType, index).Some? ==>
      Evaluation(Some(database), propertyPath, true, Some(found), matchType, index) ==
      Returned(found.value == ItemName(database.names, matchType, index).value)
    ensures found.StringProperty? && ItemName(database.names, matchType, index).None? ==>
      Evaluation(Some(database), propertyPath, true, Some(found), matchType, index) == Raised
  {
  }

  class MatchItemNameCriterion {
    var itemDatabase: Option<ItemDatabase>
    const hasReference: bool
    const referenceStringPropertyPath: string
    const matchType: MatchType
    const index: int

    constructor (hasReference: bool, referenceStringPropertyPath: string, matchType: MatchType, index: int)
      ensures this.hasReference == hasReference && this.referenceStringPropertyPath == referenceStringPropertyPath
      ensures this.matchType == matchType && this.index == index && itemDatabase.None?
    {
      this.hasReference, this.referenceStringPropertyPath := hasReference, referenceStringPropertyPath;
      this.matchType, this.index := matchType, index;
      itemDatabase := None;
    }

    /** Takes the first item database asset found; with none, the access raises (`ok` is false). */
    method StartTesting(assets: seq<ItemDatabase>) returns (ok: bool)
      modifies this
      ensures ok <==> |assets| > 0
      ensures ok ==> itemDatabase == Some(assets[0])
      ensures !ok ==> itemDatabase == old(itemDatabase)
    {
      if |assets| == 0 {
        return false;
      }
      itemDatabase := Some(assets[0]);
      ok := true;
    }

    /** The decision chain of `EvaluateCompletion`, given what the property lookup finds. */
    method EvaluateCompletion(found: Option<Property>) returns (r: Outcome)
      ensures r == Evaluation(itemDatabase, referenceStringPropertyPath, hasReference, found, matchType, index)
    {
      if itemDatabase.None? {
        return Returned(true);
      }
      if referenceStringPropertyPath == "" {
        return Returned(true);
      }
      if !hasReference {
        return Returned(true);
      }
      if found.None? {
        return Returned(false);
      }
      var name := ItemName(itemDatabase.value.names, matchType, index);
      var property := found.value;
      if property.StringProperty? {
        if name.None? {
          return Raised;
        }
        return Returned(property.value == name.value);
      }
      if property.ArrayProperty? {
        if |property.elements| == 0 {
          return Raised;
        }
        var element := property.elements[0];
        if !element.StringProperty? {
          return Returned(false);
        }
        if name.None? {
          return Raised;
        }
        return Returned(element.value == name.value);
      }
      return Returned(false);
    }

    /** Skipping this step is never allowed. */
    function AutoComplete(): (r: bool)
      ensures !r
    {
      false
    }
  }
}
