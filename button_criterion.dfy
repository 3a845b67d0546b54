/**
 * ButtonHasCorrectOnClickCriterion.cs: a tutorial criterion that is complete
 * when a scene button has a persistent onClick listener calling the expected
 * method on the expected game object.  Scene objects are reduced to their
 * identities and the button's persistent listeners.
 */
module ButtonCriterion {
  import opened Wrappers

  /** The identity of a Unity object, compared by reference as `==` on objects does. */
  datatype ObjectId = GameObjectId(n: nat) | ComponentId(n: nat)

  /** A persistent onClick entry: its target object (possibly missing) and method name. */
  datatype Listener = Listener(target: Option<ObjectId>, methodName: string)

  datatype Button = Button(id: nat, owner: nat, listeners: seq<Listener>)

  /** What a scene reference can point at. */
  datatype SceneObject =
    | GameObject(id: nat, buttonComponent: Option<Button>)
    | ButtonComponent(button: Button)
    | OtherComponent(id: nat, owner: nat)

  /**
   * A `FutureObjectReference`: its name and the object its scene reference
   * resolves to (`None` when the scene reference or the object is missing).
   */
  datatype FutureReference = FutureReference(name: string, referenced: Option<SceneObject>)

  /** The object a reference resolves to: `m_Ref?.SceneObjectReference?.ReferencedObject`. */
  function Resolved(reference: Option<FutureReference>): Option<SceneObject>
  {
    if reference.None? then None else reference.value.referenced
  }

  /** `TargetButton`: a game object's Button component, or the object itself when it is a button. */
  function TargetButton(reference: Option<FutureReference>): (r: Option<Button>)
    ensures Resolved(reference).None? ==> r.None?
    ensures Resolved(reference).Some? && Resolved(reference).value.GameObject? ==>
      r == Resolved(reference).value.buttonComponent
    ensures Resolved(reference).Some? && Resolved(reference).value.ButtonComponent? ==>
      r == Some(Resolved(reference).value.button)
    ensures Resolved(reference).Some? && Resolved(reference).value.OtherComponent? ==> r.None?
  {
    match Resolved(reference)
    case None => None
    case Some(GameObject(_, buttonComponent)) => buttonComponent
    case Some(ButtonComponent(button)) => Some(button)
    case Some(OtherComponent(_, _)) => None
  }

  /** `ExpectedTarget`: a game object itself, or the game object a component sits on. */
  function ExpectedTarget(reference: Option<FutureReference>): (r: Option<nat>)
    ensures r.Some? <==> Resolved(reference).Some?
    ensures r.Some? && Resolved(reference).value.GameObject? ==> r.value == Resolved(reference).value.id
    ensures r.Some? && Resolved(reference).value.ButtonComponent? ==> r.value == Resolved(reference).value.button.owner
    ensures r.Some? && Resolved(reference).value.OtherComponent? ==> r.value == Resolved(reference).value.owner
  {
    match Resolved(reference)
    case None => None
    case Some(GameObject(id, _)) => Some(id)
    case Some(ButtonComponent(button)) => Some(button.owner)
    case Some(OtherComponent(_, owner)) => Some(owner)
  }

  /** A listener calls `methodName` on the game object `expected`. */
  predicate Matches(listener: Listener, expected: nat, methodName: string)
  {
    listener.target == Some(GameObjectId(expected)) && listener.methodName == methodName
  }

  /**
   * The criterion is met: the button, the expected target and a non-empty
   * method name are all there, and some persistent listener matches them.
   */
  predicate Completed(button: Option<Button>, expected: Option<nat>, methodName: string)
  {
    button.Some? && expected.Some? && methodName != "" &&
    exists i :: 0 <= i < |button.value.listeners| && Matches(button.value.listeners[i], expected.value, methodName)
  }

  /** Adding listeners never undoes completion, and a button without listeners never completes. */
  lemma CompletedMonotone(button: Button, extra: seq<Listener>, expected: Option<nat>, methodName: string)
    ensures Completed(Some(button), expected, methodName) ==>
      Completed(Some(button.(listeners := button.listeners + extra)), expected, methodName)
    ensures |button.listeners| == 0 ==> !Completed(Some(button), expected, methodName)
  {
    if Completed(Some(button), expected, methodName) {
      var i :| 0 <= i < |button.listeners| && Matches(button.listeners[i], expected.value, methodName);
      assert (button.listeners + extra)[i] == button.listeners[i];
    }
  }

  /** A listener on a component of the expected object does not count: only the object itself does. */
  lemma ComponentTargetNeverMatches(component: nat, expected: nat, methodName: string)
    ensures !Matches(Listener(Some(ComponentId(component)), methodName), expected, methodName)
  {
  }

  /** A reference after `CreateFutureReferencesIfMissing`: a fresh, unresolved one only where none was. */
  function CreatedIfMissing(reference: Option<FutureReference>, name: string): (r: Option<FutureReference>)
    ensures r.Some?
    ensures reference.Some? ==> r == reference
    ensures reference.None? ==> r.value.name == name && r.value.referenced.None?
  {
    if reference.None? then Some(FutureReference(name, None)) else reference
  }

  /** Creating missing references a second time changes nothing. */
  lemma CreatedIfMissingIdempotent(reference: Option<FutureReference>, name: string)
    ensures CreatedIfMissing(CreatedIfMissing(reference, name), name) == CreatedIfMissing(reference, name)
  {
  }

  class ButtonHasCorrectOnClickCriterion {
    var targetButton: Option<FutureReference>
    var expectedTarget: Option<FutureReference>
    const expectedMethodName: string

    constructor (targetButton: Option<FutureReference>, expectedTarget: Option<FutureReference>, expectedMethodName: string)
      ensures this.targetButton == targetButton && this.expectedTarget == expectedTarget
      ensures this.expectedMethodName == expectedMethodName
    {
      this.targetButton, this.expectedTarget := targetButton, expectedTarget;
      this.expectedMethodName := expectedMethodName;
    }

    /** Searches the persistent listeners for the expected target and method. */
    method EvaluateCompletion() returns (complete: bool)
      ensures complete <==> Completed(TargetButton(targetButton), ExpectedTarget(expectedTarget), expectedMethodName)
    {
      var button := TargetButton(targetButton);
      var expected := ExpectedTarget(expectedTarget);
      if button.None? || expected.None? || expectedMethodName == "" {
        return false;
      }
      var onClick := button.value.listeners;
      var count := |onClick|;
      for i := 0 to count
        invariant forall j :: 0 <= j < i ==> !Matches(onClick[j], expected.value, expectedMethodName)
      {
        var target := onClick[i].target;
        var methodName := onClick[i].methodName;
        if target == Some(GameObjectId(expected.value)) && methodName == expectedMethodName {
          return true;
        }
      }
      return false;
    }

    /** Creates the references that are missing and leaves the others as they are. */
    method CreateFutureReferencesIfMissing()
      modifies this
      ensures targetButton == CreatedIfMissing(old(targetButton), "Target Button")
      ensures expectedTarget == CreatedIfMissing(old(expectedTarget), "Expected Target")
    {
      if targetButton.None? {
        targetButton := Some(FutureReference("Target Button", None));
      }
      if expectedTarget.None? {
        expectedTarget := Some(FutureReference("Expected Target", None));
      }
    }

    /** The references the tutorial framework resolves: the button's, then the target's. */
    function GetFutureObjectReferences(): (r: seq<Option<FutureReference>>)
      reads this
      ensures |r| == 2 && r[0] == targetButton && r[1] == expectedTarget
    {
      [targetButton, expectedTarget]
    }

    /** Skipping this step always succeeds. */
    function AutoComplete(): (r: bool)
      ensures r
    {
      true
    }
  }
}
