/**
 * The roster editor (components/FamilyConfigModal.tsx): adding a member
 * from the text input and removing a member by its position.  Both
 * handlers build a new roster and hand it to the state setter; here they
 * are functions from the old state to the new one.
 */
module FamilyConfigModal {
  import opened JsText
  import opened Types

  /** The editor never adds beyond this many members. */
  const MaxMembers := 10

  /** The roster and the text typed into the input. */
  datatype Editor = Editor(family: seq<FamilyMember>, input: string)

  /** Whether `handleAddMember` accepts the current input. */
  predicate CanAdd(e: Editor) {
    Trim(e.input) != "" && |e.family| < MaxMembers
  }

  /**
   * `handleAddMember`: an input that is not blank is appended, trimmed and
   * unpinned, to a roster of fewer than ten members, and the input is
   * cleared; otherwise roster and input stay as they were.
   */
  function AddMember(e: Editor): (r: Editor)
    ensures CanAdd(e) ==> |r.family| == |e.family| + 1 && r.input == ""
    ensures CanAdd(e) ==> r.family[|e.family|] == FamilyMember(Trim(e.input), false)
    ensures |e.family| <= |r.family| && r.family[..|e.family|] == e.family
    ensures !CanAdd(e) ==> r == e
  {
    if CanAdd(e) then
      var family := e.family + [FamilyMember(Trim(e.input), false)];
      assert family[..|e.family|] == e.family;
      Editor(family, "")
    else
      assert e.family[..|e.family|] == e.family;
      e
  }

  /** Adding never takes a roster of at most ten members past ten, and
      an added name is neither empty nor starts or ends with whitespace. */
  lemma AddBounded(e: Editor)
    requires |e.family| <= MaxMembers
    ensures |AddMember(e).family| <= MaxMembers
    ensures forall i :: |e.family| <= i < |AddMember(e).family| ==>
              var name := AddMember(e).family[i].name;
              name != [] && !IsSpace(name[0]) && !IsSpace(name[|name| - 1])
  {
  }

  /**
   * `handleRemoveMember`: `family.filter((_, i) => i !== index)`, the
   * members at every position but `index`, in order.
   */
  function RemoveMember(family: seq<FamilyMember>, index: int): (r: seq<FamilyMember>)
    ensures 0 <= index < |family| ==> r == family[..index] + family[index + 1..]
    ensures !(0 <= index < |family|) ==> r == family
    decreases |family|
  {
    if family == [] then []
    else
      var rest := RemoveMember(family[1..], index - 1);
      if index == 0 then
        assert family[1..] == family[..0] + family[1..];
        rest
      else
        assert 0 < index < |family| ==> family[1..][..index - 1] == family[1..index];
        assert 0 < index < |family| ==> family[1..][index..] == family[index + 1..];
        [family[0]] + rest
  }

  /** The members after a removal: one fewer in range, each other member
      kept and shifted down past the removed position. */
  lemma RemoveKeepsOthers(family: seq<FamilyMember>, index: int, j: nat)
    requires 0 <= index < |family| && j < |family| && j != index
    ensures |RemoveMember(family, index)| == |family| - 1
    ensures RemoveMember(family, index)[if j < index then j else j - 1] == family[j]
  {
  }

  /** Removing the member just added gives back the roster. */
  lemma RemoveAfterAdd(e: Editor)
    requires CanAdd(e)
    ensures RemoveMember(AddMember(e).family, |e.family|) == e.family
  {
    var family := AddMember(e).family;
    assert family[..|e.family|] == e.family;
  }
}
