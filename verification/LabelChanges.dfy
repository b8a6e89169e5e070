/** Sorting the label changes of a visibility into labels to add and labels to remove. */
module LabelChanges {
  import opened Types
  import opened World

  datatype Operation = Add | AddValues | Remove | RemoveValues | Unknown

  datatype LabelChange = LabelChange(operation: Operation, key: string, values: seq<string>)

  predicate Adds(c: LabelChange) {
    c.operation == Add || c.operation == AddValues
  }

  predicate Removes(c: LabelChange) {
    c.operation == Remove || c.operation == RemoveValues
  }

  predicate Selected(adding: bool, c: LabelChange) {
    if adding then Adds(c) else Removes(c)
  }

  /** The values that the changes of one kind carry for one key, in the order in which they come. */
  function ValuesFor(changes: seq<LabelChange>, adding: bool, key: string): seq<string> {
    if changes == [] then []
    else
      var c := changes[0];
      (if Selected(adding, c) && c.key == key then c.values else []) + ValuesFor(changes[1..], adding, key)
  }

  predicate Mentions(changes: seq<LabelChange>, adding: bool, key: string) {
    exists i | 0 <= i < |changes| :: Selected(adding, changes[i]) && changes[i].key == key
  }

  lemma {:induction false} ValuesForConcat(a: seq<LabelChange>, b: seq<LabelChange>, adding: bool, key: string)
    ensures ValuesFor(a + b, adding, key) == ValuesFor(a, adding, key) + ValuesFor(b, adding, key)
    decreases |a|
  {
    if a == [] {
      assert a + b == b;
    } else {
      var c := a[0];
      var head := if Selected(adding, c) && c.key == key then c.values else [];
      ValuesForConcat(a[1..], b, adding, key);
      assert a + b == [c] + (a[1..] + b);
      FirstValues(c, a[1..] + b, adding, key);
      FirstValues(c, a[1..], adding, key);
      assert a == [c] + a[1..];
      Regroup(head, ValuesFor(a[1..], adding, key), ValuesFor(b, adding, key));
    }
  }

  lemma FirstValues(c: LabelChange, rest: seq<LabelChange>, adding: bool, key: string)
    ensures ValuesFor([c] + rest, adding, key)
         == (if Selected(adding, c) && c.key == key then c.values else []) + ValuesFor(rest, adding, key)
  {
    assert ([c] + rest)[1..] == rest;
  }

  lemma Regroup(x: seq<string>, y: seq<string>, z: seq<string>)
    ensures x + (y + z) == x + y + z
  {
  }

  /** Every key that is mentioned has its values, all of them and in order; no other key is there. */
  ghost predicate Collects(changes: seq<LabelChange>, adding: bool, labels: Labels) {
    && (forall k :: k in labels <==> Mentions(changes, adding, k))
    && (forall k :: k in labels ==> labels[k] == ValuesFor(changes, adding, k))
  }

  function Appended(labels: Labels, key: string, values: seq<string>): Labels {
    labels[key := (if key in labels then labels[key] else []) + values]
  }

  lemma MentionsOneMore(changes: seq<LabelChange>, c: LabelChange, adding: bool, key: string)
    ensures Mentions(changes + [c], adding, key)
         <==> Mentions(changes, adding, key) || (Selected(adding, c) && c.key == key)
  {
    var longer := changes + [c];
    assert longer[|changes|] == c;
    assert forall i :: 0 <= i < |changes| ==> longer[i] == changes[i];
    if Mentions(changes, adding, key) {
      var i :| 0 <= i < |changes| && Selected(adding, changes[i]) && changes[i].key == key;
      assert longer[i] == changes[i];
    }
  }

  /** The labels after one more change. */
  function WithChange(labels: Labels, c: LabelChange, adding: bool): Labels {
    if Selected(adding, c) then Appended(labels, c.key, c.values) else labels
  }

  lemma CollectsOneMore(changes: seq<LabelChange>, c: LabelChange, adding: bool, labels: Labels)
    requires Collects(changes, adding, labels)
    ensures Collects(changes + [c], adding, WithChange(labels, c, adding))
  {
    forall k ensures k in WithChange(labels, c, adding) <==> Mentions(changes + [c], adding, k) {
      MentionsOneMore(changes, c, adding, k);
    }
    forall k | k in WithChange(labels, c, adding) {
      ValuesOneMore(changes, c, adding, labels, k);
    }
  }

  lemma ValuesOneMore(changes: seq<LabelChange>, c: LabelChange, adding: bool, labels: Labels, k: string)
    requires Collects(changes, adding, labels) && k in WithChange(labels, c, adding)
    ensures WithChange(labels, c, adding)[k] == ValuesFor(changes + [c], adding, k)
  {
    ValuesForConcat(changes, [c], adding, k);
    if k !in labels {
      NotMentionedHasNoValues(changes, adding, k);
    }
  }

  lemma {:induction false} NotMentionedHasNoValues(changes: seq<LabelChange>, adding: bool, key: string)
    requires !Mentions(changes, adding, key)
    ensures ValuesFor(changes, adding, key) == []
  {
    if changes != [] {
      assert forall i :: 0 <= i < |changes| - 1 ==> changes[1..][i] == changes[i + 1];
      NotMentionedHasNoValues(changes[1..], adding, key);
    }
  }

  /** A change with one of these operations carries the value for the key. */
  predicate CarriedBy(changes: seq<LabelChange>, operations: set<Operation>, key: string, value: string) {
    exists c :: c in changes && c.operation in operations && c.key == key && value in c.values
  }

  method LabelChangesToLabels(changes: seq<LabelChange>) returns (labelsToAdd: Labels, labelsToRemove: Labels)
    ensures Collects(changes, true, labelsToAdd)
    ensures Collects(changes, false, labelsToRemove)
    ensures forall key, value :: Holder(key, value) in Pairs(labelsToAdd)
              <==> CarriedBy(changes, {Add, AddValues}, key, value)
    ensures forall key, value :: Holder(key, value) in Pairs(labelsToRemove)
              <==> CarriedBy(changes, {Remove, RemoveValues}, key, value)
  {
    labelsToAdd, labelsToRemove := map[], map[];
    for i := 0 to |changes|
      invariant Collects(changes[..i], true, labelsToAdd)
      invariant Collects(changes[..i], false, labelsToRemove)
    {
      var c := changes[i];
      CollectsOneMore(changes[..i], c, true, labelsToAdd);
      CollectsOneMore(changes[..i], c, false, labelsToRemove);
      assert changes[..i + 1] == changes[..i] + [c];
      match c.operation
      case Add => labelsToAdd := Appended(labelsToAdd, c.key, c.values);
      case AddValues => labelsToAdd := Appended(labelsToAdd, c.key, c.values);
      case Remove => labelsToRemove := Appended(labelsToRemove, c.key, c.values);
      case RemoveValues => labelsToRemove := Appended(labelsToRemove, c.key, c.values);
      case Unknown =>
    }
    assert changes[..|changes|] == changes;
    PairsAreNamed(changes, labelsToAdd, labelsToRemove);
  }

  /** By operation: what is added comes from the additions alone, what is removed from the removals alone. */
  lemma PairsAreNamed(changes: seq<LabelChange>, add: Labels, remove: Labels)
    requires Collects(changes, true, add) && Collects(changes, false, remove)
    ensures forall key, value :: Holder(key, value) in Pairs(add)
              <==> CarriedBy(changes, {Add, AddValues}, key, value)
    ensures forall key, value :: Holder(key, value) in Pairs(remove)
              <==> CarriedBy(changes, {Remove, RemoveValues}, key, value)
  {
    forall key, value
      ensures Holder(key, value) in Pairs(add)
              <==> CarriedBy(changes, {Add, AddValues}, key, value)
      ensures Holder(key, value) in Pairs(remove)
              <==> CarriedBy(changes, {Remove, RemoveValues}, key, value)
    {
      PairsAreCarried(changes, true, add, Holder(key, value));
      PairsAreCarried(changes, false, remove, Holder(key, value));
    }
  }

  // ---- As (key, value) pairs ----

  /** The pair is among those that the changes of one kind carry. */
  predicate Carries(changes: seq<LabelChange>, adding: bool, a: Audience) {
    a.Holder? && exists i | 0 <= i < |changes| ::
      Selected(adding, changes[i]) && changes[i].key == a.key && a.value in changes[i].values
  }

  lemma {:induction false} ValuesAreCarried(changes: seq<LabelChange>, adding: bool, key: string, value: string)
    ensures value in ValuesFor(changes, adding, key) <==> Carries(changes, adding, Holder(key, value))
  {
    if changes != [] {
      var rest := changes[1..];
      ValuesAreCarried(rest, adding, key, value);
      assert forall i :: 0 <= i < |rest| ==> rest[i] == changes[i + 1];
      if Carries(rest, adding, Holder(key, value)) {
        var i :| 0 <= i < |rest| && Selected(adding, rest[i]) && rest[i].key == key && value in rest[i].values;
        assert changes[i + 1] == rest[i];
      }
      if Carries(changes, adding, Holder(key, value)) {
        var i :| 0 <= i < |changes| && Selected(adding, changes[i]) && changes[i].key == key
                 && value in changes[i].values;
        if i > 0 {
          assert rest[i - 1] == changes[i];
        }
      }
    }
  }

  /** No pair is lost, none is made up. */
  lemma PairsAreCarried(changes: seq<LabelChange>, adding: bool, labels: Labels, a: Audience)
    requires Collects(changes, adding, labels)
    ensures a in Pairs(labels) <==> Carries(changes, adding, a)
  {
    if a.Holder? {
      ValuesAreCarried(changes, adding, a.key, a.value);
      assert !Mentions(changes, adding, a.key) ==> !Carries(changes, adding, a);
      if a.key in labels && a.value in labels[a.key] {
        var i :| 0 <= i < |labels[a.key]| && labels[a.key][i] == a.value;
        assert a == Holder(a.key, labels[a.key][i]);
      }
    }
  }
}
