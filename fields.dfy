/** Field descriptors as the form uses them: the property a field edits and
    the validator it may carry. Labels, input kinds and change handlers
    belong to the rendering side and are not modelled. */
module Fields {
  import opened FormValues

  /** A validator receives the field's current value, or `undefined` when
      the form record has no such property. */
  datatype Field = Field(property: string, onValidate: Option<Option<Value> -> bool>)

  /** Whether field `f` accepts the current form record; a field without a
      validator always does. */
  predicate Accepts(f: Field, obj: map<string, Value>)
  {
    f.onValidate.Some? ==> f.onValidate.value(Lookup(obj, f.property))
  }

  /** The accumulated verdict after visiting `fields` in order, starting
      from `true` and AND-ing in each validator's answer. */
  predicate FieldsValid(fields: seq<Field>, obj: map<string, Value>)
    decreases |fields|
  {
    if fields == [] then true
    else
      var last := fields[|fields| - 1];
      if last.onValidate.Some? then FieldsValid(fields[..|fields| - 1], obj) && last.onValidate.value(Lookup(obj, last.property))
      else FieldsValid(fields[..|fields| - 1], obj)
  }

  /** The fields pass exactly when every field that has a validator accepts
      its value. */
  lemma {:induction false} FieldsValidMeans(fields: seq<Field>, obj: map<string, Value>)
    ensures FieldsValid(fields, obj) <==> forall i :: 0 <= i < |fields| ==> Accepts(fields[i], obj)
    decreases |fields|
  {
    if fields != [] {
      var init := fields[..|fields| - 1];
      FieldsValidMeans(init, obj);
      assert forall i :: 0 <= i < |init| ==> init[i] == fields[i];
    }
  }

  /** A field without a validator, wherever it stands, changes nothing. */
  lemma UnvalidatedFieldIgnored(before: seq<Field>, property: string, after: seq<Field>, obj: map<string, Value>)
    ensures FieldsValid(before + [Field(property, None)] + after, obj) == FieldsValid(before + after, obj)
  {
    var with, without := before + [Field(property, None)] + after, before + after;
    FieldsValidMeans(with, obj);
    FieldsValidMeans(without, obj);
    forall i | 0 <= i < |without| ensures Accepts(without[i], obj) == Accepts(with[if i < |before| then i else i + 1], obj) {
    }
    forall i | 0 <= i < |with| && i != |before| ensures Accepts(with[i], obj) == Accepts(without[if i < |before| then i else i - 1], obj) {
    }
  }

  /** `fields.find(f => f.property === property)`, as the index of the
      descriptor found: the first one editing `property`, or none. */
  function FindField(fields: seq<Field>, property: string): (r: Option<nat>)
    ensures r.None? <==> forall i :: 0 <= i < |fields| ==> fields[i].property != property
    ensures r.Some? ==> r.value < |fields| && fields[r.value].property == property
    ensures r.Some? ==> forall j :: 0 <= j < r.value ==> fields[j].property != property
    decreases |fields|
  {
    if fields == [] then None
    else if fields[0].property == property then Some(0)
    else
      match FindField(fields[1..], property)
      case None => None
      case Some(i) => Some(i + 1)
  }
}
