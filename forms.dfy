/**
  The update every form handler performs: `setFormData(prev => ({ ...prev, [name]: value }))`.
  A form record is a map from field name to value.
*/
module Forms {

  /** The record with field `name` set to `value`; every other field is kept as it was. */
  function SetField<V>(form: map<string, V>, name: string, value: V): (r: map<string, V>)
    ensures name in r && r[name] == value
    ensures r.Keys == form.Keys + {name}
    ensures forall k | k in form && k != name :: r[k] == form[k]
  {
    form[name := value]
  }
}
