/** The contact form: fields edited one at a time, cleared after each message. */
module Contact {
  import opened Forms

  /** The fields of the contact form. */
  const ContactFields: set<string> := {"name", "email", "phone", "subject", "message", "service"}

  /** The record the form starts with and returns to after a submission. */
  function InitialContact(): (f: map<string, string>)
    ensures f.Keys == ContactFields
    ensures f["service"] == "web"
    ensures forall k | k in f && k != "service" :: f[k] == ""
  {
    map[
      "name" := "",
      "email" := "",
      "phone" := "",
      "subject" := "",
      "message" := "",
      "service" := "web"
    ]
  }

  class ContactPage {
    var formData: map<string, string>

    constructor ()
      ensures formData == InitialContact()
    {
      formData := InitialContact();
    }

    /** `handleChange`: the named field takes the input's value; the others stay. */
    method HandleChange(name: string, value: string)
      modifies this
      ensures formData == SetField(old(formData), name, value)
    {
      formData := SetField(formData, name, value);
    }

    /**
      `handleSubmit`: hands the record to the outside world, then resets the form
      to the initial record, whatever was entered.
    */
    method HandleSubmit() returns (submitted: map<string, string>)
      modifies this
      ensures submitted == old(formData)
      ensures formData == InitialContact()
    {
      submitted := formData;
      formData := InitialContact();
    }
  }
}
