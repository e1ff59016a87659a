/** The quote-request form: fields edited one at a time, cleared after each submission. */
module GetQuote {
  import opened Forms

  /** The fields of the quote form. */
  const QuoteFields: set<string> :=
    {"name", "email", "phone", "company", "service", "budget", "timeline", "description", "hearAbout"}

  /** The record the form starts with and returns to after a submission. */
  function InitialQuote(): (f: map<string, string>)
    ensures f.Keys == QuoteFields
    ensures f["service"] == "web"
    ensures forall k | k in f && k != "service" :: f[k] == ""
  {
    map[
      "name" := "",
      "email" := "",
      "phone" := "",
      "company" := "",
      "service" := "web",
      "budget" := "",
      "timeline" := "",
      "description" := "",
      "hearAbout" := ""
    ]
  }

  class QuotePage {
    var formData: map<string, string>

    constructor ()
      ensures formData == InitialQuote()
    {
      formData := InitialQuote();
    }

    /** `handleChange`: the named field takes the input's value; the others stay. */
    method HandleChange(name: string, value: string)
      modifies this
      ensures formData == SetField(old(formData), name, value)
    {
      formData := SetField(formData, name, value);
    }

    /**
      `handleSubmit`: hands the record to the outside world, then resets the form
      to the initial record, whatever was entered.
    */
    method HandleSubmit() returns (submitted: map<string, string>)
      modifies this
      ensures submitted == old(formData)
      ensures formData == InitialQuote()
    {
      submitted := formData;
      formData := InitialQuote();
    }
  }
}
