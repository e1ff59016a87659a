/**
  The editor's profile page: a committed profile and a draft copy that the edit
  form changes, three lists of records (experience, education, certifications)
  with add, update and remove, and the comma-separated skills input.
*/
module EditorProfile {
  import opened Seqs
  import opened Text
  import opened Forms

  /**
    A record of one of the three lists: its identifier and its text fields,
    keyed by field name as `{ ...exp, [field]: value }` addresses them.
  */
  datatype Entry = Entry(id: int, fields: map<string, string>)

  /** The text fields of each kind of record. */
  const ExperienceFields: set<string> := {"company", "position", "duration", "description"}
  const EducationFields: set<string> := {"institution", "degree", "year"}
  const CertificationFields: set<string> := {"name", "issuer", "year"}

  /**
    The profile: its single-valued text fields (name, email, phone, location,
    website, about, specialization), the skills, the three editable lists and
    the portfolio list, which this page never changes.
  */
  datatype Profile = Profile(
    info: map<string, string>,
    skills: seq<string>,
    experience: seq<Entry>,
    education: seq<Entry>,
    certifications: seq<Entry>,
    portfolio: seq<Entry>)

  /** The identifiers of a list, in order. */
  function Ids(list: seq<Entry>): seq<int>
  {
    seq(|list|, i requires 0 <= i < |list| => list[i].id)
  }

  /** No identifier occurs twice. */
  predicate UniqueIds(list: seq<Entry>)
  {
    forall i, j | 0 <= i < j < |list| :: list[i].id != list[j].id
  }

  /** A record whose every field is the empty string. */
  function Blank(id: int, names: set<string>): Entry
  {
    Entry(id, map n | n in names :: "")
  }

  /** `add…`: one blank record with the given identifier placed after the existing ones. */
  function AddEntry(list: seq<Entry>, id: int, names: set<string>): (r: seq<Entry>)
    ensures |r| == |list| + 1
    ensures r[..|list|] == list
    ensures r[|list|].id == id
    ensures r[|list|].fields.Keys == names
    ensures forall n | n in names :: r[|list|].fields[n] == ""
  {
    list + [Blank(id, names)]
  }

  /** `update…`: field `field` of every record with identifier `id` set to `value`. */
  function UpdateEntry(list: seq<Entry>, id: int, field: string, value: string): (r: seq<Entry>)
    ensures |r| == |list|
    ensures Ids(r) == Ids(list)
    ensures forall i | 0 <= i < |list| && list[i].id != id :: r[i] == list[i]
    ensures forall i | 0 <= i < |list| && list[i].id == id ::
              r[i].fields == SetField(list[i].fields, field, value)
  {
    seq(|list|, i requires 0 <= i < |list| =>
      if list[i].id == id then list[i].(fields := SetField(list[i].fields, field, value)) else list[i])
  }

  /** `remove…`: every record with identifier `id` dropped, the others kept in order. */
  function RemoveEntry(list: seq<Entry>, id: int): (r: seq<Entry>)
    ensures IsSubsequence(r, list)
    ensures forall e | e in r :: e.id != id
    ensures forall e | e in list && e.id != id :: e in r
  {
    Filter(list, (e: Entry) => e.id != id)
  }

  /**
    Remove keeps every copy of a record with another identifier and no copy of
    one with that identifier; with the subsequence property this fixes the
    result completely (see Seqs.FilterUnique).
  */
  lemma RemoveEntryCount(list: seq<Entry>, id: int, e: Entry)
    ensures multiset(RemoveEntry(list, id))[e] == if e.id != id then multiset(list)[e] else 0
  {
    FilterCount(list, (x: Entry) => x.id != id, e);
  }

  /** Updating a record that is not there changes nothing. */
  lemma UpdateUnknownId(list: seq<Entry>, id: int, field: string, value: string)
    requires id !in Ids(list)
    ensures UpdateEntry(list, id, field, value) == list
  {
    var r := UpdateEntry(list, id, field, value);
    forall i | 0 <= i < |list| ensures r[i] == list[i] {
      assert Ids(list)[i] == list[i].id;
    }
  }

  /** Setting a field to the value it already has is a second time a no-op. */
  lemma UpdateIdempotent(list: seq<Entry>, id: int, field: string, value: string)
    ensures UpdateEntry(UpdateEntry(list, id, field, value), id, field, value)
         == UpdateEntry(list, id, field, value)
  {
    var once := UpdateEntry(list, id, field, value);
    var twice := UpdateEntry(once, id, field, value);
    forall i | 0 <= i < |list| ensures twice[i] == once[i] {
      assert Ids(once)[i] == Ids(list)[i];
    }
  }

  /** Removing a record that is not there changes nothing. */
  lemma RemoveUnknownId(list: seq<Entry>, id: int)
    requires id !in Ids(list)
    ensures RemoveEntry(list, id) == list
  {
    forall e | e in list ensures e.id != id {
      var i :| 0 <= i < |list| && list[i] == e;
      assert Ids(list)[i] == e.id;
    }
    FilterAllPass(list, (e: Entry) => e.id != id);
  }

  /** Adding a record under a fresh identifier and removing that identifier restores the list. */
  lemma AddThenRemove(list: seq<Entry>, id: int, names: set<string>)
    requires id !in Ids(list)
    ensures RemoveEntry(AddEntry(list, id, names), id) == list
  {
    FilterConcat(list, [Blank(id, names)], (e: Entry) => e.id != id);
    RemoveUnknownId(list, id);
  }

  /** A list with unique identifiers keeps them unique under add with a fresh identifier. */
  lemma AddKeepsIdsUnique(list: seq<Entry>, id: int, names: set<string>)
    requires UniqueIds(list) && id !in Ids(list)
    ensures UniqueIds(AddEntry(list, id, names))
  {
    var r := AddEntry(list, id, names);
    forall i, j | 0 <= i < j < |r| ensures r[i].id != r[j].id {
      if j == |list| {
        assert Ids(list)[i] == r[i].id;
      } else {
        assert r[i] == list[i] && r[j] == list[j];
      }
    }
  }

  /** Update leaves the identifiers as they are, so uniqueness is kept. */
  lemma UpdateKeepsIdsUnique(list: seq<Entry>, id: int, field: string, value: string)
    requires UniqueIds(list)
    ensures UniqueIds(UpdateEntry(list, id, field, value))
  {
  }

  /** A subsequence of a list with unique identifiers has unique identifiers. */
  lemma {:induction false} SubsequenceKeepsIdsUnique(r: seq<Entry>, list: seq<Entry>)
    requires IsSubsequence(r, list) && UniqueIds(list)
    ensures UniqueIds(r)
  {
    if r != [] {
      assert UniqueIds(list[1..]) by {
        forall i, j | 0 <= i < j < |list[1..]| ensures list[1..][i].id != list[1..][j].id {
          assert list[1..][i] == list[i + 1] && list[1..][j] == list[j + 1];
        }
      }
      if r[0] == list[0] && IsSubsequence(r[1..], list[1..]) {
        SubsequenceKeepsIdsUnique(r[1..], list[1..]);
        SubsequenceCount(r[1..], list[1..]);
        forall j | 0 < j < |r| ensures r[0].id != r[j].id {
          assert r[j] == r[1..][j - 1];
          assert r[j] in multiset(r[1..]);
          assert r[j] in list[1..];
          var k :| 0 <= k < |list[1..]| && list[1..][k] == r[j];
          assert list[k + 1] == r[j];
        }
      } else {
        SubsequenceKeepsIdsUnique(r, list[1..]);
      }
    }
  }

  /** Remove keeps a subsequence, so uniqueness is kept. */
  lemma RemoveKeepsIdsUnique(list: seq<Entry>, id: int)
    requires UniqueIds(list)
    ensures UniqueIds(RemoveEntry(list, id))
  {
    SubsequenceKeepsIdsUnique(RemoveEntry(list, id), list);
  }

  /** Every piece trimmed. */
  function TrimAll(parts: seq<string>): (r: seq<string>)
    ensures |r| == |parts|
    ensures forall i | 0 <= i < |parts| :: r[i] == Trim(parts[i])
  {
    seq(|parts|, i requires 0 <= i < |parts| => Trim(parts[i]))
  }

  /** The non-empty strings, in order. */
  function DropEmpty(xs: seq<string>): (r: seq<string>)
    ensures forall x | x in r :: x in xs && x != ""
    ensures forall x | x in xs && x != "" :: x in r
  {
    Filter(xs, (x: string) => x != "")
  }

  /** `handleSkillsChange`: split at commas, trim each piece, drop the empty ones. */
  function ParseSkills(input: string): (skills: seq<string>)
    ensures forall s | s in skills :: s != "" && IsTrimmed(s) && ',' !in s
  {
    var parts := Split(input, ',');
    var trimmed := TrimAll(parts);
    assert forall t | t in trimmed :: IsTrimmed(t) && ',' !in t by {
      forall t | t in trimmed ensures IsTrimmed(t) && ',' !in t {
        var i :| 0 <= i < |trimmed| && trimmed[i] == t;
        assert parts[i] in parts;
      }
    }
    DropEmpty(trimmed)
  }

  /** What the skills input displays while editing: `skills.join(', ')`. */
  function ShowSkills(skills: seq<string>): string
  {
    Join(skills, ", ")
  }

  /** A skill that survives a display-and-parse round: non-empty, trimmed, comma-free. */
  predicate IsCleanSkill(s: string)
  {
    s != "" && IsTrimmed(s) && ',' !in s
  }

  /** The entries after the first, each with the space that `join(', ')` puts before it. */
  function Spaced(skills: seq<string>): (r: seq<string>)
    ensures |r| == |skills|
    ensures forall i | 0 <= i < |skills| :: r[i] == " " + skills[i]
  {
    seq(|skills|, i requires 0 <= i < |skills| => " " + skills[i])
  }

  lemma {:induction false} JoinSpaced(skills: seq<string>)
    requires |skills| >= 1
    ensures Join(Spaced(skills), ",") == " " + Join(skills, ", ")
  {
    if |skills| > 1 {
      JoinSpaced(skills[1..]);
      assert Spaced(skills)[1..] == Spaced(skills[1..]);
    }
  }

  /**
    The comma and the space that `join(', ')` puts between two entries; kept
    apart so that the step is proved outside the larger context of its caller.
  */
  lemma CommaThenSpace(a: string, b: string)
    ensures a + "," + (" " + b) == a + ", " + b
  {
  }

  /** Joining with ", " is joining with "," after a space is put before every entry but the first. */
  lemma JoinCommaSpace(skills: seq<string>)
    requires |skills| >= 1
    ensures Join(skills, ", ") == Join([skills[0]] + Spaced(skills[1..]), ",")
  {
    var padded := [skills[0]] + Spaced(skills[1..]);
    if |skills| > 1 {
      var rest := skills[1..];
      assert padded[1..] == Spaced(rest);
      assert Join(padded, ",") == skills[0] + "," + Join(Spaced(rest), ",");
      JoinSpaced(rest);
      CommaThenSpace(skills[0], Join(rest, ", "));
    } else {
      assert Spaced(skills[1..]) == [];
      assert padded == [skills[0]];
    }
  }

  /** The pieces of a displayed skills list are the skills, each but the first after a space. */
  lemma SplitShownSkills(skills: seq<string>)
    requires |skills| >= 1
    requires forall s | s in skills :: IsCleanSkill(s)
    ensures Split(ShowSkills(skills), ',') == [skills[0]] + Spaced(skills[1..])
  {
    var padded := [skills[0]] + Spaced(skills[1..]);
    JoinCommaSpace(skills);
    forall p | p in padded ensures ',' !in p {
      var i :| 0 <= i < |padded| && padded[i] == p;
      assert skills[i] in skills;
    }
    SplitJoin(padded, ',');
  }

  /** Trimming those pieces gives the skills back. */
  lemma TrimShownPieces(skills: seq<string>)
    requires |skills| >= 1
    requires forall s | s in skills :: IsCleanSkill(s)
    ensures TrimAll([skills[0]] + Spaced(skills[1..])) == skills
  {
    var padded := [skills[0]] + Spaced(skills[1..]);
    forall i | 0 <= i < |skills| ensures TrimAll(padded)[i] == skills[i] {
      assert skills[i] in skills;
      if i == 0 {
        TrimOfTrimmed(skills[0]);
      } else {
        assert padded[i] == " " + skills[i];
        TrimAfterSpace(skills[i]);
      }
    }
  }

  /**
    Parsing what the skills input displays gives the skills back, as long as
    every skill is non-empty, trimmed and free of commas.
  */
  lemma ParseShowSkills(skills: seq<string>)
    requires forall s | s in skills :: IsCleanSkill(s)
    ensures ParseSkills(ShowSkills(skills)) == skills
  {
    if skills == [] {
      assert Split("", ',') == [""];
      assert TrimAll([""]) == [""];
      assert DropEmpty([""]) == [];
    } else {
      SplitShownSkills(skills);
      TrimShownPieces(skills);
      FilterAllPass(skills, (x: string) => x != "");
    }
  }

  /**
    One keystroke at the end of the skills input as the page handles it. The
    input shows `ShowSkills(skills)`, the browser appends `c`, and the handler
    parses that text back into the skills list, which the input shows next.
  */
  function KeystrokeAsWritten(skills: seq<string>, c: char): (r: seq<string>)
    ensures forall s | s in r :: IsCleanSkill(s)
  {
    ParseSkills(ShowSkills(skills) + [c])
  }

  /** Keystrokes typed one after the other at the end of the skills input, as the page handles them. */
  function TypeAsWritten(skills: seq<string>, keys: string): (r: seq<string>)
    ensures keys != [] ==> forall s | s in r :: IsCleanSkill(s)
    decreases |keys|
  {
    if keys == [] then skills else TypeAsWritten(KeystrokeAsWritten(skills, keys[0]), keys[1..])
  }

  /** A separator at the end of the text adds one empty piece to the split. */
  lemma {:induction false} SplitAppendSeparator(w: string, sep: char)
    ensures Split(w + [sep], sep) == Split(w, sep) + [""]
  {
    if w == [] {
      assert w + [sep] == [sep];
      assert [sep][1..] == [];
    } else {
      assert (w + [sep])[1..] == w[1..] + [sep];
      SplitAppendSeparator(w[1..], sep);
    }
  }

  /** An empty piece added at the end stays an empty piece after trimming. */
  lemma TrimAllAppendEmpty(parts: seq<string>)
    ensures TrimAll(parts + [""]) == TrimAll(parts) + [""]
  {
    TrimOfTrimmed("");
  }

  /** An empty piece added at the end is dropped. */
  lemma DropEmptyAppendEmpty(xs: seq<string>)
    ensures DropEmpty(xs + [""]) == DropEmpty(xs)
  {
    FilterConcat(xs, [""], (x: string) => x != "");
    FilterNonePass([""], (x: string) => x != "");
    assert DropEmpty(xs) + [] == DropEmpty(xs);
  }

  /** A comma at the end of the skills text does not change the parsed skills. */
  lemma ParseIgnoresTrailingComma(text: string)
    ensures ParseSkills(text + ",") == ParseSkills(text)
  {
    var parts := Split(text, ',');
    SplitAppendSeparator(text, ',');
    TrimAllAppendEmpty(parts);
    DropEmptyAppendEmpty(TrimAll(parts));
  }

  /** A comma typed at the end of the skills input disappears at once: the list, and so the display, stay the same. */
  lemma TypedCommaVanishes(skills: seq<string>)
    requires forall s | s in skills :: IsCleanSkill(s)
    ensures KeystrokeAsWritten(skills, ',') == skills
  {
    ParseIgnoresTrailingComma(ShowSkills(skills));
    ParseShowSkills(skills);
  }

  /** A "b" typed after the single skill "a" joins it. */
  lemma TypedBAfterA()
    ensures TypeAsWritten(["a"], "b") == ["ab"]
  {
    assert ShowSkills(["a"]) + ['b'] == "ab";
    ParseCleanSkill("ab");
    assert "b"[1..] == [];
  }

  /** A space and then a "b" typed after the single skill "a". */
  lemma TypedSpaceThenB()
    ensures TypeAsWritten(["a"], " b") == ["ab"]
  {
    TypedSpaceAfterA();
    TypedBAfterA();
    assert " b"[1..] == "b";
  }

  /** A comma-free text splits into itself alone. */
  lemma {:induction false} SplitWithoutSeparator(w: string, sep: char)
    requires sep !in w
    ensures Split(w, sep) == [w]
  {
    SplitPrefix(w, "", sep);
    assert w + "" == w;
  }

  /** A clean skill parses to itself. */
  lemma ParseCleanSkill(s: string)
    requires IsCleanSkill(s)
    ensures ParseSkills(s) == [s]
  {
    SplitWithoutSeparator(s, ',');
    TrimOfTrimmed(s);
    assert TrimAll([s]) == [s];
    FilterAllPass([s], (x: string) => x != "");
  }

  /** A space typed after the single skill "a" disappears as well. */
  lemma TypedSpaceAfterA()
    ensures KeystrokeAsWritten(["a"], ' ') == ["a"]
  {
    assert ShowSkills(["a"]) + [' '] == "a ";
    SplitWithoutSeparator("a ", ',');
    assert Trim("a ") == "a" by {
      assert TrimStart("a ") == "a ";
      assert "a "[..1] == "a";
    }
    assert TrimAll(["a "]) == ["a"];
    FilterAllPass(["a"], (x: string) => x != "");
  }

  /** Typing ", b" after the skill "a" gives the one skill "ab", not the two skills "a" and "b". */
  lemma TypingSecondSkillMerges()
    ensures TypeAsWritten(["a"], ", b") == ["ab"]
  {
    TypedSpaceThenB();
    TypedCommaVanishes(["a"]);
    assert ", b"[1..] == " b";
  }

  /**
    The skills input as evidently intended: it keeps the text the editor types,
    and the skills list is parsed from that text.
  */
  datatype SkillsBox = SkillsBox(text: string, skills: seq<string>)

  /** The box when edit mode opens: the committed skills, shown joined with ", ". */
  function OpenSkillsBox(skills: seq<string>): SkillsBox
  {
    SkillsBox(ShowSkills(skills), skills)
  }

  /** Keystrokes typed one after the other at the end of the intended skills box. */
  function TypeInSkillsBox(box: SkillsBox, keys: string): (r: SkillsBox)
    ensures r.text == box.text + keys
    ensures keys != [] ==> r.skills == ParseSkills(r.text)
    decreases |keys|
  {
    if keys == [] then
      box
    else
      var text := box.text + [keys[0]];
      assert text + keys[1..] == box.text + keys;
      TypeInSkillsBox(SkillsBox(text, ParseSkills(text)), keys[1..])
  }

  /** Appending one entry to a non-empty list adds ", " and the entry to its display. */
  lemma {:induction false} JoinAppend(skills: seq<string>, t: string)
    requires |skills| >= 1
    ensures Join(skills + [t], ", ") == Join(skills, ", ") + ", " + t
  {
    if |skills| > 1 {
      assert (skills + [t])[1..] == skills[1..] + [t];
      JoinAppend(skills[1..], t);
    } else {
      assert (skills + [t])[1..] == [t];
    }
  }

  /** In an empty box, ", " and a clean skill parse to that one skill: the empty piece before the comma is dropped. */
  lemma TypingFirstSkill(t: string)
    requires IsCleanSkill(t)
    ensures ParseSkills(", " + t) == [t]
  {
    SplitCommaSpace(t);
    TrimCommaSpacePieces(t);
    DropLeadingEmpty(t);
  }

  /** ", " followed by a comma-free text splits into an empty piece and the rest. */
  lemma SplitCommaSpace(t: string)
    requires ',' !in t
    ensures Split(", " + t, ',') == ["", " " + t]
  {
    var pieces := ["", " " + t];
    forall p | p in pieces ensures ',' !in p {
    }
    SplitJoin(pieces, ',');
    assert Join(pieces, ",") == ", " + t;
  }

  /** Trimming those pieces leaves the empty piece and the trimmed text. */
  lemma TrimCommaSpacePieces(t: string)
    requires IsTrimmed(t)
    ensures TrimAll(["", " " + t]) == ["", t]
  {
    TrimOfTrimmed("");
    TrimAfterSpace(t);
  }

  /** The empty piece is then dropped. */
  lemma DropLeadingEmpty(t: string)
    requires t != ""
    ensures DropEmpty(["", t]) == [t]
  {
    FilterConcat([""], [t], (x: string) => x != "");
    FilterNonePass([""], (x: string) => x != "");
    FilterAllPass([t], (x: string) => x != "");
    assert [""] + [t] == ["", t];
  }

  /** Typing ", " and a new skill at the end of the intended box adds that skill to the list. */
  lemma TypingAddsSkill(skills: seq<string>, t: string)
    requires forall s | s in skills :: IsCleanSkill(s)
    requires IsCleanSkill(t)
    ensures TypeInSkillsBox(OpenSkillsBox(skills), ", " + t).skills == skills + [t]
  {
    var box := TypeInSkillsBox(OpenSkillsBox(skills), ", " + t);
    assert box.skills == ParseSkills(ShowSkills(skills) + (", " + t));
    if skills == [] {
      assert ShowSkills(skills) + (", " + t) == ", " + t;
      TypingFirstSkill(t);
    } else {
      TypingNextSkill(skills, t);
    }
  }

  /** After a non-empty list of clean skills, ", " and a clean skill parse to the longer list. */
  lemma TypingNextSkill(skills: seq<string>, t: string)
    requires |skills| >= 1
    requires forall s | s in skills :: IsCleanSkill(s)
    requires IsCleanSkill(t)
    ensures ParseSkills(ShowSkills(skills) + (", " + t)) == skills + [t]
  {
    JoinAppend(skills, t);
    assert ShowSkills(skills) + (", " + t) == ShowSkills(skills + [t]);
    ParseShowSkills(skills + [t]);
  }

  /**
    The page's state: the committed profile, the draft the form edits, and
    whether the form is open.
  */
  class ProfileEditor {
    var profile: Profile
    var formData: Profile
    var isEditing: bool

    constructor (initial: Profile)
      ensures profile == initial && formData == initial && !isEditing
    {
      profile := initial;
      formData := initial;
      isEditing := false;
    }

    /**
      `toggleEditMode`: closing the form commits the draft as the profile;
      opening it starts the draft as a copy of the profile.
    */
    method ToggleEditMode()
      modifies this
      ensures isEditing == !old(isEditing)
      ensures old(isEditing) ==> profile == old(formData) && formData == old(formData)
      ensures !old(isEditing) ==> formData == old(profile) && profile == old(profile)
    {
      if isEditing {
        profile := formData;
        isEditing := false;
      } else {
        formData := profile;
        isEditing := true;
      }
    }

    /** `handleChange`: one text field of the draft set; the profile is untouched. */
    method HandleChange(name: string, value: string)
      modifies this`formData
      ensures formData == old(formData).(info := SetField(old(formData).info, name, value))
      ensures profile == old(profile) && isEditing == old(isEditing)
    {
      formData := formData.(info := SetField(formData.info, name, value));
    }

    /** `handleSkillsChange`: the draft's skills replaced by the parsed input. */
    method HandleSkillsChange(input: string)
      modifies this`formData
      ensures formData == old(formData).(skills := ParseSkills(input))
      ensures profile == old(profile) && isEditing == old(isEditing)
    {
      var skills := ParseSkills(input);
      formData := formData.(skills := skills);
    }

    /** `addExperience`, with the identifier the source takes from the clock passed in. */
    method AddExperience(id: int)
      modifies this`formData
      ensures formData == old(formData).(experience := AddEntry(old(formData).experience, id, ExperienceFields))
      ensures profile == old(profile) && isEditing == old(isEditing)
    {
      formData := formData.(experience := AddEntry(formData.experience, id, ExperienceFields));
    }

    method UpdateExperience(id: int, field: string, value: string)
      modifies this`formData
      ensures formData == old(formData).(experience := UpdateEntry(old(formData).experience, id, field, value))
      ensures profile == old(profile) && isEditing == old(isEditing)
    {
      formData := formData.(experience := UpdateEntry(formData.experience, id, field, value));
    }

    method RemoveExperience(id: int)
      modifies this`formData
      ensures formData == old(formData).(experience := RemoveEntry(old(formData).experience, id))
      ensures profile == old(profile) && isEditing == old(isEditing)
    {
      formData := formData.(experience := RemoveEntry(formData.experience, id));
    }

    method AddEducation(id: int)
      modifies this`formData
      ensures formData == old(formData).(education := AddEntry(old(formData).education, id, EducationFields))
      ensures profile == old(profile) && isEditing == old(isEditing)
    {
      formData := formData.(education := AddEntry(formData.education, id, EducationFields));
    }

    method UpdateEducation(id: int, field: string, value: string)
      modifies this`formData
      ensures formData == old(formData).(education := UpdateEntry(old(formData).education, id, field, value))
      ensures profile == old(profile) && isEditing == old(isEditing)
    {
      formData := formData.(education := UpdateEntry(formData.education, id, field, value));
    }

    method RemoveEducation(id: int)
      modifies this`formData
      ensures formData == old(formData).(education := RemoveEntry(old(formData).education, id))
      ensures profile == old(profile) && isEditing == old(isEditing)
    {
      formData := formData.(education := RemoveEntry(formData.education, id));
    }

    method AddCertification(id: int)
      modifies this`formData
      ensures formData == old(formData).(certifications :=
                AddEntry(old(formData).certifications, id, CertificationFields))
      ensures profile == old(profile) && isEditing == old(isEditing)
    {
      formData := formData.(certifications := AddEntry(formData.certifications, id, CertificationFields));
    }

    method UpdateCertification(id: int, field: string, value: string)
      modifies this`formData
      ensures formData == old(formData).(certifications :=
                UpdateEntry(old(formData).certifications, id, field, value))
      ensures profile == old(profile) && isEditing == old(isEditing)
    {
      formData := formData.(certifications := UpdateEntry(formData.certifications, id, field, value));
    }

    method RemoveCertification(id: int)
      modifies this`formData
      ensures formData == old(formData).(certifications := RemoveEntry(old(formData).certifications, id))
      ensures profile == old(profile) && isEditing == old(isEditing)
    {
      formData := formData.(certifications := RemoveEntry(formData.certifications, id));
    }
  }
}
