/** The profile's personal-information card: required fields and the email
    pattern checked on save, cancel restoring the saved values, and the skill
    list editor. */
module PersonalInfo {

  import opened Opt
  import opened Text
  import opened TagLists

  datatype Info = Info(
    fullName: String,
    email: String,
    phone: String,
    location: String,
    linkedin: String,
    github: String,
    portfolio: String,
    summary: String,
    skills: seq<String>)

  /** The message shown under each checked field, if any. */
  datatype Errors = Errors(fullName: Option<String>, email: Option<String>, phone: Option<String>)

  const NoErrors := Errors(None, None, None)

  // ---------------------------------------------------------------------------
  // The email pattern `\S+@\S+\.\S+`, searched anywhere in the text

  /** A match whose `@` is at `a` and whose `.` is at `d`: a visible
      character before the `@`, only visible characters between the two
      (at least one), and a visible character after the `.`. */
  predicate MatchesAt(s: String, a: int, d: int)
    requires 1 <= a < d < |s| - 1
  {
    && s[a] == '@' && s[d] == '.' && a + 1 < d
    && !IsSpace(s[a - 1]) && !IsSpace(s[d + 1])
    && forall k | a < k < d :: !IsSpace(s[k])
  }

  predicate EmailPattern(s: String) {
    exists a, d | 1 <= a < d < |s| - 1 :: MatchesAt(s, a, d)
  }

  /** The regular-expression search, one `@` at a time, each followed by the
      run of visible characters after it. */
  method TestEmailPattern(s: String) returns (ok: bool)
    ensures ok <==> EmailPattern(s)
  {
    var a := 1;
    while a < |s| - 1
      invariant 1 <= a
      invariant forall a', d | 1 <= a' < a && a' < d < |s| - 1 :: !MatchesAt(s, a', d)
    {
      if s[a] == '@' && !IsSpace(s[a - 1]) {
        var d := a + 1;
        while d < |s| - 1 && !IsSpace(s[d])
          invariant a + 1 <= d <= |s|
          invariant forall k | a < k < d :: !IsSpace(s[k])
          invariant forall d' | a < d' < d && d' < |s| - 1 :: !MatchesAt(s, a, d')
        {
          if d > a + 1 && s[d] == '.' && !IsSpace(s[d + 1]) {
            assert MatchesAt(s, a, d);
            return true;
          }
          d := d + 1;
        }
        assert forall d' | d <= d' < |s| - 1 :: !MatchesAt(s, a, d') by {
          forall d' | d <= d' < |s| - 1 ensures !MatchesAt(s, a, d') {
            if d' > d {
              assert a < d < d';
            }
          }
        }
      }
      a := a + 1;
    }
    return false;
  }

  /** A string the pattern accepts holds an `@`, so it is not blank. */
  lemma EmailPatternNotBlank(s: String)
    ensures EmailPattern(s) ==> !IsBlank(s)
  {
    if EmailPattern(s) {
      var a, d :| 1 <= a < d < |s| - 1 && MatchesAt(s, a, d);
      assert !IsSpace(s[a]);
    }
  }

  /** What the pattern accepts and refuses, on a few addresses. */
  lemma EmailPatternExamples()
    ensures EmailPattern("a@b.c")
    ensures !EmailPattern("a@b")
    ensures !EmailPattern("a@.c")
    ensures EmailPattern("see: a@b.c")
  {
    assert MatchesAt("a@b.c", 1, 3);
    var s := "see: a@b.c";
    assert MatchesAt(s, 6, 8);
  }

  // ---------------------------------------------------------------------------
  // Validation and the form

  /** `validateForm`: the name and phone must not be blank; the email must
      not be blank and must hold the pattern. */
  function Validate(i: Info): (e: Errors)
    ensures e.fullName.Some? <==> IsBlank(i.fullName)
    ensures e.phone.Some? <==> IsBlank(i.phone)
    ensures e.email.None? <==> EmailPattern(i.email)
    ensures IsBlank(i.email) ==> e.email == Some("Email is required")
    ensures e == NoErrors <==> !IsBlank(i.fullName) && !IsBlank(i.phone) && EmailPattern(i.email)
  {
    EmailPatternNotBlank(i.email);
    Errors(
      if Trim(i.fullName) == [] then Some("Name is required") else None,
      if Trim(i.email) == [] then Some("Email is required")
      else if !EmailPattern(i.email) then Some("Invalid email format")
      else None,
      if Trim(i.phone) == [] then Some("Phone number is required") else None)
  }

  /** The card: editing or not, the values being edited, the errors shown. */
  datatype Form = Form(isEditing: bool, edited: Info, errors: Errors)

  function InitialForm(saved: Info): Form { Form(false, saved, NoErrors) }

  /** The Edit button: the form opens on the values and errors it holds. */
  function StartEditing(f: Form): (r: Form)
    ensures r.isEditing && r.edited == f.edited && r.errors == f.errors
  {
    f.(isEditing := true)
  }

  /** `handleSave`: the edited values are handed up only when they pass
      validation, and only then does editing end; the errors shown are the
      fresh ones either way. */
  function Save(f: Form): (r: (Form, Option<Info>))
    ensures r.1.Some? <==> Validate(f.edited) == NoErrors
    ensures r.1.Some? ==> r.1.value == f.edited && !r.0.isEditing
    ensures r.1.None? ==> r.0.isEditing == f.isEditing
    ensures r.0.edited == f.edited && r.0.errors == Validate(f.edited)
  {
    var e := Validate(f.edited);
    if e == NoErrors then (Form(false, f.edited, e), Some(f.edited))
    else (f.(errors := e), None)
  }

  /** `handleCancel`: back to the saved values, no errors, not editing. */
  function Cancel(f: Form, saved: Info): (r: Form)
    ensures r == InitialForm(saved)
  {
    Form(false, saved, NoErrors)
  }

  /** A failed save leaves the card open; fixing nothing and saving again
      fails the same way. */
  lemma FailedSaveIsStable(f: Form)
    requires Validate(f.edited) != NoErrors
    ensures Save(Save(f).0) == Save(f)
  {}

  /** Cancelling after any edits and then saving hands up the saved values,
      when those were valid. */
  lemma CancelThenSave(f: Form, saved: Info)
    requires Validate(saved) == NoErrors
    ensures Save(Cancel(f, saved)).1 == Some(saved)
  {}

  // ---------------------------------------------------------------------------
  // Skills

  /** `handleSkillAdd`: the trimmed skill is appended when it is not blank
      and not listed yet. */
  function AddSkill(i: Info, skill: String): (r: Info)
    ensures var t := Trim(skill);
            if t != [] && t !in i.skills then r.skills == i.skills + [t] else r.skills == i.skills
    ensures r.(skills := i.skills) == i
  {
    var t := Trim(skill);
    if t != [] && t !in i.skills then i.(skills := i.skills + [t]) else i
  }

  /** `handleSkillRemove`: every equal entry goes. */
  function RemoveSkill(i: Info, skill: String): (r: Info)
    ensures skill !in r.skills
    ensures forall y | y != skill :: y in r.skills <==> y in i.skills
    ensures r.(skills := i.skills) == i
  {
    i.(skills := RemoveAll(i.skills, skill))
  }

  /** Adding a new skill and removing it again gives the profile back, and
      the list never gains a duplicate. */
  lemma AddThenRemoveSkill(i: Info, skill: String)
    requires Trim(skill) != [] && Trim(skill) !in i.skills
    ensures RemoveSkill(AddSkill(i, skill), Trim(skill)) == i
  {
    var t := Trim(skill);
    RemoveAllAppend(i.skills, [t], t);
    assert RemoveAll([t], t) == [];
  }

  lemma AddSkillKeepsDuplicateFree(i: Info, skill: String)
    requires NoDuplicates(i.skills)
    ensures NoDuplicates(AddSkill(i, skill).skills)
  {
    var t := Trim(skill);
    if t != [] && t !in i.skills {
      NoDuplicatesAppend(i.skills, t);
    }
  }
}
