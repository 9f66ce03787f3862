/** The checkout form of the storefront's web client: its two fields, the
    error messages it shows under them, and the validation that decides
    whether the order is submitted. The component's state (`formData`,
    `errors`) becomes the fields of a `Form` object; the checks themselves
    are functions on strings. */
module CheckoutForm {
  import opened Wrappers

  // ------------------------------------------------------------ white space

  /** The characters ECMAScript counts as white space or line terminators:
      what `String.prototype.trim` strips and what `\s` matches (so `\S`
      matches every other character). */
  predicate IsSpace(c: char)
  {
    var n := c as int;
    || n == 0x09 || n == 0x0A || n == 0x0B || n == 0x0C || n == 0x0D
    || n == 0x20 || n == 0xA0 || n == 0x1680 || (0x2000 <= n <= 0x200A)
    || n == 0x2028 || n == 0x2029 || n == 0x202F || n == 0x205F
    || n == 0x3000 || n == 0xFEFF
  }

  /** Every character is white space (the empty string included). */
  predicate IsBlank(s: string)
  {
    forall i :: 0 <= i < |s| ==> IsSpace(s[i])
  }

  /** Strips leading white space. */
  function TrimStart(s: string): (r: string)
    ensures |r| <= |s| && r == s[|s| - |r|..]
    ensures r == [] || !IsSpace(r[0])
    ensures forall i :: 0 <= i < |s| - |r| ==> IsSpace(s[i])
  {
    if s != [] && IsSpace(s[0]) then TrimStart(s[1..]) else s
  }

  /** Strips trailing white space. */
  function TrimEnd(s: string): (r: string)
    ensures |r| <= |s| && r == s[..|r|]
    ensures r == [] || !IsSpace(r[|r| - 1])
    ensures forall i :: |r| <= i < |s| ==> IsSpace(s[i])
  {
    if s != [] && IsSpace(s[|s| - 1]) then TrimEnd(s[..|s| - 1]) else s
  }

  /** Trimming leaves nothing exactly when every character is white space. */
  lemma TrimEmptyIffBlank(s: string)
    ensures TrimEnd(TrimStart(s)) == [] <==> IsBlank(s)
  {
    var t := TrimStart(s);
    var r := TrimEnd(t);
    if t == [] {
      assert |s| - |t| == |s|;
    } else {
      assert t[0] == s[|s| - |t|];
    }
  }

  /** `s.trim()`: empty exactly when s is blank. */
  function Trim(s: string): (r: string)
    ensures r == [] <==> IsBlank(s)
  {
    TrimEmptyIffBlank(s);
    TrimEnd(TrimStart(s))
  }

  /** What `s.trim()` keeps starts and ends with a character that is not
      white space. */
  lemma TrimKeepsEnds(s: string)
    ensures var r := Trim(s);
      r != [] ==> !IsSpace(r[0]) && !IsSpace(r[|r| - 1])
  {
    var t := TrimStart(s);
    var r := TrimEnd(t);
    if r != [] {
      TrimEndKeepsFirst(t);
    }
  }

  lemma TrimEndKeepsFirst(t: string)
    requires TrimEnd(t) != []
    ensures TrimEnd(t)[0] == t[0]
  {
  }

  // ---------------------------------------------------------- email shape

  /** No white space in s[from..to]. */
  predicate NoSpaceIn(s: string, from: int, to: int)
    requires 0 <= from <= to <= |s|
  {
    forall m :: from <= m < to ==> !IsSpace(s[m])
  }

  /** s[i..l] is a match of `\S+@\S+\.\S+` whose `@` is at j and whose `.`
      is at k: three non-empty runs of non-space characters around them. */
  ghost predicate MatchAt(s: string, i: int, j: int, k: int, l: int)
  {
    && 0 <= i < j && j + 1 < k && k + 1 < l <= |s|
    && NoSpaceIn(s, i, j) && s[j] == '@'
    && NoSpaceIn(s, j + 1, k) && s[k] == '.'
    && NoSpaceIn(s, k + 1, l)
  }

  /** The pattern is not anchored: it matches anywhere in the string. */
  ghost predicate MatchesEmailPattern(s: string)
  {
    exists i, j, k, l :: MatchAt(s, i, j, k, l)
  }

  /** Scans on from k through the run of non-space characters that follows
      the `@` (already at least one character long), looking for a `.`
      that a non-space character follows. */
  function DottedRun(s: string, k: nat): bool
    requires k <= |s|
    decreases |s| - k
  {
    if k + 1 >= |s| then false
    else if IsSpace(s[k]) then false
    else if s[k] == '.' && !IsSpace(s[k + 1]) then true
    else DottedRun(s, k + 1)
  }

  /** Tries every position from j on as the `@` of a match. */
  function TestFrom(s: string, j: nat): bool
    requires j <= |s|
    decreases |s| - j
  {
    if j + 1 >= |s| then false
    else
      || (0 < j && !IsSpace(s[j - 1]) && s[j] == '@' && !IsSpace(s[j + 1]) && DottedRun(s, j + 2))
      || TestFrom(s, j + 1)
  }

  lemma {:induction false} DottedRunSound(s: string, k: nat) returns (d: nat)
    requires k <= |s| && DottedRun(s, k)
    ensures k <= d && d + 1 < |s| && s[d] == '.' && !IsSpace(s[d + 1]) && NoSpaceIn(s, k, d)
    decreases |s| - k
  {
    if s[k] == '.' && !IsSpace(s[k + 1]) {
      d := k;
    } else {
      d := DottedRunSound(s, k + 1);
    }
  }

  lemma {:induction false} DottedRunComplete(s: string, k: nat, d: nat)
    requires k <= d && d + 1 < |s| && s[d] == '.' && !IsSpace(s[d + 1]) && NoSpaceIn(s, k, d)
    ensures DottedRun(s, k)
    decreases d - k
  {
    if k < d && !(s[k] == '.' && !IsSpace(s[k + 1])) {
      DottedRunComplete(s, k + 1, d);
    }
  }

  lemma {:induction false} TestFromSound(s: string, j: nat) returns (at: nat, dot: nat)
    requires j <= |s| && TestFrom(s, j)
    ensures j <= at && 0 < at && MatchAt(s, at - 1, at, dot, dot + 2)
    decreases |s| - j
  {
    if 0 < j && !IsSpace(s[j - 1]) && s[j] == '@' && !IsSpace(s[j + 1]) && DottedRun(s, j + 2) {
      at := j;
      dot := DottedRunSound(s, j + 2);
    } else {
      at, dot := TestFromSound(s, j + 1);
    }
  }

  lemma {:induction false} TestFromComplete(s: string, j0: nat, i: int, j: int, k: int, l: int)
    requires j0 <= j && MatchAt(s, i, j, k, l)
    ensures TestFrom(s, j0)
    decreases j - j0
  {
    if j0 < j {
      TestFromComplete(s, j0 + 1, i, j, k, l);
    } else {
      assert !IsSpace(s[j - 1]) && !IsSpace(s[j + 1]);
      DottedRunComplete(s, j + 2, k);
    }
  }

  /** The scan finds a match exactly when the pattern has one. */
  lemma TestFromIff(s: string)
    ensures TestFrom(s, 0) <==> MatchesEmailPattern(s)
  {
    if TestFrom(s, 0) {
      var at, dot := TestFromSound(s, 0);
    } else {
      forall i, j, k, l | MatchAt(s, i, j, k, l) ensures false {
        TestFromComplete(s, 0, i, j, k, l);
      }
    }
  }

  /** `/\S+@\S+\.\S+/.test(s)`. */
  function TestEmail(s: string): (b: bool)
    ensures b <==> MatchesEmailPattern(s)
  {
    TestFromIff(s);
    TestFrom(s, 0)
  }

  /** Text around a match does not undo it: an address that matches still
      matches with anything written before or after it. */
  lemma PatternSurvivesPadding(before: string, s: string, after: string)
    requires MatchesEmailPattern(s)
    ensures MatchesEmailPattern(before + s + after)
  {
    var i, j, k, l :| MatchAt(s, i, j, k, l);
    var t := before + s + after;
    var n := |before|;
    assert forall m :: 0 <= m < |s| ==> t[n + m] == s[m];
    assert MatchAt(t, n + i, n + j, n + k, n + l);
  }

  // ------------------------------------------------------------ validation

  datatype Field = Name | Email

  datatype FormData = FormData(name: string, email: string)

  /** The messages the form records against a field; `Cleared` is the empty
      message `handleChange` writes over one. */
  datatype Message = NameRequired | EmailRequired | EmailInvalid | Cleared

  /** The text shown for a message. */
  function Text(m: Message): (t: string)
    ensures t == "" <==> m == Cleared
  {
    match m
    case NameRequired => "Name is required"
    case EmailRequired => "Email is required"
    case EmailInvalid => "Email is invalid"
    case Cleared => ""
  }

  /** `formData` with the edited field set to `value`. */
  function WithField(data: FormData, field: Field, value: string): (r: FormData)
    ensures field == Name ==> r.name == value && r.email == data.email
    ensures field == Email ==> r.email == value && r.name == data.name
  {
    match field
    case Name => data.(name := value)
    case Email => data.(email := value)
  }

  /** What the form accepts: a non-blank name and a non-blank email that
      matches the pattern. */
  ghost predicate Acceptable(data: FormData)
  {
    !IsBlank(data.name) && !IsBlank(data.email) && MatchesEmailPattern(data.email)
  }

  /** The error object `validateForm` builds: the name is required to be
      non-blank once trimmed; the email likewise, and only a non-blank one
      is then tested against the pattern. */
  function Validate(data: FormData): (errors: map<Field, Message>)
    ensures Name in errors ==> errors[Name] == NameRequired
    ensures Email in errors ==> errors[Email] == EmailRequired || errors[Email] == EmailInvalid
    ensures forall f :: f in errors ==> Text(errors[f]) != ""
  {
    var named: map<Field, Message> := if Trim(data.name) == "" then map[Name := NameRequired] else map[];
    if Trim(data.email) == "" then named[Email := EmailRequired]
    else if !TestEmail(data.email) then named[Email := EmailInvalid]
    else named
  }

  /** Which entries validation records, and with which messages. */
  lemma ValidateMessages(data: FormData)
    ensures Name in Validate(data) <==> IsBlank(data.name)
    ensures Name in Validate(data) ==> Validate(data)[Name] == NameRequired
    ensures Email in Validate(data) <==> IsBlank(data.email) || !MatchesEmailPattern(data.email)
    ensures Email in Validate(data) ==>
      Validate(data)[Email] == if IsBlank(data.email) then EmailRequired else EmailInvalid
  {
    assert Trim(data.name) == "" <==> IsBlank(data.name);
    assert Trim(data.email) == "" <==> IsBlank(data.email);
    assert TestEmail(data.email) <==> MatchesEmailPattern(data.email);
  }

  /** Validation records no error exactly when the form is acceptable. */
  lemma ValidateEmptyIff(data: FormData)
    ensures |Validate(data)| == 0 <==> Acceptable(data)
  {
    var errors := Validate(data);
    ValidateMessages(data);
    if |errors| == 0 {
      assert Name !in errors && Email !in errors;
    } else {
      var f :| f in errors;
    }
  }

  /** An acceptable form has a non-empty name and email, so the server's own
      check that both are present never refuses what the form submits. */
  lemma AcceptableFieldsNonEmpty(data: FormData)
    requires Acceptable(data)
    ensures data.name != "" && data.email != "" && |data.email| >= 5
  {
    var i, j, k, l :| MatchAt(data.email, i, j, k, l);
  }

  // ------------------------------------------------------------------ form

  /** The mounted component: the two inputs and the errors shown beneath them. */
  class Form {
    var formData: FormData
    var errors: map<Field, Message>

    constructor ()
      ensures formData == FormData("", "") && errors == map[]
    {
      formData := FormData("", "");
      errors := map[];
    }

    /** `handleChange`: sets the edited field, and clears that field's error
        (to the empty message) only if one is showing. */
    method HandleChange(field: Field, value: string)
      modifies this
      ensures formData == WithField(old(formData), field, value)
      ensures field == Name ==> formData.email == old(formData).email
      ensures field == Email ==> formData.name == old(formData).name
      ensures field in old(errors) && Text(old(errors)[field]) != "" ==> errors == old(errors)[field := Cleared]
      ensures !(field in old(errors) && Text(old(errors)[field]) != "") ==> errors == old(errors)
    {
      formData := WithField(formData, field, value);
      if field in errors && Text(errors[field]) != "" {
        errors := errors[field := Cleared];
      }
    }

    /** `validateForm`: fills a fresh error object check by check, stores it
        and reports whether it stayed empty. */
    method ValidateForm() returns (ok: bool)
      modifies this`errors
      ensures errors == Validate(formData)
      ensures ok <==> |errors| == 0
      ensures ok <==> Acceptable(formData)
    {
      var newErrors: map<Field, Message> := map[];
      if Trim(formData.name) == "" {
        newErrors := newErrors[Name := NameRequired];
      }
      if Trim(formData.email) == "" {
        newErrors := newErrors[Email := EmailRequired];
      } else if !TestEmail(formData.email) {
        newErrors := newErrors[Email := EmailInvalid];
      }
      errors := newErrors;
      ok := |newErrors| == 0;
      ValidateEmptyIff(formData);
    }

    /** `handleSubmit`: the form data is handed to `onSubmit` (returned
        here) only when validation passes. */
    method HandleSubmit() returns (submitted: Option<FormData>)
      modifies this`errors
      ensures errors == Validate(formData)
      ensures Acceptable(formData) ==> submitted == Some(formData)
      ensures !Acceptable(formData) ==> submitted == None
    {
      var valid := ValidateForm();
      if valid {
        submitted := Some(formData);
      } else {
        submitted := None;
      }
    }
  }
}
