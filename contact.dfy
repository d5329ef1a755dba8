/**
  The contact page: the form's fields, its validation, the chat-webhook message built from it,
  and the state changes of editing a field and submitting. Whether the webhook accepted the
  message is an input here.
*/
module Contact {
  import opened Wrappers
  import opened Text
  import opened Seqs

  // ---------------------------------------------------------------------------------------------
  // The form's data

  /** The form's inputs, by their `name` attribute. */
  datatype Field = Name | Email | Phone | Service | RequestType | Message

  datatype ContactFormData = ContactFormData(
    name: string, email: string, phone: string, service: string, requestType: string, message: string)

  /** What the form holds when the page mounts and after a successful submission. */
  const InitialForm: ContactFormData :=
    ContactFormData("", "", "", "window-cleaning", "contact", "")

  function FieldValue(d: ContactFormData, f: Field): string {
    match f
    case Name => d.name
    case Email => d.email
    case Phone => d.phone
    case Service => d.service
    case RequestType => d.requestType
    case Message => d.message
  }

  /** `{ ...prev, [name]: value }`: the named field takes the new value and every other field keeps its own. */
  function WithField(d: ContactFormData, f: Field, value: string): (r: ContactFormData)
    ensures forall g :: FieldValue(r, g) == if g == f then value else FieldValue(d, g)
  {
    match f
    case Name => d.(name := value)
    case Email => d.(email := value)
    case Phone => d.(phone := value)
    case Service => d.(service := value)
    case RequestType => d.(requestType := value)
    case Message => d.(message := value)
  }

  // ---------------------------------------------------------------------------------------------
  // The e-mail pattern `/\S+@\S+\.\S+/`, unanchored

  /**
    The pattern as written: a span s[i..j] made of one or more non-space characters, an '@' at
    `at`, one or more non-space characters, a '.' at `dot`, and one or more non-space characters.
  */
  ghost predicate PatternSpan(s: string, i: int, at: int, dot: int, j: int) {
    && 0 <= i < at && at + 1 < dot && dot + 1 < j <= |s|
    && s[at] == '@' && s[dot] == '.'
    && (forall k :: i <= k < at ==> !IsSpace(s[k]))
    && (forall k :: at < k < dot ==> !IsSpace(s[k]))
    && (forall k :: dot < k < j ==> !IsSpace(s[k]))
  }

  /**
    The shortest match around an '@' at `at` and a '.' at `dot`: one non-space character before
    the '@', the non-space characters between, and one non-space character after the '.'.
  */
  predicate ShortestMatchAt(s: string, at: int, dot: int) {
    && 1 <= at && at + 1 < dot && dot + 1 < |s|
    && s[at] == '@' && s[dot] == '.'
    && forall k :: at - 1 <= k <= dot + 1 ==> !IsSpace(s[k])
  }

  /** `/\S+@\S+\.\S+/.test(s)` */
  predicate IsEmailLike(s: string) {
    exists at, dot | 0 <= at < |s| && 0 <= dot < |s| :: ShortestMatchAt(s, at, dot)
  }

  /** The test succeeds exactly when the pattern matches some span of the string. */
  lemma EmailPatternIff(s: string)
    ensures IsEmailLike(s) <==> exists i, at, dot, j :: PatternSpan(s, i, at, dot, j)
  {
    if IsEmailLike(s) {
      var at, dot :| 0 <= at < |s| && 0 <= dot < |s| && ShortestMatchAt(s, at, dot);
      assert PatternSpan(s, at - 1, at, dot, dot + 2);
    }
    if exists i, at, dot, j :: PatternSpan(s, i, at, dot, j) {
      var i, at, dot, j :| PatternSpan(s, i, at, dot, j);
      assert !IsSpace(s[at - 1]);
      assert ShortestMatchAt(s, at, dot);
    }
  }

  /** The pattern is not anchored: text before or after a match does not undo it. */
  lemma EmailPatternUnanchored(s: string, before: string, after: string)
    requires IsEmailLike(s)
    ensures IsEmailLike(before + s + after)
  {
    var at, dot :| 0 <= at < |s| && 0 <= dot < |s| && ShortestMatchAt(s, at, dot);
    var t := before + s + after;
    assert forall k :: 0 <= k < |s| ==> t[|before| + k] == s[k];
    assert ShortestMatchAt(t, |before| + at, |before| + dot);
  }

  /** A string the pattern matches is never blank, so "Email is invalid" never hides "Email is required". */
  lemma EmailLikeIsNotBlank(s: string)
    requires IsEmailLike(s)
    ensures !AllSpace(s)
  {
    var at, dot :| 0 <= at < |s| && 0 <= dot < |s| && ShortestMatchAt(s, at, dot);
    assert !IsSpace(s[at]);
  }

  lemma EmailPatternExamples()
    ensures IsEmailLike("a@b.c")
    ensures IsEmailLike(" jo@mail.example.com ")
    ensures !IsEmailLike("a@b")
    ensures !IsEmailLike("a @b.c")
    ensures !IsEmailLike("a@.c")
  {
    assert ShortestMatchAt("a@b.c", 1, 3);
    assert ShortestMatchAt(" jo@mail.example.com ", 3, 8);
    assert forall at :: 0 <= at < 6 && "a @b.c"[at] == '@' ==> at == 2;
    assert IsSpace("a @b.c"[1]);
  }

  // ---------------------------------------------------------------------------------------------
  // Validation

  /** The fields validation looks at; the service and the request type are never checked. */
  const ValidatedFields: set<Field> := {Name, Email, Phone, Message}

  /** The message one field gets, if any. */
  function FieldError(d: ContactFormData, f: Field): Option<string> {
    match f
    case Name => if IsBlank(d.name) then Some("Name is required") else None
    case Email =>
      if IsBlank(d.email) then Some("Email is required")
      else if !IsEmailLike(d.email) then Some("Email is invalid")
      else None
    case Phone => if IsBlank(d.phone) then Some("Phone number is required") else None
    case Message => if IsBlank(d.message) then Some("Message is required") else None
    case Service => None
    case RequestType => None
  }

  /** The error record validation produces: one entry per field with a message. */
  function ErrorsFor(d: ContactFormData): map<Field, string> {
    map f | f in ValidatedFields && FieldError(d, f).Some? :: FieldError(d, f).value
  }

  /**
    `validateForm`'s construction of `newErrors`: a fresh record, filled in by one conditional
    assignment per field, in the order name, email, phone, message.
  */
  method BuildErrors(d: ContactFormData) returns (newErrors: map<Field, string>)
    ensures newErrors == ErrorsFor(d)
  {
    newErrors := map[];
    if IsBlank(d.name) {
      newErrors := newErrors[Name := "Name is required"];
    }
    if IsBlank(d.email) {
      newErrors := newErrors[Email := "Email is required"];
    } else if !IsEmailLike(d.email) {
      newErrors := newErrors[Email := "Email is invalid"];
    }
    if IsBlank(d.phone) {
      newErrors := newErrors[Phone := "Phone number is required"];
    }
    if IsBlank(d.message) {
      newErrors := newErrors[Message := "Message is required"];
    }
    assert newErrors.Keys == ErrorsFor(d).Keys;
  }

  /**
    What validation reports, field by field: name, phone and message are flagged exactly when they
    are white space only; the e-mail is "required" when white space only, "invalid" when not blank
    but unmatched by the pattern, and never both.
  */
  lemma ErrorsForSpec(d: ContactFormData)
    ensures Name in ErrorsFor(d) <==> AllSpace(d.name)
    ensures Phone in ErrorsFor(d) <==> AllSpace(d.phone)
    ensures Message in ErrorsFor(d) <==> AllSpace(d.message)
    ensures Email in ErrorsFor(d) <==> AllSpace(d.email) || !IsEmailLike(d.email)
    ensures Email in ErrorsFor(d) ==>
      ErrorsFor(d)[Email] == if AllSpace(d.email) then "Email is required" else "Email is invalid"
    ensures Service !in ErrorsFor(d) && RequestType !in ErrorsFor(d)
  {
    BlankIffAllSpace(d.name);
    BlankIffAllSpace(d.email);
    BlankIffAllSpace(d.phone);
    BlankIffAllSpace(d.message);
  }

  /** The form is valid, i.e. the error record is empty, exactly when every check passes. */
  lemma ValidIff(d: ContactFormData)
    ensures ErrorsFor(d) == map[] <==>
      !AllSpace(d.name) && !AllSpace(d.phone) && !AllSpace(d.message) && IsEmailLike(d.email)
  {
    ErrorsForSpec(d);
    if IsEmailLike(d.email) {
      EmailLikeIsNotBlank(d.email);
    }
    if !AllSpace(d.name) && !AllSpace(d.phone) && !AllSpace(d.message) && IsEmailLike(d.email) {
      assert ErrorsFor(d).Keys == {};
    }
  }

  /** The initial form is invalid: every validated field but the service is empty. */
  lemma InitialFormErrors()
    ensures ErrorsFor(InitialForm) ==
      map[Name := "Name is required", Email := "Email is required",
          Phone := "Phone number is required", Message := "Message is required"]
  {
    assert IsBlank("");
  }

  // ---------------------------------------------------------------------------------------------
  // Labels in the webhook message

  /** `s.split("-")`: the pieces between dashes; there is always at least one. */
  function SplitOnDash(s: string): (parts: seq<string>)
    ensures |parts| >= 1
  {
    if s == [] then [[]]
    else
      var rest := SplitOnDash(s[1..]);
      if s[0] == '-' then [[]] + rest
      else [[s[0]] + rest[0]] + rest[1..]
  }

  /** `parts.join(sep)` */
  function Join(parts: seq<string>, sep: char): string
    requires |parts| >= 1
  {
    if |parts| == 1 then parts[0] else parts[0] + [sep] + Join(parts[1..], sep)
  }

  /** Splitting on "-" and joining with "-" gives the string back, and no piece holds a dash. */
  lemma {:induction false} SplitJoinRoundTrip(s: string)
    ensures Join(SplitOnDash(s), '-') == s
    ensures forall k :: 0 <= k < |SplitOnDash(s)| ==> '-' !in SplitOnDash(s)[k]
  {
    if s != [] {
      var rest := SplitOnDash(s[1..]);
      SplitJoinRoundTrip(s[1..]);
      if s[0] == '-' {
        assert SplitOnDash(s)[1..] == rest;
      } else {
        var parts := SplitOnDash(s);
        assert parts[1..] == rest[1..];
        if |rest| > 1 {
          assert Join(rest, '-') == rest[0] + ['-'] + Join(rest[1..], '-');
        }
        assert s == [s[0]] + s[1..];
      }
    }
  }

  /** The Service value in the message: `service.split("-").map(capitalize).join(" ")`. */
  function ServiceLabel(service: string): string {
    Join(Map(SplitOnDash(service), Capitalize), ' ')
  }

  /**
    The same label described character by character: a dash becomes a space, a letter at the
    start or right after a dash is upper-cased when `capFirst` says so for the start, and every
    other character is kept.
  */
  function CharwiseLabel(s: string, capFirst: bool): (r: string)
    ensures |r| == |s|
  {
    seq(|s|, i requires 0 <= i < |s| =>
      if s[i] == '-' then ' '
      else if (i == 0 && capFirst) || (i > 0 && s[i - 1] == '-') then UpperChar(s[i])
      else s[i])
  }

  /** The pieces joined with spaces, each capitalised except possibly the first. */
  function JoinCapitalized(parts: seq<string>, capFirst: bool): string
    requires |parts| >= 1
  {
    Join([if capFirst then Capitalize(parts[0]) else parts[0]] + Map(parts[1..], Capitalize), ' ')
  }

  /** The character-by-character label, one character at a time: the first is decided by `capFirst`, the rest by whether the first was a dash. */
  lemma CharwiseCons(s: string, capFirst: bool)
    requires s != []
    ensures CharwiseLabel(s, capFirst) ==
      [if s[0] == '-' then ' ' else if capFirst then UpperChar(s[0]) else s[0]]
      + CharwiseLabel(s[1..], s[0] == '-')
  {
  }

  lemma {:induction false} JoinCapitalizedCharwise(s: string, capFirst: bool)
    ensures JoinCapitalized(SplitOnDash(s), capFirst) == CharwiseLabel(s, capFirst)
  {
    if s != [] {
      CharwiseCons(s, capFirst);
      if s[0] == '-' {
        JoinCapitalizedCharwise(s[1..], true);
        JoinAfterDash(s, capFirst);
      } else {
        JoinCapitalizedCharwise(s[1..], false);
        JoinAfterLetter(s, capFirst);
      }
    }
  }

  /** A leading dash becomes a leading space, and the next piece is capitalised. */
  lemma JoinAfterDash(s: string, capFirst: bool)
    requires s != [] && s[0] == '-'
    ensures JoinCapitalized(SplitOnDash(s), capFirst) == [' '] + JoinCapitalized(SplitOnDash(s[1..]), true)
  {
    var rest := SplitOnDash(s[1..]);
    var parts := SplitOnDash(s);
    assert parts == [[]] + rest;
    assert parts[1..] == rest;
    var caps := Map(rest, Capitalize);
    assert caps == [Capitalize(rest[0])] + Map(rest[1..], Capitalize);
    assert Capitalize([]) == [];
  }

  /** A leading non-dash character stays in front, upper-cased only if `capFirst`, and the rest is not capitalised at its start. */
  lemma JoinAfterLetter(s: string, capFirst: bool)
    requires s != [] && s[0] != '-'
    ensures JoinCapitalized(SplitOnDash(s), capFirst) ==
      [if capFirst then UpperChar(s[0]) else s[0]] + JoinCapitalized(SplitOnDash(s[1..]), false)
  {
    var rest := SplitOnDash(s[1..]);
    var parts := SplitOnDash(s);
    var c := if capFirst then UpperChar(s[0]) else s[0];
    assert parts == [[s[0]] + rest[0]] + rest[1..];
    assert parts[1..] == rest[1..];
    assert (if capFirst then Capitalize(parts[0]) else parts[0]) == [c] + rest[0];
    JoinConsFirst(c, rest[0], Map(rest[1..], Capitalize));
  }

  /** Putting one character in front of the first piece puts it in front of the joined string. */
  lemma JoinConsFirst(c: char, first: string, rest: seq<string>)
    ensures Join([[c] + first] + rest, ' ') == [c] + Join([first] + rest, ' ')
  {
    if rest != [] {
      assert ([[c] + first] + rest)[1..] == rest;
      assert ([first] + rest)[1..] == rest;
    }
  }

  /**
    The Service label has the length of the service value; each dash becomes a space, each
    character at the start or after a dash is upper-cased, and every other character is kept.
  */
  lemma ServiceLabelCharwise(service: string)
    ensures ServiceLabel(service) == CharwiseLabel(service, true)
    ensures |ServiceLabel(service)| == |service|
  {
    var parts := SplitOnDash(service);
    assert Map(parts, Capitalize) == [Capitalize(parts[0])] + Map(parts[1..], Capitalize);
    JoinCapitalizedCharwise(service, true);
  }

  lemma WindowCleaningLabel(s: string)
    requires s == "window-cleaning"
    ensures ServiceLabel(s) == "Window Cleaning"
  {
    ServiceLabelCharwise(s);
    var r := CharwiseLabel(s, true);
    assert UpperChar('w') == 'W' && UpperChar('c') == 'C';
    assert r[0] == 'W' && r[6] == ' ' && r[7] == 'C';
    assert forall i | 1 <= i < |s| && i != 6 && i != 7 :: r[i] == s[i];
  }

  lemma ChristmasLightsLabel(s: string)
    requires s == "christmas-lights"
    ensures ServiceLabel(s) == "Christmas Lights"
  {
    ServiceLabelCharwise(s);
    var r := CharwiseLabel(s, true);
    assert UpperChar('c') == 'C' && UpperChar('l') == 'L';
    assert r[0] == 'C' && r[9] == ' ' && r[10] == 'L';
    assert forall i | 1 <= i < |s| && i != 9 && i != 10 :: r[i] == s[i];
  }

  /** The Request Type value: only its first letter is upper-cased. */
  function RequestTypeLabel(requestType: string): string {
    Capitalize(requestType)
  }

  function EmbedTitle(requestType: string): string {
    "New " + (if requestType == "quote" then "Quote Request" else "Contact Form") + " Submission"
  }

  /** The embed's colour: blue for a quote, purple for anything else. */
  function EmbedColor(requestType: string): int {
    if requestType == "quote" then 3447003 else 10181046
  }

  lemma RequestTypeExamples()
    ensures RequestTypeLabel("quote") == "Quote" && RequestTypeLabel("contact") == "Contact"
    ensures EmbedTitle("quote") == "New Quote Request Submission" && EmbedColor("quote") == 3447003
    ensures EmbedTitle("contact") == "New Contact Form Submission" && EmbedColor("contact") == 10181046
  {
    assert UpperChar('q') == 'Q' && "quote"[1..] == "uote";
    assert UpperChar('c') == 'C' && "contact"[1..] == "ontact";
  }

  /** Title and colour follow the same test: the blue colour goes with the quote title and only with it. */
  lemma TitleAgreesWithColor(requestType: string)
    ensures EmbedColor(requestType) == 3447003 <==> EmbedTitle(requestType) == "New Quote Request Submission"
  {
    if requestType != "quote" {
      assert EmbedTitle(requestType)[4] == 'C';
    }
  }

  /** One field of the embed; `inline` is absent on the message field. */
  datatype EmbedField = EmbedField(name: string, value: string, inline: Option<bool>)

  datatype Embed = Embed(title: string, color: int, fields: seq<EmbedField>, footer: string)

  /** The embed posted for a form, given the submission time as the browser formats it. */
  function DiscordMessage(d: ContactFormData, timestamp: string): Embed {
    Embed(
      EmbedTitle(d.requestType),
      EmbedColor(d.requestType),
      [ EmbedField("Name", d.name, Some(true)),
        EmbedField("Email", d.email, Some(true)),
        EmbedField("Phone", d.phone, Some(true)),
        EmbedField("Service", ServiceLabel(d.service), Some(true)),
        EmbedField("Request Type", RequestTypeLabel(d.requestType), Some(true)),
        EmbedField("Message", d.message, None) ],
      "Submitted at " + timestamp)
  }

  /** A quote request for window cleaning is reported as such, with the form's text untouched. */
  lemma QuoteMessageExample(d: ContactFormData, timestamp: string)
    requires d.requestType == "quote" && d.service == "window-cleaning"
    ensures var m := DiscordMessage(d, timestamp);
      && m.title == "New Quote Request Submission" && m.color == 3447003
      && m.fields[3].value == "Window Cleaning" && m.fields[4].value == "Quote"
      && m.fields[0].value == d.name && m.fields[5].value == d.message
  {
    WindowCleaningLabel(d.service);
  }

  /** The service choices; "multiple" is offered only for a quote. */
  function ServiceOptions(requestType: string): seq<string> {
    ["window-cleaning", "gutter-cleaning", "christmas-lights", "pressure-washing", "other"]
      + (if requestType == "quote" then ["multiple"] else [])
  }

  lemma MultipleOnlyForQuote(requestType: string)
    ensures "multiple" in ServiceOptions(requestType) <==> requestType == "quote"
    ensures "window-cleaning" in ServiceOptions(requestType)
  {
    var base := ["window-cleaning", "gutter-cleaning", "christmas-lights", "pressure-washing", "other"];
    assert "multiple" !in base by {
      forall k | 0 <= k < |base| ensures base[k] != "multiple" {
        assert base[k][0] != 'm';
      }
    }
    assert ServiceOptions(requestType)[0] == "window-cleaning";
  }

  /**
    Switching the request type back to "contact" does not touch the service, so a "multiple"
    chosen for a quote stays in the form although the list no longer offers it, and it is sent.
  */
  lemma MultipleSurvivesSwitch(d: ContactFormData)
    requires d.requestType == "quote" && d.service == "multiple"
    ensures var e := WithField(d, RequestType, "contact");
      && e.service == "multiple"
      && e.service !in ServiceOptions(e.requestType)
      && ServiceLabel(e.service) == "Multiple"
  {
    var e := WithField(d, RequestType, "contact");
    assert FieldValue(e, Service) == FieldValue(d, Service);
    MultipleOnlyForQuote(e.requestType);
    var s := e.service;
    assert SplitOnDash(s) == [s] by {
      assert forall i | 0 <= i < |s| :: s[i] != '-';
      SplitNoDash(s);
    }
    assert UpperChar('m') == 'M';
  }

  /** A string without a dash splits into itself. */
  lemma {:induction false} SplitNoDash(s: string)
    requires forall i | 0 <= i < |s| :: s[i] != '-'
    ensures SplitOnDash(s) == [s]
  {
    if s != [] {
      SplitNoDash(s[1..]);
      assert s == [s[0]] + s[1..];
    }
  }

  // ---------------------------------------------------------------------------------------------
  // The page's state

  class ContactPage {
    var formData: ContactFormData
    var errors: map<Field, string>
    var isSubmitted: bool
    var isSubmitting: bool

    /** Between events: errors name only validated fields, and no submission is in flight. */
    ghost predicate Valid()
      reads this
    {
      errors.Keys <= ValidatedFields && !isSubmitting
    }

    constructor ()
      ensures Valid()
      ensures formData == InitialForm && errors == map[] && !isSubmitted && !isSubmitting
    {
      formData := InitialForm;
      errors := map[];
      isSubmitted := false;
      isSubmitting := false;
    }

    /** `validateForm`: replaces the whole error record, so an old error on a now-valid field goes. */
    method ValidateForm() returns (ok: bool)
      requires Valid()
      modifies this`errors
      ensures Valid()
      ensures errors == ErrorsFor(formData)
      ensures ok <==> errors == map[]
    {
      var newErrors := BuildErrors(formData);
      errors := newErrors;
      ok := |newErrors| == 0;
    }

    /** Editing one input: that field takes the value and loses its error; nothing else changes. */
    method HandleInputChange(f: Field, value: string)
      requires Valid()
      modifies this`formData, this`errors
      ensures Valid()
      ensures formData == WithField(old(formData), f, value)
      ensures errors == old(errors) - {f}
    {
      formData := WithField(formData, f, value);
      if f in errors {
        errors := errors - {f};
      }
    }

    /**
      Submitting. Validation runs first; only a valid form is sent, built from the data as it was.
      `sendSucceeds` is whether the webhook accepted it: then the form returns to its initial values
      and the thank-you view shows; otherwise the data stays for another try. Either way the
      "sending" state is over when the method returns.
    */
    method HandleSubmit(sendSucceeds: bool, timestamp: string) returns (sent: Option<Embed>)
      requires Valid()
      modifies this
      ensures Valid()
      ensures errors == ErrorsFor(old(formData))
      ensures sent == if ErrorsFor(old(formData)) == map[] then Some(DiscordMessage(old(formData), timestamp)) else None
      ensures formData == if sent.Some? && sendSucceeds then InitialForm else old(formData)
      ensures isSubmitted == (old(isSubmitted) || (sent.Some? && sendSucceeds))
      ensures !isSubmitting
    {
      sent := None;
      var ok := ValidateForm();
      if ok {
        isSubmitting := true;
        sent := Some(DiscordMessage(formData, timestamp));
        if sendSucceeds {
          isSubmitted := true;
          formData := InitialForm;
        }
        isSubmitting := false;
      }
    }

    /** "Send Another Message" leaves the thank-you view. */
    method SendAnother()
      requires Valid()
      modifies this`isSubmitted
      ensures Valid()
      ensures !isSubmitted
    {
      isSubmitted := false;
    }
  }

}
