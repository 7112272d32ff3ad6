/** app/contact/actions.ts: the `sendContactEmail` server action. Its guards run in a fixed
    order; the mail provider's answer is an input. */
module ContactActions {
  import opened Wrappers
  import opened Strings

  /** What the form state records: `success`, and `error` (null on success). */
  datatype FormState = FormState(success: bool, error: Option<string>)

  /** The fields of the mail handed to the provider (the HTML body is not modelled). */
  datatype Mail = Mail(from: string, to: string, subject: string, replyTo: string, text: string)

  /** How `resend.emails.send` ends: no error, an `error` in the answer, or a throw. */
  datatype SendOutcome = Sent | ProviderError | Threw

  /** The action's result and the mail it sent, if it got that far. */
  datatype Outcome = Outcome(state: FormState, sent: Option<Mail>)

  const AllFieldsRequired := "All fields are required."
  const InvalidEmail := "Please enter a valid email address."
  const NotConfigured := "Email service is not configured. Please try again later."
  const SendFailed := "Failed to send message. Please try again later."
  const Unexpected := "An unexpected error occurred. Please try again later."
  const Mailbox := "tony@cosmicjs.com"

  /** A character of the class `[^\s@]`. */
  predicate PlainChar(c: char) {
    !IsWhitespace(c) && c != '@'
  }

  predicate AllPlain(t: string) {
    forall k :: 0 <= k < |t| ==> PlainChar(t[k])
  }

  /** What `/^[^\s@]+@[^\s@]+\.[^\s@]+$/` accepts: three non-empty runs of plain characters
      joined by an '@' and a '.'. */
  ghost predicate EmailPattern(s: string) {
    exists i, j :: PatternAt(s, i, j)
  }

  /** The match whose '@' is at `i` and whose '.' is at `j`. */
  predicate PatternAt(s: string, i: int, j: int) {
    && 0 < i && i + 1 < j && j + 1 < |s| && s[i] == '@' && s[j] == '.'
    && AllPlain(s[..i]) && AllPlain(s[i + 1..j]) && AllPlain(s[j + 1..])
  }

  /** The first index of `c` in `s`, or -1. */
  function IndexOf(s: string, c: char): (k: int)
    ensures -1 <= k < |s|
    ensures k == -1 <==> c !in s
    ensures k >= 0 ==> s[k] == c && c !in s[..k]
  {
    if s == [] then -1
    else if s[0] == c then 0
    else
      var k := IndexOf(s[1..], c);
      if k == -1 then -1
      else
        assert s[..k + 1] == [s[0]] + s[1..][..k];
        k + 1
  }

  /** The check the action can run: the part before the first '@' is a non-empty plain
      run, and the rest is plain, at least three long, with a '.' after its first
      character and before its last. */
  predicate IsEmail(s: string) {
    var at := IndexOf(s, '@');
    && at > 0
    && AllPlain(s[..at])
    && var domain := s[at + 1..];
       && |domain| >= 3
       && AllPlain(domain)
       && 0 <= IndexOf(domain[1..], '.') < |domain| - 2
  }

  /** The check accepts exactly what the regular expression accepts. */
  lemma IsEmailMatchesPattern(s: string)
    ensures IsEmail(s) <==> EmailPattern(s)
  {
    if EmailPattern(s) {
      var i, j :| PatternAt(s, i, j);
      PatternIsEmail(s, i, j);
    }
    if IsEmail(s) {
      IsEmailPattern(s);
    }
  }

  /** The '@' of a match is the first one, and its domain passes the dot test. */
  lemma PatternIsEmail(s: string, i: int, j: int)
    requires PatternAt(s, i, j)
    ensures IsEmail(s)
  {
    var local := s[..i];
    assert '@' !in local by {
      forall k | 0 <= k < |local| ensures local[k] != '@' {
        assert PlainChar(local[k]);
      }
    }
    var at := IndexOf(s, '@');
    assert at == i by {
      assert s[i] == '@';
    }
    var domain := s[i + 1..];
    var mid := s[i + 1..j];
    var tld := s[j + 1..];
    assert AllPlain(domain) by {
      forall k | 0 <= k < |domain| ensures PlainChar(domain[k]) {
        if k < |mid| {
          assert mid[k] == domain[k];
        } else if k > |mid| {
          assert tld[k - |mid| - 1] == domain[k];
        } else {
          assert domain[k] == s[j];
        }
      }
    }
    var rest := domain[1..];
    var jd := j - i - 2;
    assert rest[jd] == '.';
    var dot := IndexOf(rest, '.');
    assert dot <= jd;
  }

  /** A passing check names the '@' and the '.' of a match. */
  lemma IsEmailPattern(s: string)
    requires IsEmail(s)
    ensures EmailPattern(s)
  {
    var i := IndexOf(s, '@');
    var domain := s[i + 1..];
    var rest := domain[1..];
    var dot := IndexOf(rest, '.');
    var j := i + 2 + dot;
    assert s[j] == rest[dot];
    var mid := s[i + 1..j];
    var tld := s[j + 1..];
    assert AllPlain(mid) by {
      forall k | 0 <= k < |mid| ensures PlainChar(mid[k]) {
        assert mid[k] == domain[k];
      }
    }
    assert AllPlain(tld) by {
      forall k | 0 <= k < |tld| ensures PlainChar(tld[k]) {
        assert tld[k] == domain[k + dot + 2];
      }
    }
    assert PatternAt(s, i, j);
  }

  /** The mail the action sends. */
  function ContactMail(name: string, email: string, message: string): (m: Mail)
    ensures m.from == Mailbox && m.to == Mailbox && m.replyTo == email
    ensures m.subject == "Contact Form: Message from " + name
    ensures m.text == "Name: " + name + "\nEmail: " + email + "\n\nMessage:\n" + message
  {
    Mail(Mailbox, Mailbox, "Contact Form: Message from " + name, email,
         "Name: " + name + "\nEmail: " + email + "\n\nMessage:\n" + message)
  }

  function Failure(error: string): FormState {
    FormState(false, Some(error))
  }

  /** `sendContactEmail(prevState, formData)`: `name`, `email` and `message` are the form
      fields (null when absent), `apiKey` is `RESEND_API_KEY`, and `outcome` is what the
      provider does with the mail if one is sent. */
  function SendContactEmail(name: Option<string>, email: Option<string>, message: Option<string>,
                            apiKey: Option<string>, outcome: SendOutcome): (r: Outcome)
    ensures r.state.success <==> r.state.error.None?
    ensures !Truthy(name) || !Truthy(email) || !Truthy(message) ==> r == Outcome(Failure(AllFieldsRequired), None)
    ensures (Truthy(name) && Truthy(email) && Truthy(message)
             && (AllWhitespace(name.value) || AllWhitespace(email.value) || AllWhitespace(message.value)))
            ==> r == Outcome(Failure(AllFieldsRequired), None)
    ensures r.state.error == Some(InvalidEmail) ==> email.Some? && !EmailPattern(email.value)
    ensures r.state.error == Some(NotConfigured) ==> !Truthy(apiKey) && r.sent.None?
    ensures (Truthy(name) && Truthy(email) && Truthy(message)
             && !AllWhitespace(name.value) && !AllWhitespace(email.value) && !AllWhitespace(message.value)
             && !EmailPattern(email.value))
            ==> r == Outcome(Failure(InvalidEmail), None)
    ensures (Truthy(name) && Truthy(email) && Truthy(message)
             && !AllWhitespace(name.value) && !AllWhitespace(email.value) && !AllWhitespace(message.value)
             && EmailPattern(email.value) && !Truthy(apiKey))
            ==> r == Outcome(Failure(NotConfigured), None)
    ensures r.sent.Some? <==>
      && name.Some? && email.Some? && message.Some?
      && !AllWhitespace(name.value) && !AllWhitespace(email.value) && !AllWhitespace(message.value)
      && EmailPattern(email.value) && Truthy(apiKey)
    ensures r.sent.Some? ==> r.sent.value == ContactMail(name.value, email.value, message.value)
    ensures r.sent.Some? ==> r.state == match outcome
      case Sent => FormState(true, None)
      case ProviderError => Failure(SendFailed)
      case Threw => Failure(Unexpected)
    ensures r.state.success ==> r.sent.Some? && outcome.Sent?
  {
    if !Truthy(name) || !Truthy(email) || !Truthy(message) then Outcome(Failure(AllFieldsRequired), None)
    else
      TrimSpec(name.value);
      TrimSpec(email.value);
      TrimSpec(message.value);
      if Trim(name.value) == "" || Trim(email.value) == "" || Trim(message.value) == "" then
        Outcome(Failure(AllFieldsRequired), None)
      else if !IsEmail(email.value) then
        IsEmailMatchesPattern(email.value);
        Outcome(Failure(InvalidEmail), None)
      else if !Truthy(apiKey) then
        IsEmailMatchesPattern(email.value);
        Outcome(Failure(NotConfigured), None)
      else
        IsEmailMatchesPattern(email.value);
        var mail := ContactMail(name.value, email.value, message.value);
        match outcome
        case Sent => Outcome(FormState(true, None), Some(mail))
        case ProviderError => Outcome(Failure(SendFailed), Some(mail))
        case Threw => Outcome(Failure(Unexpected), Some(mail))
  }

  /** The format check runs on the untrimmed address: an address with leading whitespace
      is refused even when trimming would make it valid, nothing is sent, and neither the
      key nor the provider's answer matters. */
  lemma PaddedEmailRejected(name: string, email: string, message: string, apiKey: Option<string>, outcome: SendOutcome)
    requires !AllWhitespace(name) && !AllWhitespace(email) && !AllWhitespace(message)
    requires IsWhitespace(email[0])
    ensures SendContactEmail(Some(name), Some(email), Some(message), apiKey, outcome)
         == Outcome(Failure(InvalidEmail), None)
  {
    TrimNonBlank(name);
    TrimNonBlank(email);
    TrimNonBlank(message);
    assert !IsEmail(email) by {
      var at := IndexOf(email, '@');
      if at > 0 {
        assert !PlainChar(email[..at][0]);
      }
    }
  }
}
