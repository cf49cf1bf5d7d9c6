/**
 * The contact form's submit handler: the required-field check, the email
 * shape check and what the page shows afterwards.
 */
module ContactForm {
  import opened Wrappers
  import opened Text

  // ---------------------------------------------------------------------
  // isValidEmail
  // ---------------------------------------------------------------------

  /** One character of the class `[^\s@]`. */
  predicate Plain(c: char)
  {
    !IsSpace(c) && c != '@'
  }

  /** A run of `[^\s@]` characters (possibly empty; the `+` is stated by the caller). */
  predicate AllPlain(s: string)
  {
    forall i :: 0 <= i < |s| ==> Plain(s[i])
  }

  /**
   * `s` matches `^[^\s@]+@[^\s@]+\.[^\s@]+$` with its '@' at `at` and the
   * '.' that the `\.` consumes at `dot`.
   */
  predicate EmailSplit(s: string, at: int, dot: int)
  {
    0 < at && at + 1 < dot && dot + 1 < |s| &&
    s[at] == '@' && s[dot] == '.' &&
    AllPlain(s[..at]) && AllPlain(s[at + 1..dot]) && AllPlain(s[dot + 1..])
  }

  /** The language of the regular expression, stated by its shape. */
  ghost predicate MatchesEmailPattern(s: string)
  {
    exists at, dot :: EmailSplit(s, at, dot)
  }

  /** No character of `s` is whitespace. */
  predicate NoSpace(s: string)
  {
    forall i :: 0 <= i < |s| ==> !IsSpace(s[i])
  }

  /** The position of the first `c` in `s`. */
  function IndexOf(s: string, c: char): (r: Option<nat>)
    ensures r == None <==> c !in s
    ensures r.Some? ==> r.value < |s| && s[r.value] == c && c !in s[..r.value]
  {
    if |s| == 0 then None
    else if s[0] == c then Some(0)
    else
      match IndexOf(s[1..], c)
      case None => None
      case Some(i) =>
        assert s[..i + 1] == [s[0]] + s[1..][..i];
        Some(i + 1)
  }

  /**
   * `isValidEmail`, computed: no whitespace, a first '@' that is not the
   * first character and has no second '@' after it, and a '.' at least two
   * places after the '@' that is not the last character.
   */
  function IsValidEmail(email: string): (b: bool)
    ensures b ==> |email| >= 5
  {
    NoSpace(email) &&
    match IndexOf(email, '@')
    case None => false
    case Some(at) =>
      0 < at && '@' !in email[at + 1..] && at + 3 <= |email| && '.' in email[at + 2..|email| - 1]
  }

  /** The computed check accepts exactly the strings the regular expression matches. */
  lemma ValidEmailIffPattern(s: string)
    ensures IsValidEmail(s) <==> MatchesEmailPattern(s)
  {
    if IsValidEmail(s) {
      var at := IndexOf(s, '@').value;
      var k :| 0 <= k < |s[at + 2..|s| - 1]| && s[at + 2..|s| - 1][k] == '.';
      var dot := at + 2 + k;
      assert s[dot] == '.';
      var local, domain, rest, tail := s[..at], s[at + 1..dot], s[at + 1..], s[dot + 1..];
      forall i | 0 <= i < |local| ensures Plain(local[i]) {
        assert local[i] == s[i];
      }
      forall i | 0 <= i < |domain| ensures Plain(domain[i]) {
        assert domain[i] == rest[i];
      }
      forall i | 0 <= i < |tail| ensures Plain(tail[i]) {
        assert tail[i] == rest[dot - at + i];
      }
      assert EmailSplit(s, at, dot);
    }
    if MatchesEmailPattern(s) {
      var at, dot :| EmailSplit(s, at, dot);
      PlainPositions(s, at, dot);
      assert IndexOf(s, '@') == Some(at) by {
        var r := IndexOf(s, '@');
        assert '@' in s by { assert s[at] == '@'; }
        assert s[r.value] == '@' && s[dot] != '@';
      }
      assert '@' !in s[at + 1..] by {
        var rest := s[at + 1..];
        forall i | 0 <= i < |rest| ensures rest[i] != '@' {
          assert rest[i] == s[at + 1 + i];
        }
      }
      assert s[at + 2..|s| - 1][dot - at - 2] == '.';
    }
  }

  /** Every position other than the '@' and the '.' holds a plain character. */
  lemma PlainPositions(s: string, at: int, dot: int)
    requires EmailSplit(s, at, dot)
    ensures forall i | 0 <= i < |s| && i != at && i != dot :: Plain(s[i])
    ensures NoSpace(s)
  {
    forall i | 0 <= i < |s| && i != at && i != dot ensures Plain(s[i]) {
      if i < at {
        assert s[..at][i] == s[i];
      } else if i < dot {
        assert s[at + 1..dot][i - at - 1] == s[i];
      } else {
        assert s[dot + 1..][i - dot - 1] == s[i];
      }
    }
  }

  /**
   * What an accepted address looks like: exactly one '@', not first, no
   * whitespace, and at least five characters ("a@b.c").
   */
  lemma ValidEmailShape(s: string)
    requires IsValidEmail(s)
    ensures NoSpace(s) && |s| >= 5
    ensures exists at :: 0 < at < |s| && s[at] == '@' && forall i | 0 <= i < |s| && i != at :: s[i] != '@'
  {
    ValidEmailIffPattern(s);
    var at, dot :| EmailSplit(s, at, dot);
    PlainPositions(s, at, dot);
  }

  // ---------------------------------------------------------------------
  // handleContactForm
  // ---------------------------------------------------------------------

  /** The four `FormData.get` results; `None` stands for `null` (no such field). */
  datatype Fields = Fields(name: Option<string>, email: Option<string>, subject: Option<string>, message: Option<string>)

  datatype Outcome = MissingRequired | InvalidEmail | Sent

  datatype Kind = Success | Error | Info
  datatype Notification = Notification(text: string, kind: Kind)

  const RequiredText := "Please fill in all required fields."
  const InvalidEmailText := "Please enter a valid email address."
  const ThanksText := "Thank you for your message! I'll get back to you soon."

  /**
   * The two checks of `handleContactForm`, in order: name, email and
   * message must be truthy, then the email must have the right shape; the
   * subject is never looked at.
   */
  function Validate(f: Fields): (o: Outcome)
    ensures o == MissingRequired <==> Falsy(f.name) || Falsy(f.email) || Falsy(f.message)
    ensures o == Sent <==> !Falsy(f.name) && !Falsy(f.message) && f.email.Some? && MatchesEmailPattern(f.email.value)
  {
    if Falsy(f.name) || Falsy(f.email) || Falsy(f.message) then MissingRequired
    else
      ValidEmailIffPattern(f.email.value);
      if !IsValidEmail(f.email.value) then InvalidEmail
      else Sent
  }

  /** The subject is optional: it never changes the outcome. */
  lemma SubjectIgnored(f: Fields, subject: Option<string>)
    ensures Validate(f.(subject := subject)) == Validate(f)
  {
  }

  /** The required check comes first: a missing field is reported whatever the email looks like. */
  lemma RequiredBeforeEmail(f: Fields, email: string)
    requires Falsy(f.name) || Falsy(f.message)
    ensures Validate(f.(email := Some(email))) == MissingRequired
  {
  }

  /** The message shown for each outcome. */
  function NotificationFor(o: Outcome): (n: Notification)
    ensures n.kind == Success <==> o == Sent
  {
    match o
    case MissingRequired => Notification(RequiredText, Error)
    case InvalidEmail => Notification(InvalidEmailText, Error)
    case Sent => Notification(ThanksText, Success)
  }

  /** `form.reset()` on a form without default values: every field that exists becomes empty. */
  function Reset(f: Fields): (r: Fields)
    ensures Validate(r) == MissingRequired
  {
    Fields(Clear(f.name), Clear(f.email), Clear(f.subject), Clear(f.message))
  }

  function Clear(v: Option<string>): (r: Option<string>)
    ensures Falsy(r) && (r == None <==> v == None)
  {
    if v == None then None else Some("")
  }

  /**
   * The contact form on the page and the notification currently shown
   * (`showNotification` first removes the previous one).
   */
  class ContactFormHandler {
    var fields: Fields
    var notification: Option<Notification>

    constructor (fields: Fields)
      ensures this.fields == fields && notification == None
    {
      this.fields := fields;
      notification := None;
    }

    /** `handleContactForm`: validate, notify, and clear the form only after a successful send. */
    method HandleSubmit() returns (o: Outcome)
      modifies this
      ensures o == Validate(old(fields))
      ensures notification == Some(NotificationFor(o))
      ensures fields == if o == Sent then Reset(old(fields)) else old(fields)
    {
      var name, email, message := fields.name, fields.email, fields.message;
      if Falsy(name) || Falsy(email) || Falsy(message) {
        notification := Some(Notification(RequiredText, Error));
        return MissingRequired;
      }
      if !IsValidEmail(email.value) {
        notification := Some(Notification(InvalidEmailText, Error));
        return InvalidEmail;
      }
      notification := Some(Notification(ThanksText, Success));
      fields := Reset(fields);
      o := Sent;
    }
  }
}
