/**
 * /api/waitlist: POST adds a validated email to the in-memory list unless it
 * is already there; GET lists the stored emails in signup order.
 */
module Waitlist {
  import opened JsRuntime
  import opened Json

  // ---------------------------------------------------------------------------
  // The email pattern ^[^\s@]+@[^\s@]+\.[^\s@]+$

  /** The characters of the regular-expression class \s. */
  predicate IsSpace(c: char)
  {
    || c == ' ' || c == '\t' || c == '\n' || c == '\r'
    || c as int == 0x0B || c as int == 0x0C || c as int == 0xA0 || c as int == 0x1680
    || (0x2000 <= c as int <= 0x200A)
    || c as int == 0x2028 || c as int == 0x2029 || c as int == 0x202F || c as int == 0x205F
    || c as int == 0x3000 || c as int == 0xFEFF
  }

  /** A character of the class [^\s@]. */
  predicate MailChar(c: char)
  {
    !IsSpace(c) && c != '@'
  }

  predicate AllMail(s: string)
  {
    forall k :: 0 <= k < |s| ==> MailChar(s[k])
  }

  /**
   * The regular expression's language: one or more class characters, '@', one
   * or more, '.', one or more, and nothing else.
   */
  ghost predicate MatchesEmailPattern(s: string)
  {
    exists i, j :: 0 < i && i + 1 < j && j + 1 < |s| && s[i] == '@' && s[j] == '.' &&
      AllMail(s[..i]) && AllMail(s[i + 1..j]) && AllMail(s[j + 1..])
  }

  /** The position of the first '@'. */
  function FirstAt(s: string): (r: Option<nat>)
    ensures r.Some? ==> r.value < |s| && s[r.value] == '@' && forall k :: 0 <= k < r.value ==> s[k] != '@'
    ensures r.None? ==> forall k :: 0 <= k < |s| ==> s[k] != '@'
  {
    if s == [] then None
    else if s[0] == '@' then Some(0)
    else
      var r := FirstAt(s[1..]);
      if r.Some? then Some(r.value + 1) else None
  }

  /** A '.' that is neither the first nor the last character. */
  predicate InnerDot(d: string)
  {
    exists k :: 0 < k < |d| - 1 && d[k] == '.'
  }

  /**
   * `emailRegex.test(email)`: a non-empty local part before the first '@',
   * then a domain, and neither holds whitespace or another '@'; the domain has
   * an inner '.'.
   */
  predicate ValidEmail(s: string)
  {
    var at := FirstAt(s);
    && at.Some? && at.value > 0
    && AllMail(s[..at.value]) && AllMail(s[at.value + 1..])
    && InnerDot(s[at.value + 1..])
  }

  lemma AllMailSlice(d: string, lo: nat, hi: nat)
    requires AllMail(d) && lo <= hi <= |d|
    ensures AllMail(d[lo..hi])
  {
    assert forall m :: 0 <= m < hi - lo ==> d[lo..hi][m] == d[lo + m];
  }

  /** Class characters around a '.' make a domain of class characters. */
  lemma AllMailAroundDot(d: string, k: nat)
    requires k < |d| && d[k] == '.' && AllMail(d[..k]) && AllMail(d[k + 1..])
    ensures AllMail(d)
  {
    forall m | 0 <= m < |d| ensures MailChar(d[m]) {
      if m < k {
        assert d[m] == d[..k][m];
      } else if m > k {
        assert d[m] == d[k + 1..][m - k - 1];
      }
    }
  }

  lemma ValidEmailIsPattern(s: string)
    requires ValidEmail(s)
    ensures MatchesEmailPattern(s)
  {
    var i := FirstAt(s).value;
    var d := s[i + 1..];
    var k :| 0 < k < |d| - 1 && d[k] == '.';
    var j := i + 1 + k;
    assert s[i + 1..j] == d[..k];
    assert s[j + 1..] == d[k + 1..];
    AllMailSlice(d, 0, k);
    AllMailSlice(d, k + 1, |d|);
  }

  lemma PatternIsValidEmail(s: string, i: nat, j: nat)
    requires 0 < i && i + 1 < j && j + 1 < |s| && s[i] == '@' && s[j] == '.'
    requires AllMail(s[..i]) && AllMail(s[i + 1..j]) && AllMail(s[j + 1..])
    ensures ValidEmail(s)
  {
    assert forall k :: 0 <= k < i ==> s[..i][k] == s[k];
    assert FirstAt(s) == Some(i);
    var d := s[i + 1..];
    var k := j - i - 1;
    assert d[..k] == s[i + 1..j];
    assert d[k + 1..] == s[j + 1..];
    AllMailAroundDot(d, k);
  }

  /** The check accepts exactly the strings the regular expression matches. */
  lemma ValidEmailMatchesPattern(s: string)
    ensures ValidEmail(s) <==> MatchesEmailPattern(s)
  {
    if ValidEmail(s) {
      ValidEmailIsPattern(s);
    }
    if MatchesEmailPattern(s) {
      var i, j :| 0 < i && i + 1 < j && j + 1 < |s| && s[i] == '@' && s[j] == '.' &&
        AllMail(s[..i]) && AllMail(s[i + 1..j]) && AllMail(s[j + 1..]);
      PatternIsValidEmail(s, i, j);
    }
  }

  /** A valid email holds exactly one '@'. */
  lemma ValidEmailSingleAt(s: string)
    requires ValidEmail(s)
    ensures forall k :: 0 <= k < |s| && s[k] == '@' ==> k == FirstAt(s).value
  {
    var i := FirstAt(s).value;
    assert forall k :: i < k < |s| ==> s[k] == s[i + 1..][k - i - 1];
  }

  // ---------------------------------------------------------------------------
  // The handlers

  datatype Reply = Reply(status: nat, body: Value)

  function ErrorReply(status: nat, error: string): Reply
  {
    Reply(status, Obj([Member("error", Str(error))]))
  }

  const Joined: Reply := Reply(200, Obj([Member("success", Bool(true)), Member("message", Str("Successfully joined waitlist"))]))
  const Note: string := "In-memory storage - use Vercel Postgres for production"

  /** What happens to a signup body: the email to store, or the answer that rejects it. */
  datatype Outcome = Accept(email: string) | Reject(reply: Reply)

  /** `const { email } = await request.json()` and the two checks. */
  function Screen(body: Result<Value>): (o: Outcome)
    ensures o.Accept? ==> o.email != [] && ValidEmail(o.email)
  {
    match body
    case Throw(_) => Reject(ErrorReply(500, "Failed to join waitlist. Please try again."))
    case Ok(b) =>
      match Prop(b, "email")
      case Throw(_) => Reject(ErrorReply(500, "Failed to join waitlist. Please try again."))
      case Ok(email) =>
        if !Truthy(email) || !email.Str? then Reject(ErrorReply(400, "Email is required"))
        else if !ValidEmail(email.s) then Reject(ErrorReply(400, "Invalid email address"))
        else Accept(email.s)
  }

  /** The store after a signup and the answer to it. */
  function Signup(store: seq<string>, body: Result<Value>): (seq<string>, Reply)
  {
    match Screen(body)
    case Reject(reply) => (store, reply)
    case Accept(email) => (if email in store then store else store + [email], Joined)
  }

  /** The answer to GET. */
  function Listing(store: seq<string>): (r: Reply)
    ensures r.status == 200 && r.body.Obj?
  {
    Reply(200, Obj([
      Member("emails", Arr(seq(|store|, k requires 0 <= k < |store| => Str(store[k])))),
      Member("count", Num(|store| as real)),
      Member("note", Str(Note))]))
  }

  ghost predicate NoDuplicates(store: seq<string>)
  {
    forall i, j :: 0 <= i < j < |store| ==> store[i] != store[j]
  }

  /** The module-level waitlistEmails array and the two handlers. */
  class WaitlistStore {
    var emails: seq<string>

    ghost predicate Valid()
      reads this
    {
      NoDuplicates(emails)
    }

    constructor()
      ensures Valid() && emails == []
    {
      emails := [];
    }

    method Post(body: Result<Value>) returns (r: Reply)
      requires Valid()
      modifies this
      ensures Valid()
      ensures (emails, r) == Signup(old(emails), body)
    {
      var outcome := Screen(body);
      if outcome.Reject? {
        return outcome.reply;
      }
      var email := outcome.email;
      if email !in emails {
        SignupKeepsDistinct(emails, body);
        emails := emails + [email];
      }
      return Joined;
    }

    method Get() returns (r: Reply)
      ensures r == Listing(emails)
    {
      r := Listing(emails);
    }
  }

  // ---------------------------------------------------------------------------
  // Properties

  /** A signup never introduces a duplicate. */
  lemma SignupKeepsDistinct(store: seq<string>, body: Result<Value>)
    requires NoDuplicates(store)
    ensures NoDuplicates(Signup(store, body).0)
  {
  }

  /** The old store is a prefix of the new one, which is at most one longer. */
  lemma SignupAppends(store: seq<string>, body: Result<Value>)
    ensures var s := Signup(store, body).0;
      store <= s && |s| <= |store| + 1
  {
  }

  /** A rejected signup leaves the store as it was. */
  lemma RejectedUnchanged(store: seq<string>, body: Result<Value>)
    requires Signup(store, body).1.status != 200
    ensures Signup(store, body).0 == store
  {
  }

  /** A missing, empty or non-string email is answered 400 'Email is required'. */
  lemma EmailRequired(store: seq<string>, b: Value)
    requires Prop(b, "email").Ok?
    ensures var email := Prop(b, "email").value;
      (!Truthy(email) || !email.Str?) ==> Signup(store, Ok(b)) == (store, ErrorReply(400, "Email is required"))
  {
  }

  /** A string email the pattern rejects is answered 400 'Invalid email address'. */
  lemma InvalidEmailRejected(store: seq<string>, b: Value, email: string)
    requires Prop(b, "email") == Ok(Str(email)) && email != [] && !MatchesEmailPattern(email)
    ensures Signup(store, Ok(b)) == (store, ErrorReply(400, "Invalid email address"))
  {
    ValidEmailMatchesPattern(email);
  }

  /** Submitting the same body twice stores no more than submitting it once, and succeeds both times. */
  lemma SignupIdempotent(store: seq<string>, body: Result<Value>)
    ensures var (s1, r1) := Signup(store, body);
      Signup(s1, body) == (s1, r1)
  {
  }

  /** A valid email is stored afterwards, whether it was new or not. */
  lemma AcceptedStored(store: seq<string>, b: Value, email: string)
    requires Prop(b, "email") == Ok(Str(email)) && email != [] && MatchesEmailPattern(email)
    ensures Signup(store, Ok(b)).1 == Joined && email in Signup(store, Ok(b)).0
  {
    ValidEmailMatchesPattern(email);
  }

  /** GET lists the store in order with its length as the count. */
  lemma ListingSound(store: seq<string>)
    ensures var ms := Listing(store).body.members;
      && Lookup(ms, "emails") == Arr(seq(|store|, k requires 0 <= k < |store| => Str(store[k])))
      && Lookup(ms, "count") == Num(|store| as real)
  {
    var ms := Listing(store).body.members;
    assert "count"[0] == 'c' && "emails"[0] == 'e';
    assert Lookup(ms, "count") == Lookup(ms[1..], "count");
  }
}
