/** The waitlist route (packages/tiles-playground/app/api/waitlist/route.ts):
    an email is checked against `^[^\s@]+@[^\s@]+\.[^\s@]+$`, inserted,
    and a duplicate is reported by its Postgres error code. The insert
    is a function parameter. */
module Waitlist {
  import opened Common

  /** The characters JavaScript's `\s` matches. */
  predicate IsJsSpace(c: char)
  {
    c == ' ' || c == '\t' || c == '\n' || c as int == 11 || c as int == 12 || c == '\r'
    || c as int == 0xA0 || c as int == 0x1680 || (0x2000 <= c as int <= 0x200A)
    || c as int == 0x2028 || c as int == 0x2029 || c as int == 0x202F || c as int == 0x205F
    || c as int == 0x3000 || c as int == 0xFEFF
  }

  /** `[^\s@]`. */
  predicate Plain(c: char)
  {
    !IsJsSpace(c) && c != '@'
  }

  /** The regular expression, read as a shape: plain characters, one '@'
      at `k`, plain characters, a '.' at `m`, plain characters, each run
      non-empty. ('.' is itself plain, so the last '.' need not be `m`.) */
  ghost predicate MatchesPattern(s: string)
  {
    exists k, m :: 0 < k && k + 1 < m && m + 1 < |s| && s[k] == '@' && s[m] == '.'
      && forall i :: 0 <= i < |s| && i != k ==> Plain(s[i])
  }

  function IsAt(c: char): bool { c == '@' }

  /** The check as a computation: no whitespace, a first '@' that is not
      the first character and no '@' after it, and a '.' strictly inside
      the domain. */
  predicate ValidEmail(s: string)
  {
    (forall i :: 0 <= i < |s| ==> !IsJsSpace(s[i]))
    && match FindFirst(s, IsAt)
       case None => false
       case Some(k) =>
         var domain := s[k + 1..];
         k > 0 && (forall i :: 0 <= i < |domain| ==> domain[i] != '@')
         && |domain| >= 3 && '.' in domain[1..|domain| - 1]
  }

  /** The computed check accepts exactly what the expression matches. */
  lemma ValidEmailIsPattern(s: string)
    ensures ValidEmail(s) <==> MatchesPattern(s)
  {
    if ValidEmail(s) {
      ValidEmailMatches(s);
    }
    if MatchesPattern(s) {
      PatternIsValidEmail(s);
    }
  }

  lemma ValidEmailMatches(s: string)
    requires ValidEmail(s)
    ensures MatchesPattern(s)
  {
    var k := FindFirst(s, IsAt).value;
    var domain := s[k + 1..];
    var inner := domain[1..|domain| - 1];
    var j :| 0 <= j < |inner| && inner[j] == '.';
    var m := k + 2 + j;
    assert s[m] == inner[j];
    forall i | 0 <= i < |s| && i != k ensures Plain(s[i]) {
      if i > k {
        assert s[i] == domain[i - k - 1];
      }
    }
  }

  lemma PatternIsValidEmail(s: string)
    requires MatchesPattern(s)
    ensures ValidEmail(s)
  {
    var k, m :| 0 < k && k + 1 < m && m + 1 < |s| && s[k] == '@' && s[m] == '.'
      && forall i :: 0 <= i < |s| && i != k ==> Plain(s[i]);
    WitnessIsValidEmail(s, k, m);
  }

  lemma WitnessIsValidEmail(s: string, k: nat, m: nat)
    requires 0 < k && k + 1 < m && m + 1 < |s| && s[k] == '@' && s[m] == '.'
    requires forall i :: 0 <= i < |s| && i != k ==> Plain(s[i])
    ensures ValidEmail(s)
  {
    OnlyAt(s, k);
    NoSpace(s, k);
    var domain := s[k + 1..];
    assert forall i :: 0 <= i < |domain| ==> domain[i] != '@' by {
      forall i | 0 <= i < |domain| ensures domain[i] != '@' {
        assert domain[i] == s[k + 1 + i];
      }
    }
    var inner := domain[1..|domain| - 1];
    assert inner[m - k - 2] == s[m];
  }

  lemma NoSpace(s: string, k: nat)
    requires k < |s| && s[k] == '@'
    requires forall i :: 0 <= i < |s| && i != k ==> Plain(s[i])
    ensures forall i :: 0 <= i < |s| ==> !IsJsSpace(s[i])
  {
    assert !IsJsSpace('@');
  }

  /** The only '@' of a string is the first one. */
  lemma OnlyAt(s: string, k: nat)
    requires k < |s| && s[k] == '@'
    requires forall i :: 0 <= i < |s| && i != k ==> Plain(s[i])
    ensures FindFirst(s, IsAt) == Some(k)
  {
    assert IsAt(s[k]);
    assert forall j :: 0 <= j < |s| && j != k ==> !IsAt(s[j]);
  }

  lemma AcceptedExamples()
    ensures ValidEmail("a@b.co") && ValidEmail("a@b.c.d")
  {
    WitnessIsValidEmail("a@b.co", 1, 3);
    WitnessIsValidEmail("a@b.c.d", 1, 3);
  }

  /** An empty local part, a '.' right after the '@' or at the end, a
      second '@' and whitespace are each refused. */
  lemma RefusedExamples()
    ensures !ValidEmail("@b.co") && !ValidEmail("a@.co") && !ValidEmail("a@b.")
    ensures !ValidEmail("a@b@c.d") && !ValidEmail("a b@c.d")
  {
    assert FindFirst("@b.co", IsAt) == Some(0);
    assert FindFirst("a@.co", IsAt) == Some(1);
    assert "a@.co"[2..][1..|"a@.co"[2..]| - 1] == "c";
    assert FindFirst("a@b.", IsAt) == Some(1);
    assert FindFirst("a@b@c.d", IsAt) == Some(1);
    assert "a@b@c.d"[2..][1] == '@';
    assert IsJsSpace("a b@c.d"[1]);
  }

  /** What the insert does: succeeds, or fails with an error that may
      carry a Postgres code. */
  datatype InsertOutcome = Inserted | InsertFailed(code: Option<string>)

  datatype WaitlistReply = WaitlistReply(status: int, body: Json)

  function ErrorBody(message: string): Json
  {
    JObj(map["error" := JStr(message)])
  }

  /** The route. `body` is `None` when the request is not JSON, and
      `email` is `None` when it is absent or null. */
  function WaitlistReplyFor(body: Option<Option<string>>, insert: string -> InsertOutcome): WaitlistReply
  {
    if body.None? then WaitlistReply(500, ErrorBody("Failed to join waitlist"))
    else if !Present(body.value) || !ValidEmail(body.value.value) then
      WaitlistReply(400, ErrorBody("Invalid email address"))
    else
      match insert(body.value.value)
      case Inserted => WaitlistReply(200, JObj(map["success" := JBool(true)]))
      case InsertFailed(code) =>
        if code == Some("23505") then WaitlistReply(409, ErrorBody("Email already registered"))
        else WaitlistReply(500, ErrorBody("Failed to join waitlist"))
  }

  /** A rejected or missing email is answered with a 400 before the
      database is touched; only a pattern-matching email is ever inserted;
      a stored email is answered `{success: true}`; the code 23505 and no
      other is a 409 conflict, and every other failure, an unreadable body
      included, is a 500. */
  lemma WaitlistOutcomes(email: string, insert1: string -> InsertOutcome, insert2: string -> InsertOutcome)
    ensures !MatchesPattern(email) ==>
      WaitlistReplyFor(Some(Some(email)), insert1) == WaitlistReplyFor(Some(Some(email)), insert2)
      == WaitlistReply(400, ErrorBody("Invalid email address"))
    ensures WaitlistReplyFor(Some(Some(email)), insert1).status != 400 ==> MatchesPattern(email)
    ensures WaitlistReplyFor(Some(Some(email)), insert1).status == 200 <==>
      MatchesPattern(email) && insert1(email) == Inserted
    ensures WaitlistReplyFor(Some(Some(email)), insert1).status == 409 <==>
      MatchesPattern(email) && insert1(email) == InsertFailed(Some("23505"))
    ensures MatchesPattern(email) && insert1(email) == Inserted ==>
      WaitlistReplyFor(Some(Some(email)), insert1) == WaitlistReply(200, JObj(map["success" := JBool(true)]))
    ensures MatchesPattern(email) && insert1(email) == InsertFailed(Some("23505")) ==>
      WaitlistReplyFor(Some(Some(email)), insert1) == WaitlistReply(409, ErrorBody("Email already registered"))
    ensures MatchesPattern(email) && insert1(email).InsertFailed? && insert1(email).code != Some("23505") ==>
      WaitlistReplyFor(Some(Some(email)), insert1) == WaitlistReply(500, ErrorBody("Failed to join waitlist"))
    ensures WaitlistReplyFor(Some(None), insert1) == WaitlistReply(400, ErrorBody("Invalid email address"))
    ensures WaitlistReplyFor(None, insert1) == WaitlistReply(500, ErrorBody("Failed to join waitlist"))
  {
    ValidEmailIsPattern(email);
  }
}
