/**
 * The phone and e-mail checks the address form and the sign-up form share,
 * written as recognisers. Each is paired with a constructive description
 * of the strings it accepts, and the two are proved to agree.
 */
module Validators {
  import opened Wrappers
  import opened Strings

  // ---------------------------------------------------------------------
  // Phone numbers: an optional '+', an optional '(', three digits, an
  // optional ')', an optional separator, three digits, an optional
  // separator, then four to six digits, and nothing else.

  /** A separator between digit groups: '-', '.' or white space. */
  predicate IsSeparator(c: char)
  {
    c == '-' || c == '.' || IsSpace(c)
  }

  /** The parts of an accepted phone number. */
  datatype PhoneShape = PhoneShape(
    plus: bool, open: bool, area: string, close: bool,
    sep1: Option<char>, exchange: string, sep2: Option<char>, line: string)

  predicate WellFormedPhone(p: PhoneShape)
  {
    |p.area| == 3 && AllDigits(p.area)
    && |p.exchange| == 3 && AllDigits(p.exchange)
    && 4 <= |p.line| <= 6 && AllDigits(p.line)
    && (p.sep1.Some? ==> IsSeparator(p.sep1.value))
    && (p.sep2.Some? ==> IsSeparator(p.sep2.value))
  }

  function Flag(present: bool, c: char): string
  {
    if present then [c] else []
  }

  function SepText(sep: Option<char>): string
  {
    if sep.Some? then [sep.value] else []
  }

  /** The text after the area code. */
  function RenderAfterArea(p: PhoneShape): string
  {
    Flag(p.close, ')') + (SepText(p.sep1) + (p.exchange + (SepText(p.sep2) + p.line)))
  }

  /** The phone number the parts spell. */
  function RenderPhone(p: PhoneShape): string
  {
    Flag(p.plus, '+') + (Flag(p.open, '(') + (p.area + RenderAfterArea(p)))
  }

  /** Splits off a leading character when it is c. */
  function Optional(s: string, c: char): (bool, string)
  {
    if |s| > 0 && s[0] == c then (true, s[1..]) else (false, s)
  }

  /** Splits off a leading separator, if any. */
  function OptionalSeparator(s: string): (Option<char>, string)
  {
    if |s| > 0 && IsSeparator(s[0]) then (Some(s[0]), s[1..]) else (None, s)
  }

  /** Reads the number left to right, taking each optional part when it is there. */
  function ParsePhone(s: string): Option<PhoneShape>
  {
    var (plus, s1) := Optional(s, '+');
    var (open, s2) := Optional(s1, '(');
    if |s2| < 3 || !AllDigits(s2[..3]) then None
    else ParseAfterArea(plus, open, s2[..3], s2[3..])
  }

  /** Reads what follows the area code: ')', a separator, the exchange, a separator and the line number. */
  function ParseAfterArea(plus: bool, open: bool, area: string, s: string): Option<PhoneShape>
  {
    var (close, s3) := Optional(s, ')');
    var (sep1, s4) := OptionalSeparator(s3);
    if |s4| < 3 || !AllDigits(s4[..3]) then None
    else
      var (sep2, s5) := OptionalSeparator(s4[3..]);
      if 4 <= |s5| <= 6 && AllDigits(s5) then Some(PhoneShape(plus, open, area, close, sep1, s4[..3], sep2, s5))
      else None
  }

  predicate IsValidPhone(s: string)
  {
    ParsePhone(s).Some?
  }

  lemma OptionalRebuilds(s: string, c: char)
    ensures Flag(Optional(s, c).0, c) + Optional(s, c).1 == s
  {
  }

  lemma OptionalSeparatorRebuilds(s: string)
    ensures SepText(OptionalSeparator(s).0) + OptionalSeparator(s).1 == s
    ensures OptionalSeparator(s).0.Some? ==> IsSeparator(OptionalSeparator(s).0.value)
  {
  }

  /** Reading an optional c off a text that continues with something other than c. */
  lemma OptionalReads(present: bool, c: char, rest: string)
    requires rest != [] && rest[0] != c
    ensures Optional(Flag(present, c) + rest, c) == (present, rest)
  {
    if present {
      assert (Flag(present, c) + rest)[1..] == rest;
    } else {
      assert Flag(present, c) + rest == rest;
    }
  }

  lemma OptionalSeparatorReads(sep: Option<char>, rest: string)
    requires sep.Some? ==> IsSeparator(sep.value)
    requires rest != [] && IsDigit(rest[0])
    ensures OptionalSeparator(SepText(sep) + rest) == (sep, rest)
  {
    if sep.Some? {
      assert (SepText(sep) + rest)[1..] == rest;
    } else {
      assert !IsSeparator(rest[0]);
      assert SepText(sep) + rest == rest;
    }
  }

  /** What follows the area code is read into parts that spell it. */
  lemma ParseAfterAreaSound(plus: bool, open: bool, area: string, s: string)
    requires ParseAfterArea(plus, open, area, s).Some?
    ensures var p := ParseAfterArea(plus, open, area, s).value;
      p.plus == plus && p.open == open && p.area == area && RenderAfterArea(p) == s
      && |p.exchange| == 3 && AllDigits(p.exchange) && 4 <= |p.line| <= 6 && AllDigits(p.line)
      && (p.sep1.Some? ==> IsSeparator(p.sep1.value)) && (p.sep2.Some? ==> IsSeparator(p.sep2.value))
  {
    var s3 := Optional(s, ')').1;
    var s4 := OptionalSeparator(s3).1;
    OptionalRebuilds(s, ')');
    OptionalSeparatorRebuilds(s3);
    OptionalSeparatorRebuilds(s4[3..]);
    assert s4 == s4[..3] + s4[3..];
  }

  /** Whatever the parser accepts is well formed and spells the input. */
  lemma ParsePhoneSound(s: string)
    requires ParsePhone(s).Some?
    ensures WellFormedPhone(ParsePhone(s).value)
    ensures RenderPhone(ParsePhone(s).value) == s
  {
    var s1 := Optional(s, '+').1;
    var s2 := Optional(s1, '(').1;
    OptionalRebuilds(s, '+');
    OptionalRebuilds(s1, '(');
    ParseAfterAreaSound(Optional(s, '+').0, Optional(s1, '(').0, s2[..3], s2[3..]);
    assert s2 == s2[..3] + s2[3..];
  }

  /** The text after a well-formed area code is read back into the same parts. */
  lemma ParseAfterAreaComplete(p: PhoneShape)
    requires WellFormedPhone(p)
    ensures ParseAfterArea(p.plus, p.open, p.area, RenderAfterArea(p)) == Some(p)
  {
    var s4 := p.exchange + (SepText(p.sep2) + p.line);
    var s3 := SepText(p.sep1) + s4;
    assert s4[0] == p.exchange[0];
    OptionalSeparatorReads(p.sep1, s4);
    assert s3 != [] && s3[0] != ')';
    OptionalReads(p.close, ')', s3);
    assert s4[..3] == p.exchange && s4[3..] == SepText(p.sep2) + p.line;
    OptionalSeparatorReads(p.sep2, p.line);
  }

  /** Every well-formed number is accepted and read back into the same parts. */
  lemma ParsePhoneComplete(p: PhoneShape)
    requires WellFormedPhone(p)
    ensures ParsePhone(RenderPhone(p)) == Some(p)
  {
    var tail := p.area + RenderAfterArea(p);
    var s1 := Flag(p.open, '(') + tail;
    assert tail[0] == p.area[0];
    OptionalReads(p.plus, '+', s1);
    OptionalReads(p.open, '(', tail);
    assert tail[..3] == p.area && tail[3..] == RenderAfterArea(p);
    ParseAfterAreaComplete(p);
  }

  /** The phone check accepts exactly the strings some well-formed set of parts spells. */
  lemma IsValidPhoneIff(s: string)
    ensures IsValidPhone(s) <==> exists p :: WellFormedPhone(p) && RenderPhone(p) == s
  {
    if IsValidPhone(s) {
      ParsePhoneSound(s);
    }
    if exists p :: WellFormedPhone(p) && RenderPhone(p) == s {
      var p :| WellFormedPhone(p) && RenderPhone(p) == s;
      ParsePhoneComplete(p);
    }
  }

  // ---------------------------------------------------------------------
  // E-mail addresses: text without white space or '@', an '@', then text
  // without white space or '@' holding a '.' with text on both sides.

  predicate EmailChar(c: char)
  {
    !IsSpace(c) && c != '@'
  }

  predicate EmailText(s: string)
  {
    forall i :: 0 <= i < |s| ==> EmailChar(s[i])
  }

  /** The first position of c in s. */
  function IndexOf(s: string, c: char): (r: Option<nat>)
    ensures r.Some? ==> r.value < |s| && s[r.value] == c
    ensures r.Some? ==> forall j :: 0 <= j < r.value ==> s[j] != c
    ensures r.None? ==> forall j :: 0 <= j < |s| ==> s[j] != c
  {
    if s == [] then None
    else if s[0] == c then Some(0)
    else
      match IndexOf(s[1..], c)
      case None => None
      case Some(k) => Some(k + 1)
  }

  /** A '.' that is neither the first nor the last character. */
  predicate HasInnerDot(d: string)
  {
    exists i :: 0 < i < |d| - 1 && d[i] == '.'
  }

  predicate IsValidEmail(s: string)
  {
    match IndexOf(s, '@')
    case None => false
    case Some(k) => 0 < k && EmailText(s[..k]) && EmailText(s[k + 1..]) && HasInnerDot(s[k + 1..])
  }

  predicate EmailParts(user: string, host: string, top: string)
  {
    |user| > 0 && |host| > 0 && |top| > 0 && EmailText(user) && EmailText(host) && EmailText(top)
  }

  function EmailOf(user: string, host: string, top: string): string
  {
    user + "@" + host + "." + top
  }

  /** Every accepted address splits into its user, host and top parts. */
  lemma IsValidEmailSound(s: string)
    requires IsValidEmail(s)
    ensures exists user, host, top :: EmailParts(user, host, top) && s == EmailOf(user, host, top)
  {
    var k := IndexOf(s, '@').value;
    var d := s[k + 1..];
    var i :| 0 < i < |d| - 1 && d[i] == '.';
    var user, host, top := s[..k], d[..i], d[i + 1..];
    assert d == host + "." + top;
    assert s == user + "@" + d;
    assert EmailParts(user, host, top);
  }

  /** Every such combination of parts is accepted. */
  lemma IsValidEmailComplete(user: string, host: string, top: string)
    requires EmailParts(user, host, top)
    ensures IsValidEmail(EmailOf(user, host, top))
  {
    var s := EmailOf(user, host, top);
    var d := host + "." + top;
    assert s == user + "@" + d;
    assert s[|user|] == '@';
    assert IndexOf(s, '@') == Some(|user|);
    assert s[|user| + 1..] == d;
    assert d[|host|] == '.';
  }

  /** The e-mail check accepts exactly the addresses some parts spell. */
  lemma IsValidEmailIff(s: string)
    ensures IsValidEmail(s) <==> exists user, host, top :: EmailParts(user, host, top) && s == EmailOf(user, host, top)
  {
    if IsValidEmail(s) {
      IsValidEmailSound(s);
    }
    if exists user, host, top :: EmailParts(user, host, top) && s == EmailOf(user, host, top) {
      var user, host, top :| EmailParts(user, host, top) && s == EmailOf(user, host, top);
      IsValidEmailComplete(user, host, top);
    }
  }

  /** The empty string and any string with white space are rejected. */
  lemma EmailRejects(s: string, i: nat)
    requires i < |s| && IsSpace(s[i])
    ensures !IsValidEmail(s)
    ensures !IsValidEmail("")
  {
  }

  // ---------------------------------------------------------------------
  // Error maps: the forms note one message per failing field, in order.

  /** Adds the message under the key when there is one. */
  function Note(errors: map<string, string>, key: string, message: Option<string>): map<string, string>
  {
    if message.Some? then errors[key := message.value] else errors
  }

  /** The first n checks noted into the map, in order. */
  function NoteAll(errors: map<string, string>, checks: seq<(string, Option<string>)>, n: nat): map<string, string>
    requires n <= |checks|
  {
    if n == 0 then errors else Note(NoteAll(errors, checks, n - 1), checks[n - 1].0, checks[n - 1].1)
  }

  lemma NoteEmptyIff(errors: map<string, string>, key: string, message: Option<string>)
    ensures Note(errors, key, message) == map[] <==> errors == map[] && message.None?
  {
    if message.Some? {
      assert key in Note(errors, key, message);
    }
  }

  lemma {:induction false} NoteAllEmptyIff(checks: seq<(string, Option<string>)>, n: nat)
    requires n <= |checks|
    ensures NoteAll(map[], checks, n) == map[] <==> forall j :: 0 <= j < n ==> checks[j].1.None?
  {
    if n > 0 {
      NoteAllEmptyIff(checks, n - 1);
      NoteEmptyIff(NoteAll(map[], checks, n - 1), checks[n - 1].0, checks[n - 1].1);
    }
  }

  /**
   * The forms' check loop: every failing check writes its message under its
   * field, and the form passes exactly when no check failed.
   */
  method NoteEach(checks: seq<(string, Option<string>)>) returns (errors: map<string, string>, ok: bool)
    ensures errors == NoteAll(map[], checks, |checks|)
    ensures ok <==> errors == map[]
  {
    errors := map[];
    ok := true;
    for i := 0 to |checks|
      invariant errors == NoteAll(map[], checks, i)
      invariant ok <==> forall j :: 0 <= j < i ==> checks[j].1.None?
    {
      if checks[i].1.Some? {
        errors := errors[checks[i].0 := checks[i].1.value];
        ok := false;
      }
    }
    NoteAllEmptyIff(checks, |checks|);
  }
}
