/**
 * The identifier classifier of the login page: the trimmed identifier is an
 * email when it contains an at sign and a phone number when it is exactly ten
 * ASCII digits; the classification picks the field's placeholder and icon, and
 * the submit button is enabled by a separate emptiness rule.
 */
module LoginPage {
  import opened Options

  const EmailExample: string := "you@example.com"
  const PhoneExample: string := "9876543210"
  const GenericPrompt: string := "Enter email or 10-digit phone"

  /** The characters JavaScript's `String.prototype.trim` removes: the
      ECMAScript WhiteSpace and LineTerminator code points. */
  predicate IsWhitespace(c: char) {
    || c == '\t' || c == '\n' || c == '\U{000B}' || c == '\U{000C}' || c == '\r' || c == ' '
    || c == '\U{00A0}' || c == '\U{1680}' || ('\U{2000}' <= c <= '\U{200A}')
    || c == '\U{2028}' || c == '\U{2029}' || c == '\U{202F}' || c == '\U{205F}'
    || c == '\U{3000}' || c == '\U{FEFF}'
  }

  /** `\d` of a regular expression without the `u` flag. */
  predicate IsAsciiDigit(c: char) {
    '0' <= c <= '9'
  }

  /** The text without its leading whitespace. */
  function TrimStart(s: string): (t: string)
    ensures |t| <= |s| && t == s[|s| - |t|..]
    ensures t == [] || !IsWhitespace(t[0])
    ensures forall i :: 0 <= i < |s| - |t| ==> IsWhitespace(s[i])
  {
    if |s| > 0 && IsWhitespace(s[0]) then TrimStart(s[1..]) else s
  }

  /** The text without its trailing whitespace. */
  function TrimEnd(s: string): (t: string)
    ensures |t| <= |s| && t == s[..|t|]
    ensures t == [] || !IsWhitespace(t[|t| - 1])
    ensures forall i :: |t| <= i < |s| ==> IsWhitespace(s[i])
  {
    if |s| > 0 && IsWhitespace(s[|s| - 1]) then TrimEnd(s[..|s| - 1]) else s
  }

  /** `String.prototype.trim`: whitespace goes from both ends and nothing else
      is removed, so every other character stays exactly where it was. */
  function Trim(s: string): (t: string)
    ensures |t| <= |s|
    ensures t == [] || (!IsWhitespace(t[0]) && !IsWhitespace(t[|t| - 1]))
    ensures forall c :: !IsWhitespace(c) ==> (c in t <==> c in s)
    ensures exists i, j ::
              && 0 <= i <= j <= |s| && t == s[i..j]
              && (forall k :: 0 <= k < i ==> IsWhitespace(s[k]))
              && (forall k :: j <= k < |s| ==> IsWhitespace(s[k]))
  {
    var front := TrimStart(s);
    var t := TrimEnd(front);
    TrimKeepsOtherChars(s, front, t);
    TrimIsSlice(s, front, t);
    t
  }

  lemma TrimIsSlice(s: string, front: string, t: string)
    requires |front| <= |s| && front == s[|s| - |front|..]
    requires forall i :: 0 <= i < |s| - |front| ==> IsWhitespace(s[i])
    requires |t| <= |front| && t == front[..|t|]
    requires forall i :: |t| <= i < |front| ==> IsWhitespace(front[i])
    ensures exists i, j ::
              && 0 <= i <= j <= |s| && t == s[i..j]
              && (forall k :: 0 <= k < i ==> IsWhitespace(s[k]))
              && (forall k :: j <= k < |s| ==> IsWhitespace(s[k]))
  {
    var i := |s| - |front|;
    var j := i + |t|;
    assert t == s[i..j];
    forall k | j <= k < |s| ensures IsWhitespace(s[k]) {
      assert s[k] == front[k - i];
    }
  }

  lemma TrimKeepsOtherChars(s: string, front: string, t: string)
    requires |front| <= |s| && front == s[|s| - |front|..]
    requires forall i :: 0 <= i < |s| - |front| ==> IsWhitespace(s[i])
    requires |t| <= |front| && t == front[..|t|]
    requires forall i :: |t| <= i < |front| ==> IsWhitespace(front[i])
    ensures forall c :: !IsWhitespace(c) ==> (c in t <==> c in s)
  {
  }

  /** Whether `t` matches `\d{n}` as a whole (`^` and `$` without the `m` flag
      anchor at the ends of the input). */
  function MatchesDigits(t: string, n: nat): (matched: bool)
    ensures matched <==> |t| == n && forall i :: 0 <= i < |t| ==> IsAsciiDigit(t[i])
  {
    if n == 0 then t == []
    else |t| > 0 && IsAsciiDigit(t[0]) && MatchesDigits(t[1..], n - 1)
  }

  datatype Flags = Flags(isEmail: bool, isPhone: bool)

  /** The memoised classification of the identifier field; an absent value is
      read as the empty text. */
  function Classify(identifier: Option<string>): (flags: Flags)
    ensures flags.isEmail <==> '@' in Trim(identifier.GetOr(""))
    ensures flags.isPhone <==> MatchesDigits(Trim(identifier.GetOr("")), 10)
    ensures !(flags.isEmail && flags.isPhone)
    ensures identifier.None? ==> !flags.isEmail && !flags.isPhone
  {
    var trimmed := Trim(identifier.GetOr(""));
    Flags('@' in trimmed && |trimmed| > 0, MatchesDigits(trimmed, 10))
  }

  /** The placeholder of the identifier field. */
  function Placeholder(identifier: Option<string>): (text: string)
    ensures text == EmailExample <==> Classify(identifier).isEmail
    ensures text == PhoneExample <==> Classify(identifier).isPhone
    ensures text == GenericPrompt <==> !Classify(identifier).isEmail && !Classify(identifier).isPhone
  {
    var flags := Classify(identifier);
    if flags.isEmail then EmailExample else if flags.isPhone then PhoneExample else GenericPrompt
  }

  datatype Icon = MailIcon | PhoneIcon

  /** The icon inside the identifier field: the phone icon only for a phone
      number, the mail icon otherwise. */
  function FieldIcon(identifier: Option<string>): (icon: Icon)
    ensures icon == PhoneIcon <==> Classify(identifier).isPhone
  {
    var flags := Classify(identifier);
    if flags.isEmail then MailIcon else if flags.isPhone then PhoneIcon else MailIcon
  }

  /** Whether the submit button is disabled: while a login is in flight, or
      while either field is empty. */
  function SubmitDisabled(loading: bool, identifier: Option<string>, password: string): (disabled: bool)
    ensures !disabled <==> !loading && identifier.Some? && identifier.value != "" && password != ""
  {
    loading || identifier.GetOr("") == "" || password == ""
  }

  // ---------------------------------------------------------------------------
  // Properties

  /** Trimming is invisible to the email test: the identifier is an email
      exactly when the text as typed contains an at sign. */
  lemma EmailIffAtSign(s: string)
    ensures Classify(Some(s)).isEmail <==> '@' in s
  {
  }

  /** A text that starts and ends with a non-whitespace character is its own
      trim. */
  lemma TrimmedIsFixed(t: string)
    requires t == [] || (!IsWhitespace(t[0]) && !IsWhitespace(t[|t| - 1]))
    ensures Trim(t) == t
  {
  }

  /** Trimming twice is trimming once. */
  lemma TrimIdempotent(s: string)
    ensures Trim(Trim(s)) == Trim(s)
  {
    TrimmedIsFixed(Trim(s));
  }

  /** The classification does not change when the identifier is trimmed first. */
  lemma ClassifyIgnoresSurroundingWhitespace(s: string)
    ensures Classify(Some(Trim(s))) == Classify(Some(s))
  {
  }

  /** One whitespace character on either side of a trimmed text is removed
      by trimming. */
  lemma TrimDropsPadding(t: string, before: char, after: char)
    requires t != [] && !IsWhitespace(t[0]) && !IsWhitespace(t[|t| - 1])
    requires IsWhitespace(before) && IsWhitespace(after)
    ensures Trim([before] + t + [after]) == t
  {
    var padded := [before] + t + [after];
    assert padded[1..] == t + [after];
    assert TrimStart(t + [after]) == t + [after];
    assert TrimStart(padded) == t + [after];
    assert (t + [after])[..|t|] == t;
    assert TrimEnd(t) == t;
    assert TrimEnd(t + [after]) == t;
  }

  /** Ten digits between whitespace are a phone number. */
  lemma PaddedPhoneIsPhone(s: string)
    requires MatchesDigits(s, 10)
    ensures Classify(Some([' '] + s + ['\n'])).isPhone
  {
    TrimDropsPadding(s, ' ', '\n');
  }

  /** The submit rule and the classification are independent: an identifier of
      whitespace only is neither an email nor a phone number, yet it enables
      submit once a password is typed. */
  lemma WhitespaceIdentifierEnablesSubmit(s: string, password: string)
    requires s != "" && Trim(s) == [] && password != ""
    ensures var identifier := Some(s);
      && !Classify(identifier).isEmail
      && !Classify(identifier).isPhone
      && !SubmitDisabled(false, identifier, password)
  {
  }
}
