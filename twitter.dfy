/**
 * Twitter username rules and the avatar id in a profile image URL.
 *
 * A regular expression is modelled by what `exec` finding a match means: a
 * position where the pattern matches. `/i` folds ASCII letters only, which is
 * what JavaScript does without the `u` flag for patterns made of ASCII letters.
 */
module Twitter {
  import opened Values

  /** `\w`: `[A-Za-z0-9_]`. */
  predicate IsWordChar(c: char) {
    'a' <= c <= 'z' || 'A' <= c <= 'Z' || '0' <= c <= '9' || c == '_'
  }

  /** The characters `.` does not match. */
  predicate IsLineTerminator(c: char) {
    c == '\n' || c == '\r' || c == '\U{2028}' || c == '\U{2029}'
  }

  /** `word` occurs at position `i` of `name`, ignoring ASCII case. */
  predicate FoldedAt(name: string, word: string, i: int) {
    0 <= i && i + |word| <= |name| && Lower(name[i..i + |word|]) == word
  }

  predicate ContainsFolded(name: string, word: string) {
    exists i :: 0 <= i <= |name| && FoldedAt(name, word, i)
  }

  /** Sixteen characters other than line terminators start at position `i`. */
  predicate RunAt(name: string, i: int) {
    0 <= i && i + 16 <= |name| && forall k :: i <= k < i + 16 ==> !IsLineTerminator(name[k])
  }

  /** The three patterns `usernameValidator` tries in turn. */
  datatype Pattern =
    | ForbiddenWord   // /(twitter|admin)/i
    | SixteenOrMore   // /.{16,}/
    | NonWord         // /\W/

  /** `pattern.exec(name)` is not null. */
  predicate Matches(p: Pattern, name: string) {
    match p
    case ForbiddenWord => ContainsFolded(name, "twitter") || ContainsFolded(name, "admin")
    case SixteenOrMore => exists i :: 0 <= i <= |name| && RunAt(name, i)
    case NonWord => exists k :: 0 <= k < |name| && !IsWordChar(name[k])
  }

  const PATTERNS := [ForbiddenWord, SixteenOrMore, NonWord]

  /** The loop over the patterns: the first that matches rejects the name. */
  predicate AnyMatches(ps: seq<Pattern>, name: string)
    decreases |ps|
  {
    ps != [] && (Matches(ps[0], name) || AnyMatches(ps[1..], name))
  }

  /** `usernameValidator(name)`: no pattern matches and the name has at least 4 characters. */
  predicate UsernameValidator(name: string) {
    !AnyMatches(PATTERNS, name) && |name| >= 4
  }

  lemma PatternsTried(name: string)
    ensures AnyMatches(PATTERNS, name) <==> Matches(ForbiddenWord, name) || Matches(SixteenOrMore, name) || Matches(NonWord, name)
  {
    assert PATTERNS[1..] == [SixteenOrMore, NonWord];
    assert PATTERNS[1..][1..] == [NonWord];
    assert PATTERNS[1..][1..][1..] == [];
  }

  /**
   * A name is accepted exactly when it has 4 to 15 characters, all of them
   * word characters, and contains neither 'twitter' nor 'admin' in any case.
   */
  lemma {:induction false} UsernameAccepted(name: string)
    ensures UsernameValidator(name) <==>
      && 4 <= |name| <= 15
      && (forall k :: 0 <= k < |name| ==> IsWordChar(name[k]))
      && !ContainsFolded(name, "twitter") && !ContainsFolded(name, "admin")
  {
    PatternsTried(name);
    if UsernameValidator(name) {
      if |name| >= 16 {
        LongNameHasRun(name);
      }
    }
    if 4 <= |name| <= 15 {
      assert !exists i :: 0 <= i <= |name| && RunAt(name, i);
    }
  }

  /** A name of 16 word characters or more matches `/.{16,}/` at its start. */
  lemma LongNameHasRun(name: string)
    requires |name| >= 16 && forall k :: 0 <= k < |name| ==> IsWordChar(name[k])
    ensures RunAt(name, 0)
  {
  }

  /** A name of 16 or more characters is rejected, whatever it contains. */
  lemma LongNameRejected(name: string)
    requires |name| >= 16
    ensures !UsernameValidator(name)
  {
    UsernameAccepted(name);
  }

  /** A name containing 'twitter' or 'admin', in any case, is rejected. */
  lemma ForbiddenWordRejected(name: string, word: string, i: int)
    requires (word == "twitter" || word == "admin") && FoldedAt(name, word, i)
    ensures !UsernameValidator(name)
  {
    UsernameAccepted(name);
  }

  // ---------------------------------------------------------------------
  // getAvatarId

  /** The literal prefix of `/^\/profile_images\/(\d+)/`. */
  const AVATAR_PREFIX := "/profile_images/"

  predicate IsDigit(c: char) {
    '0' <= c <= '9'
  }

  /** `\d+` taken greedily at the start of `s`: the longest run of leading digits. */
  function DigitRun(s: string): (r: string)
    ensures |r| <= |s| && r == s[..|r|]
    ensures forall k :: 0 <= k < |r| ==> IsDigit(r[k])
    ensures |r| < |s| ==> !IsDigit(s[|r|])
    decreases |s|
  {
    if s != [] && IsDigit(s[0]) then [s[0]] + DigitRun(s[1..]) else []
  }

  /** The pathname starts with '/profile_images/' followed by a digit. */
  predicate HasAvatarPath(path: string) {
    |path| > |AVATAR_PREFIX| && path[..|AVATAR_PREFIX|] == AVATAR_PREFIX && IsDigit(path[|AVATAR_PREFIX|])
  }

  /**
   * `getAvatarId(avatarURL)`, with `pathnameOf` standing for
   * `new URL(avatarURL).pathname`: '' for an empty URL or a pathname that does
   * not match, else the captured digits.
   */
  function AvatarId(avatarURL: string, pathnameOf: string -> string): (id: string)
    ensures avatarURL == "" ==> id == ""
    ensures id != "" <==> avatarURL != "" && HasAvatarPath(pathnameOf(avatarURL))
    ensures id != "" ==>
      var rest := pathnameOf(avatarURL)[|AVATAR_PREFIX|..];
      && |id| <= |rest| && rest[..|id|] == id && (forall k :: 0 <= k < |id| ==> IsDigit(id[k]))
      && (|id| < |rest| ==> !IsDigit(rest[|id|]))
  {
    if avatarURL == "" then ""
    else
      var path := pathnameOf(avatarURL);
      if |path| >= |AVATAR_PREFIX| && path[..|AVATAR_PREFIX|] == AVATAR_PREFIX then DigitRun(path[|AVATAR_PREFIX|..])
      else ""
  }

  /** The leading digit run of digits followed by a non-digit is those digits. */
  lemma {:induction false} DigitRunOf(digits: string, tail: string)
    requires forall k :: 0 <= k < |digits| ==> IsDigit(digits[k])
    requires tail == [] || !IsDigit(tail[0])
    ensures DigitRun(digits + tail) == digits
    decreases |digits|
  {
    if digits != [] {
      assert (digits + tail)[1..] == digits[1..] + tail;
      DigitRunOf(digits[1..], tail);
    } else {
      assert digits + tail == tail;
    }
  }

  /** An avatar path built from a digit run and a tail that does not start with a digit gives back the digits. */
  lemma AvatarIdOfPath(avatarURL: string, pathnameOf: string -> string, digits: string, tail: string)
    requires avatarURL != "" && forall k :: 0 <= k < |digits| ==> IsDigit(digits[k])
    requires tail == [] || !IsDigit(tail[0])
    requires pathnameOf(avatarURL) == AVATAR_PREFIX + digits + tail
    ensures AvatarId(avatarURL, pathnameOf) == digits
  {
    var path := AVATAR_PREFIX + digits + tail;
    assert path[..|AVATAR_PREFIX|] == AVATAR_PREFIX;
    assert path[|AVATAR_PREFIX|..] == digits + tail;
    DigitRunOf(digits, tail);
  }
}
