/** `validateEmail` and `keysOf`.

    `validateEmail` tests its argument against one anchored regular
    expression:

      local part   `[^<>()\[\]\\.,;:\s@"]+(\.[^<>()\[\]\\.,;:\s@"]+)*`  or  `".+"`
      then         `@`
      domain       `[0-9]{1,3}` four times joined by `\.`
                   or  `([a-zA-Z\-0-9]+\.)+[a-zA-Z]{2,}`

    The language of that expression is written below as ghost predicates
    (`MatchesEmailPattern` and the forms it is built from), each a direct
    reading of one operator of the pattern.  `ValidateEmail` is a decision
    procedure for it, proved equal to the language for every string.

    Strings are sequences of Unicode scalar values; JavaScript matches UTF-16
    code units, but every class the pattern counts is ASCII and both halves of
    a surrogate pair fall in the same negated classes, so the outcome is the
    same. */
module Utils {
  import opened Errors

  // ---------------------------------------------------------------------
  // Character classes of the pattern
  // ---------------------------------------------------------------------

  /** `\s` of a JavaScript regular expression */
  predicate IsJsWhitespace(c: char) {
    || c == '\t' || c == '\n' || c == '\U{B}' || c == '\U{C}' || c == '\r' || c == ' '
    || c == '\U{A0}' || c == '\U{1680}' || ('\U{2000}' <= c <= '\U{200A}')
    || c == '\U{2028}' || c == '\U{2029}' || c == '\U{202F}' || c == '\U{205F}'
    || c == '\U{3000}' || c == '\U{FEFF}'
  }

  /** the line terminators, which `.` does not match */
  predicate IsLineTerminator(c: char) {
    c == '\n' || c == '\r' || c == '\U{2028}' || c == '\U{2029}'
  }

  /** the characters listed in the negated class of an unquoted atom, besides `\s` */
  const AtomSpecials: string := "<>()[]\\.,;:@\""

  /** `[^<>()\[\]\\.,;:\s@"]` */
  predicate IsAtomChar(c: char) {
    c !in AtomSpecials && !IsJsWhitespace(c)
  }

  predicate IsDigit(c: char) { '0' <= c <= '9' }

  predicate IsLetter(c: char) { 'a' <= c <= 'z' || 'A' <= c <= 'Z' }

  /** `[a-zA-Z\-0-9]` */
  predicate IsLabelChar(c: char) { IsLetter(c) || c == '-' || IsDigit(c) }

  // ---------------------------------------------------------------------
  // The dot-free pieces of the pattern
  // ---------------------------------------------------------------------

  /** `[^<>()\[\]\\.,;:\s@"]+` */
  predicate IsAtom(s: string) {
    |s| >= 1 && forall i :: 0 <= i < |s| ==> IsAtomChar(s[i])
  }

  /** `[0-9]{1,3}` */
  predicate IsDigitGroup(s: string) {
    1 <= |s| <= 3 && forall i :: 0 <= i < |s| ==> IsDigit(s[i])
  }

  /** `[a-zA-Z\-0-9]+` */
  predicate IsLabel(s: string) {
    |s| >= 1 && forall i :: 0 <= i < |s| ==> IsLabelChar(s[i])
  }

  /** `[a-zA-Z]{2,}` */
  predicate IsTopLevel(s: string) {
    |s| >= 2 && forall i :: 0 <= i < |s| ==> IsLetter(s[i])
  }

  /** `".+"`: a double quote, at least one character that is not a line
      terminator (a quote or an `@` among them), and a closing quote */
  predicate IsQuoted(s: string) {
    && |s| >= 3
    && s[0] == '"' && s[|s| - 1] == '"'
    && forall i :: 1 <= i < |s| - 1 ==> !IsLineTerminator(s[i])
  }

  // ---------------------------------------------------------------------
  // Joining and splitting on dots
  // ---------------------------------------------------------------------

  /** the pieces written one after another, a dot between neighbours */
  function JoinDots(pieces: seq<string>): string
    requires |pieces| >= 1
  {
    if |pieces| == 1 then pieces[0] else pieces[0] + "." + JoinDots(pieces[1..])
  }

  /** position of the first `c` in `s`, or `|s|` when there is none */
  function IndexOf(s: string, c: char): (i: nat)
    ensures i <= |s|
    ensures i < |s| ==> s[i] == c
    ensures forall j :: 0 <= j < i ==> s[j] != c
  {
    if s == [] then 0
    else if s[0] == c then 0
    else 1 + IndexOf(s[1..], c)
  }

  /** position of the last `c` in `s`, if any */
  function LastIndexOf(s: string, c: char): (r: Option<nat>)
    ensures r.None? <==> c !in s
    ensures r.Some? ==> r.value < |s| && s[r.value] == c && c !in s[r.value + 1..]
  {
    if s == [] then None
    else if s[|s| - 1] == c then Some(|s| - 1)
    else
      var r := LastIndexOf(s[..|s| - 1], c);
      assert s == s[..|s| - 1] + [s[|s| - 1]];
      r
  }

  /** `s` cut at every dot: the pieces hold no dot and join back to `s` */
  function SplitDots(s: string): (pieces: seq<string>)
    ensures |pieces| >= 1
    ensures forall k :: 0 <= k < |pieces| ==> '.' !in pieces[k]
    ensures JoinDots(pieces) == s
    decreases |s|
  {
    var i := IndexOf(s, '.');
    if i == |s| then [s]
    else
      var rest := SplitDots(s[i + 1..]);
      assert s == s[..i] + "." + s[i + 1..];
      assert ([s[..i]] + rest)[1..] == rest;
      [s[..i]] + rest
  }

  /** In a string made of dot-free pieces, the first dot ends the first piece. */
  lemma FirstDotOfJoin(pieces: seq<string>)
    requires |pieces| >= 2
    requires '.' !in pieces[0]
    ensures IndexOf(JoinDots(pieces), '.') == |pieces[0]|
  {
    var s := JoinDots(pieces);
    var p := pieces[0];
    assert s == p + "." + JoinDots(pieces[1..]);
    assert s[|p|] == '.';
    forall j | 0 <= j < |p| ensures s[j] != '.' {
      assert s[j] == p[j];
    }
  }

  /** Splitting a string made of dot-free pieces gives those pieces back. */
  lemma {:induction false} SplitJoin(pieces: seq<string>)
    requires |pieces| >= 1
    requires forall k :: 0 <= k < |pieces| ==> '.' !in pieces[k]
    ensures SplitDots(JoinDots(pieces)) == pieces
  {
    var s := JoinDots(pieces);
    if |pieces| == 1 {
      assert '.' !in s;
    } else {
      var p := pieces[0];
      FirstDotOfJoin(pieces);
      assert s == p + "." + JoinDots(pieces[1..]);
      assert s[..|p|] == p;
      assert s[|p| + 1..] == JoinDots(pieces[1..]);
      SplitJoin(pieces[1..]);
      assert pieces == [p] + pieces[1..];
    }
  }

  // ---------------------------------------------------------------------
  // The language of the pattern
  // ---------------------------------------------------------------------

  /** `[^…]+(\.[^…]+)*`: one atom, then any number of `.atom` */
  ghost predicate DotAtomForm(s: string) {
    exists atoms: seq<string> ::
      && |atoms| >= 1
      && (forall k :: 0 <= k < |atoms| ==> IsAtom(atoms[k]))
      && JoinDots(atoms) == s
  }

  /** the group before `@`: an unquoted dot-atom or a quoted string */
  ghost predicate LocalForm(s: string) {
    DotAtomForm(s) || IsQuoted(s)
  }

  /** `[0-9]{1,3}\.[0-9]{1,3}\.[0-9]{1,3}\.[0-9]{1,3}` */
  ghost predicate DottedQuadForm(s: string) {
    exists groups: seq<string> ::
      && |groups| == 4
      && (forall k :: 0 <= k < 4 ==> IsDigitGroup(groups[k]))
      && JoinDots(groups) == s
  }

  /** `([a-zA-Z\-0-9]+\.)+[a-zA-Z]{2,}`: one or more labels, each ended by a
      dot, then the top-level label */
  ghost predicate HostNameForm(s: string) {
    exists pieces: seq<string> ::
      && |pieces| >= 2
      && (forall k :: 0 <= k < |pieces| - 1 ==> IsLabel(pieces[k]))
      && IsTopLevel(pieces[|pieces| - 1])
      && JoinDots(pieces) == s
  }

  /** the group after `@` */
  ghost predicate DomainForm(s: string) {
    DottedQuadForm(s) || HostNameForm(s)
  }

  /** the whole pattern; `^` and `$` anchor it at both ends */
  ghost predicate MatchesEmailPattern(s: string) {
    exists at :: 0 <= at < |s| && s[at] == '@' && LocalForm(s[..at]) && DomainForm(s[at + 1..])
  }

  // ---------------------------------------------------------------------
  // The decision procedure
  // ---------------------------------------------------------------------

  predicate IsDotAtom(s: string) {
    var pieces := SplitDots(s);
    forall k :: 0 <= k < |pieces| ==> IsAtom(pieces[k])
  }

  predicate IsLocalPart(s: string) {
    IsDotAtom(s) || IsQuoted(s)
  }

  predicate IsDottedQuad(s: string) {
    var pieces := SplitDots(s);
    |pieces| == 4 && forall k :: 0 <= k < 4 ==> IsDigitGroup(pieces[k])
  }

  predicate IsHostName(s: string) {
    var pieces := SplitDots(s);
    && |pieces| >= 2
    && (forall k :: 0 <= k < |pieces| - 1 ==> IsLabel(pieces[k]))
    && IsTopLevel(pieces[|pieces| - 1])
  }

  predicate IsDomain(s: string) {
    IsDottedQuad(s) || IsHostName(s)
  }

  /** Neither a dot nor an `@` is an atom character. */
  lemma AtomCharIsNoSeparator(c: char)
    requires IsAtomChar(c)
    ensures c != '.' && c != '@'
  {
    assert AtomSpecials[7] == '.' && AtomSpecials[11] == '@';
  }

  /** The pieces of every form are dot-free, so splitting recovers them. */
  lemma AtomsHaveNoDots(atoms: seq<string>)
    requires forall k :: 0 <= k < |atoms| ==> IsAtom(atoms[k])
    ensures forall k :: 0 <= k < |atoms| ==> '.' !in atoms[k]
  {
    forall k, i | 0 <= k < |atoms| && 0 <= i < |atoms[k]| ensures atoms[k][i] != '.' {
      AtomCharIsNoSeparator(atoms[k][i]);
    }
  }

  lemma DotAtomDecided(s: string)
    ensures IsDotAtom(s) <==> DotAtomForm(s)
  {
    var pieces := SplitDots(s);
    if IsDotAtom(s) {
      assert |pieces| >= 1 && (forall k :: 0 <= k < |pieces| ==> IsAtom(pieces[k])) && JoinDots(pieces) == s;
    }
    if DotAtomForm(s) {
      var atoms :| |atoms| >= 1 && (forall k :: 0 <= k < |atoms| ==> IsAtom(atoms[k])) && JoinDots(atoms) == s;
      AtomsHaveNoDots(atoms);
      SplitJoin(atoms);
    }
  }

  lemma DottedQuadDecided(s: string)
    ensures IsDottedQuad(s) <==> DottedQuadForm(s)
  {
    var pieces := SplitDots(s);
    if IsDottedQuad(s) {
      assert |pieces| == 4 && (forall k :: 0 <= k < 4 ==> IsDigitGroup(pieces[k])) && JoinDots(pieces) == s;
    }
    if DottedQuadForm(s) {
      var groups :| |groups| == 4 && (forall k :: 0 <= k < 4 ==> IsDigitGroup(groups[k])) && JoinDots(groups) == s;
      assert forall k, i :: 0 <= k < 4 && 0 <= i < |groups[k]| ==> IsDigit(groups[k][i]);
      SplitJoin(groups);
    }
  }

  /** Labels and a top-level label hold no dot. */
  lemma HostPiecesHaveNoDots(pieces: seq<string>)
    requires |pieces| >= 1
    requires forall k :: 0 <= k < |pieces| - 1 ==> IsLabel(pieces[k])
    requires IsTopLevel(pieces[|pieces| - 1])
    ensures forall k :: 0 <= k < |pieces| ==> '.' !in pieces[k]
  {
    forall k, i | 0 <= k < |pieces| && 0 <= i < |pieces[k]| ensures pieces[k][i] != '.' {
      if k < |pieces| - 1 {
        assert IsLabelChar(pieces[k][i]);
      } else {
        assert IsLetter(pieces[k][i]);
      }
    }
  }

  /** Dot-joined labels ending in a top-level label have the host-name form. */
  lemma HostNameFormOf(pieces: seq<string>)
    requires |pieces| >= 2
    requires forall k :: 0 <= k < |pieces| - 1 ==> IsLabel(pieces[k])
    requires IsTopLevel(pieces[|pieces| - 1])
    ensures HostNameForm(JoinDots(pieces))
  {
    assert && |pieces| >= 2
           && (forall k :: 0 <= k < |pieces| - 1 ==> IsLabel(pieces[k]))
           && IsTopLevel(pieces[|pieces| - 1])
           && JoinDots(pieces) == JoinDots(pieces);
  }

  /** Dot-joined labels ending in a top-level label are split back into
      those labels. */
  lemma HostNameSplits(pieces: seq<string>)
    requires |pieces| >= 2
    requires forall k :: 0 <= k < |pieces| - 1 ==> IsLabel(pieces[k])
    requires IsTopLevel(pieces[|pieces| - 1])
    ensures IsHostName(JoinDots(pieces))
  {
    HostPiecesHaveNoDots(pieces);
    SplitJoin(pieces);
    HostNameOfSplit(JoinDots(pieces), pieces);
  }

  lemma HostNameOfSplit(s: string, pieces: seq<string>)
    requires SplitDots(s) == pieces
    requires |pieces| >= 2
    requires forall k :: 0 <= k < |pieces| - 1 ==> IsLabel(pieces[k])
    requires IsTopLevel(pieces[|pieces| - 1])
    ensures IsHostName(s)
  {
  }

  lemma HostNameDecided(s: string)
    ensures IsHostName(s) <==> HostNameForm(s)
  {
    if IsHostName(s) {
      HostNameFormOf(SplitDots(s));
    }
    if HostNameForm(s) {
      var pieces :| && |pieces| >= 2
                    && (forall k :: 0 <= k < |pieces| - 1 ==> IsLabel(pieces[k]))
                    && IsTopLevel(pieces[|pieces| - 1])
                    && JoinDots(pieces) == s;
      HostNameSplits(pieces);
    }
  }

  /** A character of a joined string other than a dot lies in one of the pieces. */
  lemma {:induction false} CharInSomePiece(pieces: seq<string>, i: nat)
    requires |pieces| >= 1
    requires i < |JoinDots(pieces)| && JoinDots(pieces)[i] != '.'
    ensures exists k, j :: 0 <= k < |pieces| && 0 <= j < |pieces[k]| && pieces[k][j] == JoinDots(pieces)[i]
  {
    var s := JoinDots(pieces);
    if |pieces| == 1 {
      assert pieces[0][i] == s[i];
    } else {
      var p := pieces[0];
      assert s == p + "." + JoinDots(pieces[1..]);
      if i < |p| {
        assert p[i] == s[i];
      } else if i > |p| {
        var rest := pieces[1..];
        assert s[i] == JoinDots(rest)[i - |p| - 1];
        CharInSomePiece(rest, i - |p| - 1);
        var k, j :| 0 <= k < |rest| && 0 <= j < |rest[k]| && rest[k][j] == s[i];
        assert pieces[k + 1][j] == s[i];
      }
    }
  }

  /** No `@` can follow the `@` of a match: the domain forms hold none. */
  lemma DomainHasNoAt(s: string)
    requires IsDomain(s)
    ensures '@' !in s
  {
    var pieces := SplitDots(s);
    forall i | 0 <= i < |s| ensures s[i] != '@' {
      if s[i] != '.' {
        CharInSomePiece(pieces, i);
        var k, j :| 0 <= k < |pieces| && 0 <= j < |pieces[k]| && pieces[k][j] == s[i];
        if IsDottedQuad(s) {
          assert IsDigit(pieces[k][j]);
        } else if k < |pieces| - 1 {
          assert IsLabelChar(pieces[k][j]);
        } else {
          assert IsLetter(pieces[k][j]);
        }
      }
    }
  }

  /** A string of either domain form is accepted as a domain. */
  lemma DomainFormDecided(s: string)
    requires DomainForm(s)
    ensures IsDomain(s)
  {
    DottedQuadDecided(s);
    HostNameDecided(s);
  }

  /** An `@` followed by a domain is the last `@` of the string. */
  lemma MatchUsesLastAt(email: string, at: nat, i: nat)
    requires at < |email| && email[at] == '@' && '@' !in email[at + 1..]
    requires i < |email| && email[i] == '@' && DomainForm(email[i + 1..])
    ensures i == at
  {
    DomainFormDecided(email[i + 1..]);
    DomainHasNoAt(email[i + 1..]);
    assert forall j :: i < j < |email| ==> email[j] == email[i + 1..][j - i - 1];
    assert forall j :: at < j < |email| ==> email[j] == email[at + 1..][j - at - 1];
  }

  /** With `at` the last `@`, the pattern matches exactly when the text before
      `at` is a local part and the text after it a domain: no other `@` can
      separate a match. */
  lemma SplitAtLastAt(email: string, at: nat)
    requires at < |email| && email[at] == '@' && '@' !in email[at + 1..]
    ensures (IsLocalPart(email[..at]) && IsDomain(email[at + 1..])) <==> MatchesEmailPattern(email)
  {
    DotAtomDecided(email[..at]);
    DottedQuadDecided(email[at + 1..]);
    HostNameDecided(email[at + 1..]);
    if MatchesEmailPattern(email) {
      var i :| 0 <= i < |email| && email[i] == '@' && LocalForm(email[..i]) && DomainForm(email[i + 1..]);
      MatchUsesLastAt(email, at, i);
    }
  }

  // ---------------------------------------------------------------------
  // The unquoted local part, character by character
  // ---------------------------------------------------------------------

  /** not empty, no dot at either end, no two dots in a row, and every other
      character an atom character */
  predicate DotAtomShape(s: string) {
    && |s| >= 1 && s[0] != '.' && s[|s| - 1] != '.'
    && (forall i :: 0 <= i < |s| ==> s[i] == '.' || IsAtomChar(s[i]))
    && (forall i :: 0 <= i < |s| - 1 ==> s[i] != '.' || s[i + 1] != '.')
  }

  lemma {:induction false} JoinedAtomsHaveShape(atoms: seq<string>)
    requires |atoms| >= 1
    requires forall k :: 0 <= k < |atoms| ==> IsAtom(atoms[k])
    ensures DotAtomShape(JoinDots(atoms))
  {
    AtomsHaveNoDots(atoms);
    var s := JoinDots(atoms);
    var p := atoms[0];
    assert forall i :: 0 <= i < |p| ==> IsAtomChar(p[i]);
    if |atoms| > 1 {
      var r := JoinDots(atoms[1..]);
      JoinedAtomsHaveShape(atoms[1..]);
      assert s == p + "." + r;
      assert p[0] != '.';
      forall i | 0 <= i < |s| ensures s[i] == '.' || IsAtomChar(s[i]) {
        if i < |p| { assert s[i] == p[i]; }
        else if i > |p| { assert s[i] == r[i - |p| - 1]; }
      }
      forall i | 0 <= i < |s| - 1 ensures s[i] != '.' || s[i + 1] != '.' {
        if i < |p| { assert s[i] == p[i]; }
        else if i == |p| { assert s[i + 1] == r[0]; }
        else { assert s[i] == r[i - |p| - 1] && s[i + 1] == r[i - |p|]; }
      }
    }
  }

  /** After an inner dot, the rest of a dot-atom is again a dot-atom. */
  lemma ShapeAfterDot(s: string, i: nat)
    requires DotAtomShape(s) && i < |s| && s[i] == '.'
    ensures 0 < i < |s| - 1 && DotAtomShape(s[i + 1..])
  {
    var rest := s[i + 1..];
    assert forall j :: 0 <= j < |rest| ==> rest[j] == s[j + i + 1];
    assert rest[0] == s[i + 1];
    forall j | 0 <= j < |rest| - 1 ensures rest[j] != '.' || rest[j + 1] != '.' {
      assert rest[j] == s[j + i + 1] && rest[j + 1] == s[(j + i + 1) + 1];
    }
  }

  lemma {:induction false} ShapeSplitsIntoAtoms(s: string)
    requires DotAtomShape(s)
    ensures IsDotAtom(s)
    decreases |s|
  {
    var i := IndexOf(s, '.');
    if i == |s| {
      assert SplitDots(s) == [s];
    } else {
      ShapeAfterDot(s, i);
      var rest := s[i + 1..];
      ShapeSplitsIntoAtoms(rest);
      assert IsAtom(s[..i]);
      var pieces := SplitDots(s);
      assert pieces == [s[..i]] + SplitDots(rest);
      assert forall k :: 1 <= k < |pieces| ==> pieces[k] == SplitDots(rest)[k - 1];
    }
  }

  /** The unquoted alternative of the local part accepts exactly the strings
      of one or more dot-separated non-empty atoms: a leading, trailing or
      doubled dot is refused, and so is whitespace or any of
      `< > ( ) [ ] \ , ; : @ "`. */
  lemma DotAtomFormIsShape(s: string)
    ensures DotAtomForm(s) <==> DotAtomShape(s)
  {
    DotAtomDecided(s);
    if IsDotAtom(s) {
      JoinedAtomsHaveShape(SplitDots(s));
    }
    if DotAtomShape(s) {
      ShapeSplitsIntoAtoms(s);
    }
  }

  /** Both domain forms need a dot. */
  lemma DomainNeedsDot(s: string)
    ensures IsDomain(s) ==> '.' in s
  {
    if '.' !in s {
      assert SplitDots(s) == [s];
    }
  }

  /** `validateEmail`: true exactly when the whole string matches the pattern. */
  function ValidateEmail(email: string): (valid: bool)
    ensures valid <==> MatchesEmailPattern(email)
  {
    match LastIndexOf(email, '@')
    case None =>
      false
    case Some(at) =>
      SplitAtLastAt(email, at);
      IsLocalPart(email[..at]) && IsDomain(email[at + 1..])
  }

  // ---------------------------------------------------------------------
  // Consequences for whole addresses
  // ---------------------------------------------------------------------

  /** The `@` written between a local part and a domain is at or before the
      last `@` of the address. */
  lemma LastAtNotBeforeSeparator(local: string, domain: string)
    ensures LastIndexOf(local + "@" + domain, '@').Some?
    ensures LastIndexOf(local + "@" + domain, '@').value >= |local|
  {
    var email := local + "@" + domain;
    assert email[|local|] == '@';
    var at := LastIndexOf(email, '@').value;
    assert forall j :: at < j < |email| ==> email[j] == email[at + 1..][j - at - 1];
  }

  /** An address whose part after its last `@` holds no dot is refused,
      whatever comes before: a bare host name such as `domain` is not enough. */
  lemma DotlessDomainRejected(local: string, domain: string)
    requires '.' !in domain
    ensures !ValidateEmail(local + "@" + domain)
  {
    var email := local + "@" + domain;
    LastAtNotBeforeSeparator(local, domain);
    var at := LastIndexOf(email, '@').value;
    var after := email[at + 1..];
    assert after == domain[at - |local|..];
    DomainNeedsDot(after);
  }

  lemma ShapeIsLocalForm(local: string)
    requires DotAtomShape(local)
    ensures LocalForm(local)
  {
    DotAtomFormIsShape(local);
  }

  lemma HostDomainForm(pieces: seq<string>)
    requires |pieces| >= 2
    requires forall k :: 0 <= k < |pieces| - 1 ==> IsLabel(pieces[k])
    requires IsTopLevel(pieces[|pieces| - 1])
    ensures DomainForm(JoinDots(pieces))
  {
    HostNameFormOf(pieces);
  }

  lemma QuadDomainForm(groups: seq<string>)
    requires |groups| == 4 && forall k :: 0 <= k < 4 ==> IsDigitGroup(groups[k])
    ensures DomainForm(JoinDots(groups))
  {
    assert DottedQuadForm(JoinDots(groups));
  }

  /** A local part, an `@`, then a domain: accepted. */
  lemma PartsAccepted(local: string, domain: string)
    requires LocalForm(local) && DomainForm(domain)
    ensures ValidateEmail(local + "@" + domain)
  {
    var email := local + "@" + domain;
    assert email[|local|] == '@';
    assert email[..|local|] == local;
    assert email[|local| + 1..] == domain;
    assert MatchesEmailPattern(email);
  }

  /** A dot-atom, an `@`, then labels ending in a top-level label of letters:
      accepted. */
  lemma HostAddressAccepted(local: string, pieces: seq<string>)
    requires DotAtomShape(local)
    requires |pieces| >= 2
    requires forall k :: 0 <= k < |pieces| - 1 ==> IsLabel(pieces[k])
    requires IsTopLevel(pieces[|pieces| - 1])
    ensures ValidateEmail(local + "@" + JoinDots(pieces))
  {
    ShapeIsLocalForm(local);
    HostDomainForm(pieces);
    PartsAccepted(local, JoinDots(pieces));
  }

  /** A quoted local part may hold `@` and spaces. */
  lemma QuotedAddressAccepted(local: string, pieces: seq<string>)
    requires IsQuoted(local)
    requires |pieces| >= 2
    requires forall k :: 0 <= k < |pieces| - 1 ==> IsLabel(pieces[k])
    requires IsTopLevel(pieces[|pieces| - 1])
    ensures ValidateEmail(local + "@" + JoinDots(pieces))
  {
    assert LocalForm(local);
    HostDomainForm(pieces);
    PartsAccepted(local, JoinDots(pieces));
  }

  /** Four groups of one to three digits are accepted with no range check. */
  lemma DottedQuadAddressAccepted(local: string, groups: seq<string>)
    requires DotAtomShape(local)
    requires |groups| == 4 && forall k :: 0 <= k < 4 ==> IsDigitGroup(groups[k])
    ensures ValidateEmail(local + "@" + JoinDots(groups))
  {
    ShapeIsLocalForm(local);
    QuadDomainForm(groups);
    PartsAccepted(local, JoinDots(groups));
  }

  /** With a single `@`, an unquoted local part that is not a dot-atom (a
      stray dot, whitespace, a special character) is refused. */
  lemma MalformedLocalRejected(local: string, domain: string)
    requires '@' !in domain
    requires !DotAtomShape(local) && !IsQuoted(local)
    ensures !ValidateEmail(local + "@" + domain)
  {
    var email := local + "@" + domain;
    assert email[|local|] == '@';
    assert '@' !in email[|local| + 1..] by {
      assert email[|local| + 1..] == domain;
    }
    assert email[..|local|] == local;
    SplitAtLastAt(email, |local|);
    DotAtomDecided(local);
    DotAtomFormIsShape(local);
  }

  /** Addresses the user tests create and refuse, and two less usual ones. */
  lemma ExampleAccepted()
    ensures ValidateEmail("user@domain.tld")
  {
    assert "user@domain.tld" == "user" + "@" + JoinDots(["domain", "tld"]);
    assert DotAtomShape("user");
    HostAddressAccepted("user", ["domain", "tld"]);
  }

  lemma ExampleLongTopLevelAccepted()
    ensures ValidateEmail("user@domain.lawyer")
  {
    assert "user@domain.lawyer" == "user" + "@" + JoinDots(["domain", "lawyer"]);
    assert DotAtomShape("user");
    HostAddressAccepted("user", ["domain", "lawyer"]);
  }

  lemma ExampleDotlessRejected()
    ensures !ValidateEmail("wrong@domain")
  {
    assert "wrong@domain" == "wrong" + "@" + "domain";
    DotlessDomainRejected("wrong", "domain");
  }

  lemma ExampleQuotedAccepted()
    ensures ValidateEmail("\"a@b c\"@domain.tld")
  {
    assert "\"a@b c\"@domain.tld" == "\"a@b c\"" + "@" + JoinDots(["domain", "tld"]);
    QuotedAddressAccepted("\"a@b c\"", ["domain", "tld"]);
  }

  lemma ExampleOutOfRangeQuadAccepted()
    ensures ValidateEmail("user@999.999.999.999")
  {
    assert "user@999.999.999.999" == "user" + "@" + JoinDots(["999", "999", "999", "999"]);
    assert DotAtomShape("user");
    DottedQuadAddressAccepted("user", ["999", "999", "999", "999"]);
  }

  lemma ExampleLeadingDotRejected()
    ensures !ValidateEmail(".user@domain.tld")
  {
    assert ".user@domain.tld" == ".user" + "@" + "domain.tld";
    MalformedLocalRejected(".user", "domain.tld");
  }

  lemma ExampleDoubledDotRejected()
    ensures !ValidateEmail("us..er@domain.tld")
  {
    assert "us..er@domain.tld" == "us..er" + "@" + "domain.tld";
    assert !DotAtomShape("us..er") by {
      assert "us..er"[2] == '.' && "us..er"[3] == '.';
    }
    MalformedLocalRejected("us..er", "domain.tld");
  }

  // ---------------------------------------------------------------------
  // keysOf
  // ---------------------------------------------------------------------

  /** A plain JavaScript object: its own enumerable keys in the order
      `Object.keys` lists them, and the value under each. */
  datatype JsObject<V> = JsObject(keys: seq<string>, props: map<string, V>) {
    /** a key is listed once, and exactly the keys that hold a value are listed */
    ghost predicate Valid() {
      && (forall i, j :: 0 <= i < j < |keys| ==> keys[i] != keys[j])
      && (forall k :: k in props <==> k in keys)
    }
  }

  /** `keysOf`: the values of the object's own keys, in key order */
  function KeysOf<V>(obj: JsObject<V>): (values: seq<V>)
    requires obj.Valid()
    ensures |values| == |obj.keys|
    ensures forall i :: 0 <= i < |values| ==> values[i] == obj.props[obj.keys[i]]
    decreases |obj.keys|
  {
    if obj.keys == [] then []
    else [obj.props[obj.keys[0]]] + KeysOf(JsObject(obj.keys[1..], obj.props - {obj.keys[0]}))
  }

  lemma {:induction false} DistinctCount(keys: seq<string>)
    requires forall i, j :: 0 <= i < j < |keys| ==> keys[i] != keys[j]
    ensures |set k | k in keys| == |keys|
  {
    if keys != [] {
      DistinctCount(keys[1..]);
      assert (set k | k in keys) == (set k | k in keys[1..]) + {keys[0]};
    }
  }

  /** One value per own key ... */
  lemma KeysOfOnePerKey<V>(obj: JsObject<V>)
    requires obj.Valid()
    ensures |KeysOf(obj)| == |obj.props|
  {
    DistinctCount(obj.keys);
    assert obj.props.Keys == set k | k in obj.keys;
  }

  /** ... and the values listed are exactly the object's values. */
  lemma KeysOfListsEveryValue<V>(obj: JsObject<V>)
    requires obj.Valid()
    ensures forall v :: v in obj.props.Values <==> v in KeysOf(obj)
  {
    var values := KeysOf(obj);
    forall v | v in obj.props.Values ensures v in values {
      var k :| k in obj.props && obj.props[k] == v;
      var i :| 0 <= i < |obj.keys| && obj.keys[i] == k;
      assert values[i] == v;
    }
    forall v | v in values ensures v in obj.props.Values {
      var i :| 0 <= i < |values| && values[i] == v;
      assert obj.keys[i] in obj.props;
    }
  }
}
