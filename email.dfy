/** The e-mail check run before a return is saved or loaded: the pattern
    one-or-more non-space non-@ characters, an @, one-or-more such characters,
    a dot and one-or-more such characters, anchored at both ends. */
module Email {
  import Decimal

  /** A character the class `[^\s@]` accepts. */
  predicate PartChar(c: char)
  {
    !Decimal.IsWhitespace(c) && c != '@'
  }

  /** A non-empty run of `[^\s@]` characters. */
  predicate Part(t: string)
  {
    |t| > 0 && forall k :: 0 <= k < |t| ==> PartChar(t[k])
  }

  /** Whole-string match of the pattern: the text splits into a local part, an
      @, a domain, a dot and a final part, each part a non-empty run of
      characters that are neither white space nor @. */
  ghost predicate MatchesPattern(s: string)
  {
    exists a, b, c :: Part(a) && Part(b) && Part(c) && s == a + "@" + b + "." + c
  }

  /** No character other than the one at i is an @. */
  predicate OnlyAtSignAt(s: string, i: int)
  {
    forall k :: 0 <= k < |s| && k != i ==> s[k] != '@'
  }

  /** isValidEmail, by positions: no white space, exactly one @, not first,
      and a dot after it with at least one character on each side. */
  function IsValidEmail(s: string): (r: bool)
    ensures r ==> |s| >= 5
  {
    && (forall k :: 0 <= k < |s| ==> !Decimal.IsWhitespace(s[k]))
    && exists i :: 0 < i < |s| && s[i] == '@' && OnlyAtSignAt(s, i) && exists j :: i + 1 < j < |s| - 1 && s[j] == '.'
  }

  /** The positional check accepts exactly the strings the pattern matches. */
  lemma IsValidEmailMatchesPattern(s: string)
    ensures IsValidEmail(s) <==> MatchesPattern(s)
  {
    if IsValidEmail(s) {
      ValidSplits(s);
    }
    if MatchesPattern(s) {
      var a, b, c :| Part(a) && Part(b) && Part(c) && s == a + "@" + b + "." + c;
      SplitIsValid(a, b, c);
    }
  }

  lemma ValidSplits(s: string)
    requires IsValidEmail(s)
    ensures MatchesPattern(s)
  {
    var i :| 0 < i < |s| && s[i] == '@' && OnlyAtSignAt(s, i) && exists j :: i + 1 < j < |s| - 1 && s[j] == '.';
    var j :| i + 1 < j < |s| - 1 && s[j] == '.';
    var a, b, c := s[..i], s[i + 1..j], s[j + 1..];
    assert s == a + "@" + b + "." + c;
    assert Part(a) && Part(b) && Part(c) by {
      forall k | 0 <= k < |a| ensures PartChar(a[k]) { assert a[k] == s[k]; }
      forall k | 0 <= k < |b| ensures PartChar(b[k]) { assert b[k] == s[i + 1 + k]; }
      forall k | 0 <= k < |c| ensures PartChar(c[k]) { assert c[k] == s[j + 1 + k]; }
    }
  }

  lemma SplitIsValid(a: string, b: string, c: string)
    requires Part(a) && Part(b) && Part(c)
    ensures IsValidEmail(a + "@" + b + "." + c)
  {
    var s := a + "@" + b + "." + c;
    var i, j := |a|, |a| + 1 + |b|;
    forall k | 0 <= k < |s|
      ensures !Decimal.IsWhitespace(s[k]) && (k != i && k != j ==> PartChar(s[k]))
    {
      if k < i {
        assert s[k] == a[k];
      } else if i < k < j {
        assert s[k] == b[k - i - 1];
      } else if j < k {
        assert s[k] == c[k - j - 1];
      }
    }
    assert s[i] == '@' && s[j] == '.';
    assert OnlyAtSignAt(s, i);
  }

  /** The example address the page suggests is accepted. */
  lemma SuggestedAddressAccepted()
    ensures IsValidEmail("name@example.com")
  {
    var s := "name@example.com";
    assert s[4] == '@' && s[12] == '.';
    assert OnlyAtSignAt(s, 4);
  }

  /** A domain without a dot, a second @, a space, an empty local part or an
      empty domain is refused. */
  lemma MalformedAddressesRefused()
    ensures !IsValidEmail("name@example")
    ensures !IsValidEmail("a@b@c.d")
    ensures !IsValidEmail("a b@c.d")
    ensures !IsValidEmail("@b.c")
    ensures !IsValidEmail("a@.c")
  {
    assert "a@b@c.d"[1] == '@' && "a@b@c.d"[3] == '@';
    assert "a b@c.d"[1] == ' ';
  }
}
