/**
 * The field checks the backend validators share: a required string that is
 * absent or blank, one that is absent or empty, and the e-mail pattern
 * `^[A-Za-z0-9+_.-]+@[A-Za-z0-9.-]+$`, which `String.matches` applies to the
 * whole string.
 */
module FieldChecks {
  import opened Wrappers
  import opened Text

  /** `s == null || s.trim().isEmpty()`. */
  predicate NullOrBlank(s: Option<string>)
  {
    s.None? || JavaTrim(s.value) == []
  }

  /** Trimmed empty means made only of code points up to the space. */
  lemma NullOrBlankIff(s: Option<string>)
    ensures NullOrBlank(s) <==> s.None? || forall k :: 0 <= k < |s.value| ==> s.value[k] as int <= 0x20
  {
    if s.Some? {
      StripEmptyIff(s.value, IsJavaTrimmed);
    }
  }

  /** `s == null || s.isEmpty()`. */
  predicate NullOrEmpty(s: Option<string>)
  {
    s.None? || s.value == []
  }

  predicate IsLocalChar(c: char)
  {
    IsUpper(c) || IsLower(c) || IsDigit(c) || c == '+' || c == '_' || c == '.' || c == '-'
  }

  predicate IsDomainChar(c: char)
  {
    IsUpper(c) || IsLower(c) || IsDigit(c) || c == '.' || c == '-'
  }

  /** The pattern read with its at sign at position `k`: local characters before, domain characters after, one or more of each. */
  predicate EmailSplitAt(s: string, k: int)
  {
    0 < k < |s| - 1 && s[k] == '@'
    && (forall i :: 0 <= i < k ==> IsLocalChar(s[i]))
    && (forall i :: k < i < |s| ==> IsDomainChar(s[i]))
  }

  /** `isValidEmail`: the pattern, decided at the first at sign; no other split can match. */
  function IsValidEmail(s: string): (b: bool)
    ensures b <==> exists k :: EmailSplitAt(s, k)
  {
    var k := |Before(s, '@')|;
    assert forall j :: EmailSplitAt(s, j) ==> j == k by {
      forall j | EmailSplitAt(s, j) ensures j == k {
        assert k < j ==> IsLocalChar(s[k]);
        assert forall i :: 0 <= i < k ==> s[i] != '@' by {
          assert s[..k] == Before(s, '@');
        }
      }
    }
    EmailSplitAt(s, k)
  }

  /** A valid address has exactly one at sign, with characters on both sides of it. */
  lemma ValidEmailHasOneAt(s: string)
    requires IsValidEmail(s)
    ensures var k := |Before(s, '@')|;
      0 < k < |s| - 1 && forall i :: 0 <= i < |s| ==> (s[i] == '@' <==> i == k)
  {
    var k := |Before(s, '@')|;
    assert EmailSplitAt(s, k);
    assert forall x :: 0 <= x < k ==> s[x] != '@' by {
      assert s[..k] == Before(s, '@');
    }
  }

  /** An address the pattern accepts. */
  lemma EmailAccepted()
    ensures IsValidEmail("a.b@x.io")
  {
    assert EmailSplitAt("a.b@x.io", 3);
  }

  /** A few addresses the pattern rejects: two separators, an empty side, a space. */
  lemma EmailRejected()
    ensures !IsValidEmail("a@b@c") && !IsValidEmail("@x.io") && !IsValidEmail("a@") && !IsValidEmail("a b@x.io")
  {
    assert Before("a@b@c", '@') == "a";
    assert !IsDomainChar("a@b@c"[3]);
    assert Before("a b@x.io", '@') == "a b";
    assert !IsLocalChar("a b@x.io"[1]);
  }
}
