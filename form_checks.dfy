/**
 * The character-class and e-mail tests the client forms run on their input:
 * `/[a-z]/`, `/[A-Z]/`, `/[0-9]/`, `/[^A-Za-z0-9]/` and `/^[^\s@]+@[^\s@]+\.[^\s@]+$/`.
 */
module FormChecks {
  import opened Text

  /** `/[a-z]/.test(s)`. */
  predicate HasLower(s: string) {
    exists i :: 0 <= i < |s| && IsLowerAscii(s[i])
  }

  /** `/[A-Z]/.test(s)`. */
  predicate HasUpper(s: string) {
    exists i :: 0 <= i < |s| && IsUpperAscii(s[i])
  }

  /** `/[0-9]/.test(s)` and `/\d/.test(s)`. */
  predicate HasDigit(s: string) {
    exists i :: 0 <= i < |s| && IsDigit(s[i])
  }

  /** `/[^A-Za-z0-9]/.test(s)`. */
  predicate HasOther(s: string) {
    exists i :: 0 <= i < |s| && !IsAlnumAscii(s[i])
  }

  /** A character `[^\s@]` matches. */
  predicate PlainChar(c: char) {
    !IsSpace(c) && c != '@'
  }

  /**
   * What the pattern `^[^\s@]+@[^\s@]+\.[^\s@]+$` accepts, read off the pattern: an `@` at
   * position i and a `.` at position j with non-empty runs before, between and after, and no
   * character other than that `@` is a space or an `@`.
   */
  ghost predicate EmailPattern(s: string) {
    exists i, j :: 0 < i && i + 1 < j && j + 1 < |s| && s[i] == '@' && s[j] == '.' &&
      forall k :: 0 <= k < |s| && k != i ==> PlainChar(s[k])
  }

  /** The same test computed directly: no space, a single `@` that is not first, and a `.` at least two places after it and before the end. */
  predicate EmailShaped(s: string) {
    var at := IndexOf(s, '@');
    && (forall k :: 0 <= k < |s| ==> !IsSpace(s[k]))
    && 0 < at && '@' !in s[at + 1..]
    && at + 2 < |s| && '.' in s[at + 2..|s| - 1]
  }

  /** The direct test accepts exactly what the pattern accepts. */
  lemma EmailShapedIsPattern(s: string)
    ensures EmailShaped(s) <==> EmailPattern(s)
  {
    if EmailShaped(s) {
      var at := IndexOf(s, '@');
      var tail := s[at + 2..|s| - 1];
      var m :| 0 <= m < |tail| && tail[m] == '.';
      var j := at + 2 + m;
      assert s[j] == '.';
      forall k | 0 <= k < |s| && k != at ensures PlainChar(s[k]) {
        if k < at {
          assert s[k] == s[..at][k];
        } else {
          assert s[k] == s[at + 1..][k - at - 1];
        }
      }
    }
    if EmailPattern(s) {
      var i, j :| 0 < i && i + 1 < j && j + 1 < |s| && s[i] == '@' && s[j] == '.' &&
        forall k :: 0 <= k < |s| && k != i ==> PlainChar(s[k]);
      var at := IndexOf(s, '@');
      assert at == i by {
        assert '@' in s by { assert s[i] == '@'; }
        assert s[at] == '@';
      }
      var rest := s[at + 1..];
      assert '@' !in rest by {
        forall k | 0 <= k < |rest| ensures rest[k] != '@' {
          assert rest[k] == s[at + 1 + k];
        }
      }
      assert s[at + 2..|s| - 1][j - at - 2] == '.';
    }
  }
}
