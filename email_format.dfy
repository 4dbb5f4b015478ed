/**
 * The email-format check of src/controllers/user.controller.tsx:
 * `/^[^\s@]+@[^\s@]+\.[^\s@]+$/.test(email)`.
 */
module EmailFormat {

  /** The JavaScript regular-expression class `\s`: ECMAScript white space and line terminators. */
  predicate IsSpace(c: char)
  {
    var n := c as int;
    n == 0x09 || n == 0x0A || n == 0x0B || n == 0x0C || n == 0x0D || n == 0x20 ||
    n == 0xA0 || n == 0x1680 || (0x2000 <= n <= 0x200A) || n == 0x2028 || n == 0x2029 ||
    n == 0x202F || n == 0x205F || n == 0x3000 || n == 0xFEFF
  }

  /** `[^\s@]+`: one or more characters, none of them white space or '@'. */
  predicate IsAtom(t: string)
  {
    |t| > 0 && forall k :: 0 <= k < |t| ==> !IsSpace(t[k]) && t[k] != '@'
  }

  /**
   * The anchored pattern: the whole string is an atom, '@', an atom, '.', an
   * atom. The pattern can place its '.' at any dot that leaves atoms on both
   * sides, so the match is an existential over the two split points.
   */
  predicate IsValidEmail(s: string)
  {
    exists i, j | 0 <= i < j < |s| ::
      s[i] == '@' && s[j] == '.' && IsAtom(s[..i]) && IsAtom(s[i + 1..j]) && IsAtom(s[j + 1..])
  }

  /** The domain part has a '.' with at least one character on each side. */
  predicate HasInnerDot(d: string)
  {
    exists j :: 0 < j < |d| - 1 && d[j] == '.'
  }

  /**
   * The same set of strings described by its parts: no white space anywhere,
   * exactly one '@', a non-empty part before it, and an inner dot after it.
   */
  predicate WellFormedAddress(s: string)
  {
    && (forall k :: 0 <= k < |s| ==> !IsSpace(s[k]))
    && exists i :: 0 < i < |s| && s[i] == '@'
                   && (forall k :: 0 <= k < |s| && k != i ==> s[k] != '@')
                   && HasInnerDot(s[i + 1..])
  }

  lemma {:induction false} MatchIsWellFormed(s: string)
    requires IsValidEmail(s)
    ensures WellFormedAddress(s)
  {
    var i, j :| 0 <= i < j < |s| && s[i] == '@' && s[j] == '.'
                && IsAtom(s[..i]) && IsAtom(s[i + 1..j]) && IsAtom(s[j + 1..]);
    forall k | 0 <= k < |s|
      ensures !IsSpace(s[k]) && (k != i ==> s[k] != '@')
    {
      if k < i {
        assert s[k] == s[..i][k];
      } else if i < k < j {
        assert s[k] == s[i + 1..j][k - i - 1];
      } else if j < k {
        assert s[k] == s[j + 1..][k - j - 1];
      }
    }
    var d := s[i + 1..];
    assert d[j - i - 1] == '.';
    assert HasInnerDot(d);
  }

  lemma {:induction false} WellFormedIsMatch(s: string)
    requires WellFormedAddress(s)
    ensures IsValidEmail(s)
  {
    var i :| 0 < i < |s| && s[i] == '@'
             && (forall k :: 0 <= k < |s| && k != i ==> s[k] != '@')
             && HasInnerDot(s[i + 1..]);
    var d := s[i + 1..];
    var jd :| 0 < jd < |d| - 1 && d[jd] == '.';
    var j := i + 1 + jd;
    assert |d| == |s| - i - 1 && i < j < |s| - 1;
    assert s[j] == d[jd] == '.';
    var local, host, tld := s[..i], s[i + 1..j], s[j + 1..];
    assert IsAtom(local) by {
      forall k | 0 <= k < |local| ensures !IsSpace(local[k]) && local[k] != '@' {
        assert local[k] == s[k];
      }
    }
    assert IsAtom(host) by {
      forall k | 0 <= k < |host| ensures !IsSpace(host[k]) && host[k] != '@' {
        assert host[k] == s[i + 1 + k];
      }
    }
    assert IsAtom(tld) by {
      forall k | 0 <= k < |tld| ensures !IsSpace(tld[k]) && tld[k] != '@' {
        assert tld[k] == s[j + 1 + k];
      }
    }
  }

  /**
   * The email check accepts exactly the strings with no white space, exactly
   * one '@', a non-empty local part, and a '.' inside the domain part.
   */
  lemma IsValidEmailCharacterization(s: string)
    ensures IsValidEmail(s) <==> WellFormedAddress(s)
  {
    if IsValidEmail(s) { MatchIsWellFormed(s); }
    if WellFormedAddress(s) { WellFormedIsMatch(s); }
  }

  /** Three atoms joined by '@' and '.' make an address the check accepts. */
  lemma Accepts(local: string, host: string, tld: string)
    requires IsAtom(local) && IsAtom(host) && IsAtom(tld)
    ensures IsValidEmail(local + "@" + host + "." + tld)
  {
    var s := local + "@" + host + "." + tld;
    var i, j := |local|, |local| + 1 + |host|;
    assert s[..i] == local;
    assert s[i + 1..j] == host;
    assert s[j + 1..] == tld;
    assert s[i] == '@' && s[j] == '.';
  }

  /** A plain address is accepted. */
  lemma IsValidEmailAccepts()
    ensures IsValidEmail("a@x.com")
  {
    assert IsAtom("a") && IsAtom("x") && IsAtom("com");
    Accepts("a", "x", "com");
    assert "a" + "@" + "x" + "." + "com" == "a@x.com";
  }

  /** Strings the check rejects: no inner dot, an empty local part, a second '@', white space. */
  lemma IsValidEmailRejects()
    ensures !IsValidEmail("a@x.")
    ensures !IsValidEmail("a@.com")
    ensures !IsValidEmail("@x.com")
    ensures !IsValidEmail("a@b@x.com")
    ensures !IsValidEmail("a b@x.com")
  {
    assert !IsValidEmail("a@x.") by {
      var s := "a@x.";
      assert forall i :: 0 <= i < |s| && s[i] == '@' ==> i == 1;
      assert s[2..] == "x." && !HasInnerDot("x.");
      IsValidEmailCharacterization(s);
    }
    assert !IsValidEmail("a@.com") by {
      var s := "a@.com";
      assert forall i :: 0 <= i < |s| && s[i] == '@' ==> i == 1;
      assert s[2..] == ".com";
      assert forall j :: 0 < j < 3 ==> ".com"[j] != '.';
      IsValidEmailCharacterization(s);
    }
    assert !IsValidEmail("@x.com") by {
      var s := "@x.com";
      assert forall i :: 0 <= i < |s| && s[i] == '@' ==> i == 0;
      IsValidEmailCharacterization(s);
    }
    assert !IsValidEmail("a@b@x.com") by {
      var s := "a@b@x.com";
      assert s[1] == '@' && s[3] == '@';
      IsValidEmailCharacterization(s);
    }
    assert !IsValidEmail("a b@x.com") by {
      var s := "a b@x.com";
      assert IsSpace(s[1]);
      IsValidEmailCharacterization(s);
    }
  }
}
