/**
 * The hub path's vendor test: a hub device whose identifier contains
 * "vid_0801" in any letter case is reported directly, with its
 * identifier, and the serial-port snapshot is not consulted.
 */
module VendorFilter {
  import opened Wrappers
  import opened PortEvents

  /** The hard-coded vendor signature the hub path looks for. */
  const Signature: string := "vid_0801"

  /** Folds an ASCII upper-case letter to lower case; every other character is kept. */
  function LowerAscii(c: char): char {
    if 'A' <= c <= 'Z' then (c as int + 32) as char else c
  }

  /** `upper` is an ASCII capital letter and `lower` the same letter in lower case. */
  predicate CasePair(upper: char, lower: char) {
    'A' <= upper <= 'Z' && lower as int == upper as int + 32
  }

  /**
   * What folding means: two characters fold to the same character exactly
   * when they are equal or are the two cases of one ASCII letter.
   */
  lemma LowerAsciiFoldsCase(a: char, b: char)
    ensures LowerAscii(a) == LowerAscii(b) <==> a == b || CasePair(a, b) || CasePair(b, a)
  {
  }

  /** Two strings of the same length that agree character by character once folded. */
  predicate EqualIgnoreCase(a: string, b: string) {
    |a| == |b| && forall i :: 0 <= i < |a| ==> LowerAscii(a[i]) == LowerAscii(b[i])
  }

  /** The stretch of `s` starting at position `i` equals `pattern` ignoring case. */
  predicate MatchesAt(s: string, pattern: string, i: nat) {
    i + |pattern| <= |s| && EqualIgnoreCase(s[i..i + |pattern|], pattern)
  }

  /** `s` holds, somewhere, a stretch equal to `pattern` ignoring case. */
  predicate OccursIgnoreCase(s: string, pattern: string) {
    exists i: nat :: i <= |s| && MatchesAt(s, pattern, i)
  }

  /** Dropping the first character shifts every match position down by one. */
  lemma MatchesAtTail(s: string, pattern: string, i: nat)
    requires |s| > 0
    ensures MatchesAt(s[1..], pattern, i) <==> MatchesAt(s, pattern, i + 1)
  {
  }

  /**
   * `s.Contains(pattern, StringComparison.OrdinalIgnoreCase)`, with the
   * folding restricted to ASCII: tries every start position from the left.
   */
  function ContainsIgnoreCase(s: string, pattern: string): (r: bool)
    ensures r <==> OccursIgnoreCase(s, pattern)
    decreases |s|
  {
    if |s| < |pattern| then false
    else if EqualIgnoreCase(s[..|pattern|], pattern) then
      assert MatchesAt(s, pattern, 0);
      true
    else
      var tail := ContainsIgnoreCase(s[1..], pattern);
      assert OccursIgnoreCase(s, pattern) <==> OccursIgnoreCase(s[1..], pattern) by {
        forall i: nat ensures MatchesAt(s[1..], pattern, i) <==> MatchesAt(s, pattern, i + 1) {
          MatchesAtTail(s, pattern, i);
        }
        if OccursIgnoreCase(s, pattern) {
          var i: nat :| MatchesAt(s, pattern, i);
          assert i != 0;
          assert MatchesAt(s[1..], pattern, i - 1);
        }
      }
      tail
  }

  /**
   * The hub callback's decision: a missing identifier counts as empty;
   * a matching identifier is reported unchanged with the callback's kind.
   */
  function HubEvent(kind: PortEventType, deviceID: Option<string>): (r: Option<PortEvent>)
    ensures r.Some? <==> deviceID.Some? && OccursIgnoreCase(deviceID.value, Signature)
    ensures r.Some? ==> r.value == PortEvent(kind, deviceID.value)
  {
    var id := deviceID.GetOr("");
    if ContainsIgnoreCase(id, Signature) then Some(PortEvent(kind, id)) else None
  }

  /** Folding is the same on both sides, so case-insensitive equality is symmetric and transitive. */
  lemma EqualIgnoreCaseTransitive(a: string, b: string, c: string)
    requires EqualIgnoreCase(a, b) && EqualIgnoreCase(b, c)
    ensures EqualIgnoreCase(a, c) && EqualIgnoreCase(c, a)
  {
  }

  /**
   * The letter case of the identifier does not matter: two identifiers
   * equal ignoring case are both reported or both ignored.
   */
  lemma {:induction false} HubEventIgnoresCase(kind: PortEventType, id: string, other: string)
    requires EqualIgnoreCase(id, other)
    ensures HubEvent(kind, Some(id)).Some? <==> HubEvent(kind, Some(other)).Some?
  {
    var n := |Signature|;
    forall i: nat
      ensures MatchesAt(id, Signature, i) <==> MatchesAt(other, Signature, i)
    {
      if i + n <= |id| {
        assert EqualIgnoreCase(id[i..i + n], other[i..i + n]);
        if EqualIgnoreCase(id[i..i + n], Signature) {
          EqualIgnoreCaseTransitive(other[i..i + n], id[i..i + n], Signature);
        }
        if EqualIgnoreCase(other[i..i + n], Signature) {
          EqualIgnoreCaseTransitive(id[i..i + n], other[i..i + n], Signature);
        }
      }
    }
  }

  /** A hub notification without a device identifier is never reported. */
  lemma MissingDeviceIDIsIgnored(kind: PortEventType)
    ensures HubEvent(kind, None) == None
  {
  }

  /** A MagTek reader's identifier, written in upper case, is reported unchanged for either kind. */
  lemma MagTekScenario(kind: PortEventType)
    ensures HubEvent(kind, Some("USB\\VID_0801&PID_0001")) == Some(PortEvent(kind, "USB\\VID_0801&PID_0001"))
  {
    var id := "USB\\VID_0801&PID_0001";
    assert id[4..12] == "VID_0801";
    assert MatchesAt(id, Signature, 4);
  }

  /** A device of another vendor (here a Logitech receiver) is not reported, for either kind. */
  lemma OtherVendorScenario(kind: PortEventType)
    ensures HubEvent(kind, Some("USB\\VID_046D&PID_C52B")) == None
  {
    var id := "USB\\VID_046D&PID_C52B";
    forall i: nat | i <= |id|
      ensures !MatchesAt(id, Signature, i)
    {
      NoMatchAt(id, i);
    }
  }

  /** A stretch whose `k`-th character differs from the signature's, ignoring case, is no match. */
  lemma MismatchAt(s: string, i: nat, k: nat)
    requires k < |Signature| && i + |Signature| <= |s|
    requires LowerAscii(s[i + k]) != LowerAscii(Signature[k])
    ensures !MatchesAt(s, Signature, i)
  {
    assert s[i..i + |Signature|][k] == s[i + k];
  }

  /**
   * No stretch of the Logitech identifier spells the signature: the
   * stretch at position 4 ("VID_046D") differs at offset 5 ('4' against
   * '8'); every other stretch starts with a character other than 'v' or 'V'.
   */
  lemma NoMatchAt(id: string, i: nat)
    requires id == "USB\\VID_046D&PID_C52B"
    ensures !MatchesAt(id, Signature, i)
  {
    assert Signature[0] == 'v' && Signature[5] == '8';
    if i + |Signature| > |id| {
    } else if i == 0 {
      assert id[0] == 'U';
      MismatchAt(id, 0, 0);
    } else if i == 1 {
      assert id[1] == 'S';
      MismatchAt(id, 1, 0);
    } else if i == 2 {
      assert id[2] == 'B';
      MismatchAt(id, 2, 0);
    } else if i == 3 {
      assert id[3] == '\\';
      MismatchAt(id, 3, 0);
    } else if i == 4 {
      assert id[9] == '4';
      MismatchAt(id, 4, 5);
    } else if i == 5 {
      assert id[5] == 'I';
      MismatchAt(id, 5, 0);
    } else if i == 6 {
      assert id[6] == 'D';
      MismatchAt(id, 6, 0);
    } else if i == 7 {
      assert id[7] == '_';
      MismatchAt(id, 7, 0);
    } else if i == 8 {
      assert id[8] == '0';
      MismatchAt(id, 8, 0);
    } else if i == 9 {
      assert id[9] == '4';
      MismatchAt(id, 9, 0);
    } else if i == 10 {
      assert id[10] == '6';
      MismatchAt(id, 10, 0);
    } else if i == 11 {
      assert id[11] == 'D';
      MismatchAt(id, 11, 0);
    } else if i == 12 {
      assert id[12] == '&';
      MismatchAt(id, 12, 0);
    } else {
      assert i == 13 && id[13] == 'P';
      MismatchAt(id, 13, 0);
    }
  }
}
