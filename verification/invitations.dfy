/**
 * The teammate list: a comma-separated string is split on ',', every piece is
 * trimmed the way JavaScript's `String.prototype.trim` does, and empty pieces
 * are dropped.
 */
module Invitations {
  import opened Options

  /** The characters `trim` removes: the WhiteSpace and LineTerminator code points of ECMAScript. */
  predicate IsSpace(c: char) {
    var n := c as int;
    || n == 0x09 || n == 0x0A || n == 0x0B || n == 0x0C || n == 0x0D || n == 0x20
    || n == 0xA0 || n == 0x1680 || (0x2000 <= n <= 0x200A)
    || n == 0x2028 || n == 0x2029 || n == 0x202F || n == 0x205F || n == 0x3000 || n == 0xFEFF
  }

  /** The first index at or after `i` that is not white space (or `|s|`). */
  function SkipSpace(s: string, i: nat): (j: nat)
    requires i <= |s|
    ensures i <= j <= |s|
    decreases |s| - i
  {
    if i < |s| && IsSpace(s[i]) then SkipSpace(s, i + 1) else i
  }

  /** The index just past the last non-white-space character in `s[lo..j]` (or `lo`). */
  function BackSpace(s: string, lo: nat, j: nat): (k: nat)
    requires lo <= j <= |s|
    ensures lo <= k <= j
  {
    if lo < j && IsSpace(s[j - 1]) then BackSpace(s, lo, j - 1) else j
  }

  /** `s` without white space at either end. */
  function Trim(s: string): (t: string)
    ensures |t| <= |s|
    ensures t == [] || (!IsSpace(t[0]) && !IsSpace(t[|t| - 1]))
  {
    var i := SkipSpace(s, 0);
    SkipSpaceSkipsSpace(s, 0);
    BackSpaceSkipsSpace(s, i, |s|);
    s[i..BackSpace(s, i, |s|)]
  }

  /** Only white space lies between `i` and the index `SkipSpace` stops at, which is not white space. */
  lemma {:induction false} SkipSpaceSkipsSpace(s: string, i: nat)
    requires i <= |s|
    ensures forall k :: i <= k < SkipSpace(s, i) ==> IsSpace(s[k])
    ensures SkipSpace(s, i) == |s| || !IsSpace(s[SkipSpace(s, i)])
    decreases |s| - i
  {
    if i < |s| && IsSpace(s[i]) {
      SkipSpaceSkipsSpace(s, i + 1);
    }
  }

  /** Only white space lies between the index `BackSpace` stops at and `j`; the character before it is not white space. */
  lemma {:induction false} BackSpaceSkipsSpace(s: string, lo: nat, j: nat)
    requires lo <= j <= |s|
    ensures forall k :: BackSpace(s, lo, j) <= k < j ==> IsSpace(s[k])
    ensures BackSpace(s, lo, j) == lo || !IsSpace(s[BackSpace(s, lo, j) - 1])
  {
    if lo < j && IsSpace(s[j - 1]) {
      BackSpaceSkipsSpace(s, lo, j - 1);
    }
  }

  /** The trim is the slice of `s` left once only white space is cut from both ends. */
  lemma TrimIsSlice(s: string)
    ensures var i, j := SkipSpace(s, 0), BackSpace(s, SkipSpace(s, 0), |s|);
            && Trim(s) == s[i..j]
            && (forall k :: 0 <= k < i ==> IsSpace(s[k]))
            && (forall k :: j <= k < |s| ==> IsSpace(s[k]))
            && (i == j || (!IsSpace(s[i]) && !IsSpace(s[j - 1])))
  {
    var i := SkipSpace(s, 0);
    SkipSpaceSkipsSpace(s, 0);
    BackSpaceSkipsSpace(s, i, |s|);
  }

  /** Trimming leaves nothing exactly when the string is all white space. */
  lemma TrimEmptyIffBlank(s: string)
    ensures Trim(s) == [] <==> forall k :: 0 <= k < |s| ==> IsSpace(s[k])
  {
    TrimIsSlice(s);
  }

  /** Trimming only removes characters. */
  lemma TrimKeepsOut(s: string, c: char)
    requires c !in s
    ensures c !in Trim(s)
  {
    TrimIsSlice(s);
  }

  /** A string with no white space at its ends is its own trim. */
  lemma TrimKeepsTrimmed(s: string)
    requires s == [] || (!IsSpace(s[0]) && !IsSpace(s[|s| - 1]))
    ensures Trim(s) == s
  {
    TrimIsSlice(s);
  }

  /** Trimming twice is trimming once. */
  lemma TrimIdempotent(s: string)
    ensures Trim(Trim(s)) == Trim(s)
  {
    TrimIsSlice(s);
    TrimKeepsTrimmed(Trim(s));
  }

  /** Splits at every `sep`, keeping empty pieces: n separators give n + 1 pieces. */
  function Split(s: string, sep: char): (parts: seq<string>)
    ensures |parts| >= 1
    ensures forall i :: 0 <= i < |parts| ==> sep !in parts[i]
  {
    if |s| == 0 then [""]
    else if s[0] == sep then [""] + Split(s[1..], sep)
    else
      var rest := Split(s[1..], sep);
      [[s[0]] + rest[0]] + rest[1..]
  }

  /** Puts the pieces back together with `sep` between them. */
  function Join(parts: seq<string>, sep: char): string
    requires |parts| >= 1
  {
    if |parts| == 1 then parts[0] else parts[0] + [sep] + Join(parts[1..], sep)
  }

  /** Joining the pieces of a split gives the string back. */
  lemma {:induction false} JoinSplit(s: string, sep: char)
    ensures Join(Split(s, sep), sep) == s
  {
    if |s| == 0 {
    } else if s[0] == sep {
      JoinSplit(s[1..], sep);
      var rest := Split(s[1..], sep);
      assert ([""] + rest)[1..] == rest;
      assert s == [sep] + s[1..];
    } else {
      JoinSplit(s[1..], sep);
      var rest := Split(s[1..], sep);
      var parts := [[s[0]] + rest[0]] + rest[1..];
      assert parts[1..] == rest[1..];
      if |rest| == 1 {
        assert s == [s[0]] + rest[0];
      } else {
        assert Join(rest, sep) == rest[0] + [sep] + Join(rest[1..], sep);
        assert s == [s[0]] + s[1..];
      }
    }
  }

  /** Splitting pieces free of `sep` that were joined with `sep` gives the pieces back. */
  lemma {:induction false} SplitJoin(parts: seq<string>, sep: char)
    requires |parts| >= 1
    requires forall i :: 0 <= i < |parts| ==> sep !in parts[i]
    ensures Split(Join(parts, sep), sep) == parts
  {
    if |parts| == 1 {
      SplitWithoutSep(parts[0], sep);
    } else {
      SplitJoin(parts[1..], sep);
      SplitAtFirst(parts[0], Join(parts[1..], sep), sep);
      assert parts == [parts[0]] + parts[1..];
    }
  }

  lemma {:induction false} SplitWithoutSep(s: string, sep: char)
    requires sep !in s
    ensures Split(s, sep) == [s]
  {
    if |s| > 0 {
      assert sep !in s[1..] by { assert forall k :: 0 <= k < |s[1..]| ==> s[1..][k] == s[k + 1]; }
      SplitWithoutSep(s[1..], sep);
      assert s == [s[0]] + s[1..];
    }
  }

  lemma {:induction false} SplitAtFirst(a: string, rest: string, sep: char)
    requires sep !in a
    ensures Split(a + [sep] + rest, sep) == [a] + Split(rest, sep)
  {
    var s := a + [sep] + rest;
    if |a| == 0 {
      assert s == [sep] + rest;
      assert s[1..] == rest;
    } else {
      assert sep !in a[1..] by { assert forall k :: 0 <= k < |a[1..]| ==> a[1..][k] == a[k + 1]; }
      SplitAtFirst(a[1..], rest, sep);
      assert s[1..] == a[1..] + [sep] + rest;
      assert [a[0]] + a[1..] == a;
    }
  }

  /** The trimmed pieces, with the empty ones dropped. */
  function Addresses(parts: seq<string>): (emails: seq<string>)
    ensures |emails| <= |parts|
    ensures forall i :: 0 <= i < |emails| ==> emails[i] != [] && Trim(emails[i]) == emails[i]
  {
    if |parts| == 0 then []
    else
      var e := Trim(parts[0]);
      if e == [] then Addresses(parts[1..])
      else
        TrimIsSlice(parts[0]);
        TrimKeepsTrimmed(e);
        [e] + Addresses(parts[1..])
  }

  /** A piece's trim is an address exactly when it is not blank, and every address is such a trim. */
  lemma {:induction false} AddressesKeepNonBlank(parts: seq<string>)
    ensures forall i :: 0 <= i < |parts| && Trim(parts[i]) != [] ==> Trim(parts[i]) in Addresses(parts)
    ensures forall e :: e in Addresses(parts) ==> exists i :: 0 <= i < |parts| && e == Trim(parts[i])
  {
    if |parts| > 0 {
      AddressesKeepNonBlank(parts[1..]);
      forall i | 0 <= i < |parts| && Trim(parts[i]) != []
        ensures Trim(parts[i]) in Addresses(parts)
      {
        if i > 0 {
          assert parts[1..][i - 1] == parts[i];
        }
      }
      forall e | e in Addresses(parts)
        ensures exists i :: 0 <= i < |parts| && e == Trim(parts[i])
      {
        if e != Trim(parts[0]) {
          assert e in Addresses(parts[1..]);
          var i :| 0 <= i < |parts[1..]| && e == Trim(parts[1..][i]);
          assert parts[i + 1] == parts[1..][i];
        }
      }
    }
  }

  /** One piece gives its trim, unless that is blank. */
  lemma AddressesOne(part: string)
    ensures Addresses([part]) == if Trim(part) == [] then [] else [Trim(part)]
  {
    assert [part][1..] == [];
  }

  /** The addresses of joined piece lists are joined in the same order, repeats kept. */
  lemma {:induction false} AddressesAppend(a: seq<string>, b: seq<string>)
    ensures Addresses(a + b) == Addresses(a) + Addresses(b)
  {
    if |a| == 0 {
      assert a + b == b;
    } else {
      assert (a + b)[0] == a[0];
      assert (a + b)[1..] == a[1..] + b;
      AddressesAppend(a[1..], b);
    }
  }

  /** The addresses the installer invites: none for a missing or blank string. */
  function InviteEmails(teamEmails: Option<string>): (emails: seq<string>)
    ensures forall i :: 0 <= i < |emails| ==> emails[i] != [] && Trim(emails[i]) == emails[i] && ',' !in emails[i]
  {
    if teamEmails.None? || Trim(teamEmails.value) == [] then []
    else
      var parts := Split(teamEmails.value, ',');
      AddressesAvoidSep(parts, ',');
      Addresses(parts)
  }

  lemma {:induction false} AddressesAvoidSep(parts: seq<string>, sep: char)
    requires forall i :: 0 <= i < |parts| ==> sep !in parts[i]
    ensures forall i :: 0 <= i < |Addresses(parts)| ==> sep !in Addresses(parts)[i]
  {
    if |parts| > 0 {
      AddressesAvoidSep(parts[1..], sep);
      TrimKeepsOut(parts[0], sep);
    }
  }

  /** The blank check in front of the split changes nothing: blank strings have no non-blank piece. */
  lemma BlankGuardIsRedundant(s: string)
    ensures InviteEmails(Some(s)) == Addresses(Split(s, ','))
  {
    if Trim(s) == [] {
      TrimEmptyIffBlank(s);
      assert ',' !in s by {
        assert forall k :: 0 <= k < |s| ==> s[k] != ',';
      }
      SplitWithoutSep(s, ',');
      assert Split(s, ',')[1..] == [];
    }
  }

  /** A missing or all-white-space string yields no invitation. */
  lemma BlankYieldsNone(teamEmails: Option<string>)
    requires teamEmails.Some? ==> forall k :: 0 <= k < |teamEmails.value| ==> IsSpace(teamEmails.value[k])
    ensures InviteEmails(teamEmails) == []
  {
    if teamEmails.Some? {
      TrimEmptyIffBlank(teamEmails.value);
    }
  }

  /** Addresses joined with commas are read back one for one. */
  lemma InviteEmailsRoundTrip(emails: seq<string>)
    requires |emails| >= 1
    requires forall i :: 0 <= i < |emails| ==> emails[i] != [] && Trim(emails[i]) == emails[i] && ',' !in emails[i]
    ensures InviteEmails(Some(Join(emails, ','))) == emails
  {
    SplitJoin(emails, ',');
    BlankGuardIsRedundant(Join(emails, ','));
    AddressesOfTrimmed(emails);
  }

  lemma {:induction false} AddressesOfTrimmed(emails: seq<string>)
    requires forall i :: 0 <= i < |emails| ==> emails[i] != [] && Trim(emails[i]) == emails[i]
    ensures Addresses(emails) == emails
  {
    if |emails| > 0 {
      AddressesOfTrimmed(emails[1..]);
      assert emails == [emails[0]] + emails[1..];
    }
  }

  lemma SamplePieces()
    ensures Split("a@x.com, , b@x.com", ',') == ["a@x.com", " ", " b@x.com"]
  {
    var parts := ["a@x.com", " ", " b@x.com"];
    assert Join(parts, ',') == "a@x.com, , b@x.com" by {
      assert parts[1..] == [" ", " b@x.com"];
      assert parts[1..][1..] == [" b@x.com"];
    }
    assert forall i :: 0 <= i < |parts| ==> ',' !in parts[i];
    SplitJoin(parts, ',');
  }

  lemma SampleTrims()
    ensures Trim("a@x.com") == "a@x.com"
    ensures Trim(" ") == []
    ensures Trim(" b@x.com") == "b@x.com"
  {
    TrimKeepsTrimmed("a@x.com");
    TrimEmptyIffBlank(" ");
    assert SkipSpace(" b@x.com", 0) == 1;
  }

  /** "a@x.com, , b@x.com" gives two addresses: the blank middle piece is dropped. */
  lemma BlankPieceDropped()
    ensures InviteEmails(Some("a@x.com, , b@x.com")) == ["a@x.com", "b@x.com"]
  {
    var parts := ["a@x.com", " ", " b@x.com"];
    SamplePieces();
    SampleTrims();
    BlankGuardIsRedundant("a@x.com, , b@x.com");
    assert parts[1..] == [" ", " b@x.com"];
    assert parts[1..][1..] == [" b@x.com"];
    assert parts[1..][1..][1..] == [];
    assert Addresses(parts[1..][1..]) == ["b@x.com"];
    assert Addresses(parts[1..]) == ["b@x.com"];
  }
}
