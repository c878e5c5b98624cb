/**
 Java's `String.trim`, which the form applies to the holder name before it
 checks it: every leading and trailing character whose code is at most
 U+0020 (space and the control characters) is removed. As in the Java
 library, the start index moves right past blanks, then the end index moves
 left past blanks (never below the start), and the result is the substring
 between them.
 */
module Strings {

  /** A character `trim` strips from either end. */
  predicate Blank(c: char)
  {
    c <= ' '
  }

  /** The first index at or after `i` that holds a non-blank character, or `|s|` if none does. */
  function TrimStart(s: string, i: nat): (st: nat)
    requires i <= |s|
    ensures i <= st <= |s|
    ensures forall k :: i <= k < st ==> Blank(s[k])
    ensures st < |s| ==> !Blank(s[st])
    decreases |s| - i
  {
    if i < |s| && Blank(s[i]) then TrimStart(s, i + 1) else i
  }

  /** The end index after dropping the blanks just before `len`, never going below `st`. */
  function TrimEnd(s: string, st: nat, len: nat): (e: nat)
    requires st <= len <= |s|
    ensures st <= e <= len
    ensures forall k :: e <= k < len ==> Blank(s[k])
    ensures e > st ==> !Blank(s[e - 1])
    decreases len
  {
    if st < len && Blank(s[len - 1]) then TrimEnd(s, st, len - 1) else len
  }

  /**
   Java's `trim`: empty exactly when every character is blank, and otherwise
   starting and ending with a non-blank character.
   */
  function Trim(s: string): (r: string)
    ensures |r| <= |s|
    ensures r == [] <==> forall i :: 0 <= i < |s| ==> Blank(s[i])
    ensures r != [] ==> !Blank(r[0]) && !Blank(r[|r| - 1])
  {
    var st := TrimStart(s, 0);
    var e := TrimEnd(s, st, |s|);
    assert st == e ==> st == |s|;
    s[st..e]
  }

  /**
   `Trim(s)` is `s` with blanks cut from both ends: `s` is some blanks, then
   `Trim(s)`, then some blanks.
   */
  lemma TrimParts(s: string) returns (lead: nat)
    ensures lead + |Trim(s)| <= |s|
    ensures s[lead..lead + |Trim(s)|] == Trim(s)
    ensures forall i :: 0 <= i < lead ==> Blank(s[i])
    ensures forall i :: lead + |Trim(s)| <= i < |s| ==> Blank(s[i])
  {
    lead := TrimStart(s, 0);
  }

  /** A string that already starts and ends with a non-blank character is its own trim. */
  lemma TrimKeepsTrimmed(s: string)
    requires s != [] && !Blank(s[0]) && !Blank(s[|s| - 1])
    ensures Trim(s) == s
  {
    assert TrimStart(s, 0) == 0;
    assert TrimEnd(s, 0, |s|) == |s|;
  }

  /** Trimming twice is trimming once. */
  lemma TrimIdempotent(s: string)
    ensures Trim(Trim(s)) == Trim(s)
  {
    var r := Trim(s);
    if r != [] {
      TrimKeepsTrimmed(r);
    } else {
      assert Trim(r) == [];
    }
  }
}
