/** The commands the lock server accepts on its console, and the Java string operations
    (`equalsIgnoreCase`, `trim`) used to recognise them. */
module ShellInput {

  /** What one console line asks the server to do. */
  datatype Command = Unlock | Exit | Blank | Unknown

  /** Upper case of an ASCII letter; every other character is left alone. */
  function UpperChar(c: char): char
  {
    if 'a' <= c <= 'z' then (c as int - 32) as char else c
  }

  /** Lower case of an ASCII letter; every other character is left alone. */
  function LowerChar(c: char): char
  {
    if 'A' <= c <= 'Z' then (c as int + 32) as char else c
  }

  function Lower(s: string): (r: string)
    ensures |r| == |s|
    ensures forall i :: 0 <= i < |s| ==> r[i] == LowerChar(s[i])
  {
    seq(|s|, i requires 0 <= i < |s| => LowerChar(s[i]))
  }

  function Upper(s: string): (r: string)
    ensures |r| == |s|
    ensures forall i :: 0 <= i < |s| ==> r[i] == UpperChar(s[i])
  {
    seq(|s|, i requires 0 <= i < |s| => UpperChar(s[i]))
  }

  /** Java's per-character test in `String.equalsIgnoreCase`: equal, equal in upper case,
      or equal once the upper-case forms are lowered. */
  predicate SameIgnoringCase(a: char, b: char)
  {
    a == b || UpperChar(a) == UpperChar(b) || LowerChar(UpperChar(a)) == LowerChar(UpperChar(b))
  }

  /** Java's `String.equalsIgnoreCase`: same length, and the characters match pairwise. */
  predicate EqualsIgnoreCase(a: string, b: string)
  {
    |a| == |b| && forall i :: 0 <= i < |a| ==> SameIgnoringCase(a[i], b[i])
  }

  /** The characters Java's `String.trim` strips: every code unit up to U+0020. */
  predicate IsTrimmed(c: char)
  {
    c <= ' '
  }

  /** `s` without its leading trimmable characters. */
  function TrimStart(s: string): (r: string)
    ensures |r| <= |s| && r == s[|s| - |r|..]
    ensures forall i :: 0 <= i < |s| - |r| ==> IsTrimmed(s[i])
    ensures r == [] || !IsTrimmed(r[0])
  {
    if s != [] && IsTrimmed(s[0]) then TrimStart(s[1..]) else s
  }

  /** `s` without its trailing trimmable characters. */
  function TrimEnd(s: string): (r: string)
    ensures |r| <= |s| && r == s[..|r|]
    ensures forall i :: |r| <= i < |s| ==> IsTrimmed(s[i])
    ensures r == [] || !IsTrimmed(r[|r| - 1])
  {
    if s != [] && IsTrimmed(s[|s| - 1]) then TrimEnd(s[..|s| - 1]) else s
  }

  /** `r` is the part of `s` that starts at `k`, and every character of `s` before or after
      it is one `trim` strips. */
  predicate KeptBetweenTrimmed(s: string, k: nat, r: string)
  {
    k + |r| <= |s| && r == s[k..k + |r|]
    && (forall i :: 0 <= i < k ==> IsTrimmed(s[i]))
    && (forall i :: k + |r| <= i < |s| ==> IsTrimmed(s[i]))
  }

  /** Java's `String.trim`: strips leading and trailing characters up to U+0020. */
  function Trim(s: string): (r: string)
    ensures |r| <= |s|
    ensures exists k: nat :: KeptBetweenTrimmed(s, k, r)
    ensures r == [] || (!IsTrimmed(r[0]) && !IsTrimmed(r[|r| - 1]))
  {
    var t := TrimStart(s);
    var k := |s| - |t|;
    assert KeptBetweenTrimmed(s, k, TrimEnd(t));
    TrimEnd(t)
  }

  /** Ignoring case is comparing lower-case forms. */
  lemma EqualsIgnoreCaseIsLowerEquality(a: string, b: string)
    ensures EqualsIgnoreCase(a, b) <==> Lower(a) == Lower(b)
  {
    if |a| == |b| {
      if EqualsIgnoreCase(a, b) {
        forall i | 0 <= i < |a| ensures Lower(a)[i] == Lower(b)[i] {
          assert SameIgnoringCase(a[i], b[i]);
        }
      }
      if Lower(a) == Lower(b) {
        forall i | 0 <= i < |a| ensures SameIgnoringCase(a[i], b[i]) {
          assert Lower(a)[i] == Lower(b)[i];
        }
      }
    } else {
      assert |Lower(a)| != |Lower(b)|;
    }
  }

  /** A line is empty after `trim` exactly when every character of it is one `trim` strips. */
  lemma TrimEmptyIffAllTrimmed(s: string)
    ensures |Trim(s)| == 0 <==> forall i :: 0 <= i < |s| ==> IsTrimmed(s[i])
  {
  }

  /** A text with no upper-case ASCII letter is its own lower-case form. */
  lemma LowerOfLowerCase(s: string)
    requires forall i :: 0 <= i < |s| ==> !('A' <= s[i] <= 'Z')
    ensures Lower(s) == s
  {
  }

  /** The server's console dispatch: `unlock` and `exit` in any case, then lines that are
      blank after trimming; anything else is unknown. */
  function Classify(line: string): (c: Command)
    ensures c == Unlock <==> Lower(line) == "unlock"
    ensures c == Exit <==> Lower(line) == "exit"
    ensures c == Blank <==> forall i :: 0 <= i < |line| ==> IsTrimmed(line[i])
  {
    LowerOfLowerCase("unlock");
    LowerOfLowerCase("exit");
    EqualsIgnoreCaseIsLowerEquality(line, "unlock");
    EqualsIgnoreCaseIsLowerEquality(line, "exit");
    TrimEmptyIffAllTrimmed(line);
    if EqualsIgnoreCase(line, "unlock") then Unlock
    else if EqualsIgnoreCase(line, "exit") then Exit
    else if |Trim(line)| == 0 then Blank
    else Unknown
  }

  /** Changing the case of the letters of a line never changes the command it means. */
  lemma ClassifyIgnoresCase(line: string)
    ensures Classify(Upper(line)) == Classify(line)
  {
    var up := Upper(line);
    assert Lower(up) == Lower(line) by {
      forall i | 0 <= i < |line| ensures Lower(up)[i] == Lower(line)[i] {
        assert up[i] == UpperChar(line[i]);
      }
    }
    forall i | 0 <= i < |line| ensures IsTrimmed(up[i]) <==> IsTrimmed(line[i]) {
      assert up[i] == UpperChar(line[i]);
    }
  }

  /** Mixed case still names a command. */
  lemma MixedCaseExamples()
    ensures Classify("UnLoCk") == Unlock
    ensures Classify("EXIT") == Exit
  {
    assert Lower("UnLoCk") == "unlock";
    assert Lower("EXIT") == "exit";
  }

  /** Lines of nothing but spaces and control characters are blank, the empty line included. */
  lemma BlankExamples()
    ensures Classify("") == Blank
    ensures Classify(" \t ") == Blank
  {
  }

  /** The command words are matched whole: surrounding text makes them unknown. */
  lemma UnknownExamples()
    ensures Classify(" exit") == Unknown
    ensures Classify("unlock now") == Unknown
  {
    assert |Lower(" exit")| == 5 && " exit"[1] == 'e';
    assert |Lower("unlock now")| == 10 && "unlock now"[0] == 'u';
  }
}
