/** The string helpers of the standard library that the program leans on. */
module Text {

  /** White space as `strings.TrimSpace` sees it. */
  predicate IsSpace(c: char) {
    var n := c as int;
    9 <= n <= 13 || n == 0x20 || n == 0x85 || n == 0xA0 || n == 0x1680 || 0x2000 <= n <= 0x200A
    || n == 0x2028 || n == 0x2029 || n == 0x202F || n == 0x205F || n == 0x3000
  }

  function TrimLeft(s: string): string { if s != "" && IsSpace(s[0]) then TrimLeft(s[1..]) else s }

  function TrimRight(s: string): string { if s != "" && IsSpace(s[|s| - 1]) then TrimRight(s[..|s| - 1]) else s }

  function Trim(s: string): string { TrimRight(TrimLeft(s)) }

  predicate Trimmed(s: string) { s != "" ==> !IsSpace(s[0]) && !IsSpace(s[|s| - 1]) }

  lemma {:induction false} TrimLeftStarts(s: string)
    ensures TrimLeft(s) != "" ==> !IsSpace(TrimLeft(s)[0])
  {
    if s != "" && IsSpace(s[0]) { TrimLeftStarts(s[1..]); }
  }

  lemma {:induction false} TrimRightKeepsStart(s: string)
    ensures TrimRight(s) <= s
    ensures TrimRight(s) != "" ==> !IsSpace(TrimRight(s)[|TrimRight(s)| - 1])
  {
    if s != "" && IsSpace(s[|s| - 1]) { TrimRightKeepsStart(s[..|s| - 1]); }
  }

  /** Trimming leaves no space at either end, and leaves alone what has none. */
  lemma TrimIsTrimmed(s: string)
    ensures Trimmed(Trim(s))
    ensures Trimmed(s) ==> Trim(s) == s
  {
    TrimLeftStarts(s);
    TrimRightKeepsStart(TrimLeft(s));
  }

  lemma {:induction false} TrimLeftShortens(s: string)
    ensures |TrimLeft(s)| <= |s| && (|TrimLeft(s)| == |s| ==> TrimLeft(s) == s)
  {
    if s != "" && IsSpace(s[0]) { TrimLeftShortens(s[1..]); }
  }

  /** Trimming takes something away exactly if there is something to take away. */
  lemma TrimShortensIff(s: string)
    ensures |Trim(s)| <= |s|
    ensures |Trim(s)| == |s| <==> Trimmed(s)
  {
    TrimLeftShortens(s);
    TrimRightKeepsStart(TrimLeft(s));
    TrimIsTrimmed(s);
  }

  /** White space at the end makes no difference. */
  lemma TrimIgnoresEnd(s: string, c: char)
    requires IsSpace(c)
    ensures Trim(s + [c]) == Trim(s)
  {
    TrimLeftOfMore(s, c);
    var t := TrimLeft(s);
    if t != "" { assert (t + [c])[..|t|] == t; }
  }

  lemma {:induction false} TrimLeftOfMore(s: string, c: char)
    requires IsSpace(c)
    ensures TrimLeft(s + [c]) == if TrimLeft(s) == "" then "" else TrimLeft(s) + [c]
  {
    if s == "" {
      assert s + [c] == [c] && [c][1..] == "";
    } else if IsSpace(s[0]) {
      assert (s + [c])[1..] == s[1..] + [c];
      TrimLeftOfMore(s[1..], c);
    }
  }

  predicate AllSpace(s: string) { forall i :: 0 <= i < |s| ==> IsSpace(s[i]) }

  /** Trimming is what is left between the white space at both ends. */
  lemma TrimIsCore(before: string, core: string, after: string)
    requires AllSpace(before) && AllSpace(after) && Trimmed(core)
    ensures Trim(before + core + after) == core
    decreases |after|
  {
    if after == "" {
      assert before + core + after == before + core;
      TrimLeftSkips(before, core);
      TrimIsTrimmed(core);
    } else {
      var n := |after| - 1;
      assert before + core + after == (before + core + after[..n]) + [after[n]];
      TrimIgnoresEnd(before + core + after[..n], after[n]);
      TrimIsCore(before, core, after[..n]);
    }
  }

  lemma {:induction false} TrimLeftSkips(before: string, core: string)
    requires AllSpace(before)
    ensures TrimLeft(before + core) == TrimLeft(core)
  {
    if before == "" {
      assert before + core == core;
    } else {
      assert (before + core)[1..] == before[1..] + core;
      TrimLeftSkips(before[1..], core);
    }
  }

  /** Nothing is left exactly if everything is white space. */
  lemma BlankIff(s: string)
    ensures Trim(s) == "" <==> AllSpace(s)
  {
    if AllSpace(s) {
      assert s + "" + "" == s;
      TrimIsCore(s, "", "");
    } else {
      var i :| 0 <= i < |s| && !IsSpace(s[i]);
      TrimLeftHas(s, i);
      var t := TrimLeft(s);
      TrimRightStops(t);
    }
  }

  lemma {:induction false} TrimLeftHas(s: string, i: nat)
    requires i < |s| && !IsSpace(s[i])
    ensures TrimLeft(s) != "" && !IsSpace(TrimLeft(s)[0])
  {
    TrimLeftStarts(s);
    if IsSpace(s[0]) { TrimLeftHas(s[1..], i - 1); }
  }

  lemma {:induction false} TrimRightStops(s: string)
    requires s != "" && !IsSpace(s[0])
    ensures TrimRight(s) != ""
  {
    if IsSpace(s[|s| - 1]) { TrimRightStops(s[..|s| - 1]); }
  }

  /** Lower case for ASCII letters; the case folding of other scripts is not modelled. */
  function LowerChar(c: char): char { if 'A' <= c <= 'Z' then (c as int + 32) as char else c }

  function Lower(s: string): (l: string)
    ensures |l| == |s|
    ensures forall i :: 0 <= i < |s| ==> l[i] == LowerChar(s[i])
  {
    if s == "" then "" else [LowerChar(s[0])] + Lower(s[1..])
  }

  lemma {:induction false} LowerLower(s: string)
    ensures Lower(Lower(s)) == Lower(s)
  {
    assert forall i :: 0 <= i < |s| ==> Lower(Lower(s))[i] == Lower(s)[i];
  }
}
