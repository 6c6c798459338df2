/** Byte strings and the searches the server runs on them (`std::string::find`,
    `tolower`, the trimming loops).  A byte is one `char`; every statement holds for
    all characters, hence for the 256 byte values. */
module Strings {
  import opened Wrappers

  const CRLF: string := "\r\n"
  const END: string := "\r\n\r\n"

  /** `pat` occurs in `s` at offset `i`. */
  predicate At(s: string, pat: string, i: nat) {
    i + |pat| <= |s| && s[i..i + |pat|] == pat
  }

  /** The first occurrence of `pat` at or after `from`. */
  function Find(s: string, pat: string, from: nat): (r: Option<nat>)
    ensures r.Some? ==> from <= r.value && At(s, pat, r.value)
    decreases |s| - from
  {
    if from + |pat| > |s| then None
    else if At(s, pat, from) then Some(from)
    else Find(s, pat, from + 1)
  }

  predicate Contains(s: string, pat: string) {
    Find(s, pat, 0).Some?
  }

  /** Nothing occurs before the offset found, and nothing at all when none is. */
  lemma {:induction false} FindIsFirst(s: string, pat: string, from: nat, j: nat)
    requires from <= j && At(s, pat, j)
    ensures Find(s, pat, from).Some? && Find(s, pat, from).value <= j
    decreases j - from
  {
    if from < j {
      FindIsFirst(s, pat, from + 1, j);
    }
  }

  lemma FindIs(s: string, pat: string, from: nat, i: nat)
    requires from <= i && At(s, pat, i)
    requires forall j :: from <= j < i ==> !At(s, pat, j)
    ensures Find(s, pat, from) == Some(i)
  {
    FindIsFirst(s, pat, from, i);
  }

  lemma AtFirst(s: string, pat: string, i: nat)
    requires pat != "" && At(s, pat, i)
    ensures i < |s| && s[i] == pat[0]
  {
    assert s[i..i + |pat|][0] == s[i];
  }

  lemma Mismatch(s: string, pat: string, i: nat, k: nat)
    requires k < |pat| && i + k < |s| && s[i + k] != pat[k]
    ensures !At(s, pat, i)
  {
    if i + |pat| <= |s| {
      assert s[i..i + |pat|][k] == s[i + k];
    }
  }

  lemma AtExtends(s: string, t: string, pat: string, i: nat)
    requires i + |pat| <= |s|
    ensures At(s + t, pat, i) <==> At(s, pat, i)
  {
    assert (s + t)[i..i + |pat|] == s[i..i + |pat|];
  }

  /** Locality: bytes appended later never move a first occurrence already seen. */
  lemma FindExtends(s: string, t: string, pat: string)
    requires Find(s, pat, 0).Some?
    ensures Find(s + t, pat, 0) == Find(s, pat, 0)
  {
    var i := Find(s, pat, 0).value;
    AtExtends(s, t, pat, i);
    FindIsFirst(s + t, pat, 0, i);
    var k := Find(s + t, pat, 0).value;
    AtExtends(s, t, pat, k);
    FindIsFirst(s, pat, 0, k);
  }

  /** Locality, the other half: an occurrence that appending creates straddles the seam. */
  lemma FindBeyond(s: string, t: string, pat: string)
    requires Find(s, pat, 0).None? && Find(s + t, pat, 0).Some?
    ensures Find(s + t, pat, 0).value + |pat| > |s|
  {
    var i := Find(s + t, pat, 0).value;
    if i + |pat| <= |s| {
      AtExtends(s, t, pat, i);
      FindIsFirst(s, pat, 0, i);
    }
  }

  lemma AtShifts(s: string, p: nat, pat: string, i: nat)
    requires p <= |s|
    ensures At(s, pat, p + i) <==> At(s[p..], pat, i)
  {
    if p + i + |pat| <= |s| {
      assert s[p..][i..i + |pat|] == s[p + i..p + i + |pat|];
    }
  }

  /** Searching from an offset is searching the suffix. */
  lemma FindShifts(s: string, p: nat, pat: string)
    requires p <= |s|
    ensures Find(s, pat, p) == match Find(s[p..], pat, 0) case None => None case Some(i) => Some(p + i)
  {
    var t := s[p..];
    var r, q := Find(s, pat, p), Find(t, pat, 0);
    if q.Some? {
      AtShifts(s, p, pat, q.value);
      FindIsFirst(s, pat, p, p + q.value);
    }
    if r.Some? {
      AtShifts(s, p, pat, r.value - p);
      FindIsFirst(t, pat, 0, r.value - p);
    }
  }

  lemma ContainsIf(a: string, pat: string, b: string)
    ensures Contains(a + pat + b, pat)
  {
    assert (a + pat + b)[|a|..|a| + |pat|] == pat;
    FindIsFirst(a + pat + b, pat, 0, |a|);
  }

  lemma ContainsNot(s: string, pat: string)
    requires pat != "" && pat[0] !in s
    ensures !Contains(s, pat)
  {
    if Contains(s, pat) {
      AtFirst(s, pat, Find(s, pat, 0).value);
    }
  }

  function LowerChar(c: char): char {
    if 'A' <= c <= 'Z' then (c as int + 32) as char else c
  }

  function Lower(s: string): (r: string)
    ensures |r| == |s|
    ensures forall i :: 0 <= i < |s| ==> r[i] == LowerChar(s[i])
  {
    seq(|s|, i requires 0 <= i < |s| => LowerChar(s[i]))
  }

  predicate Blank(c: char) { c == ' ' || c == '\t' }

  predicate AllBlank(s: string) { forall i :: 0 <= i < |s| ==> Blank(s[i]) }

  /** The letters that fold, and that nothing else does. */
  lemma FoldsLetters(c: char)
    ensures Lower("ABCDEFGHIJKLMNOPQRSTUVWXYZ") == "abcdefghijklmnopqrstuvwxyz"
    ensures LowerChar(c) != c <==> 'A' <= c <= 'Z'
  {
  }

  /** Drop trailing blanks: the longest prefix that does not end in one. */
  function RTrim(s: string): (r: string)
    ensures |r| <= |s| && r == s[..|r|] && AllBlank(s[|r|..])
    ensures r != "" ==> !Blank(r[|r| - 1])
  {
    if s != "" && Blank(s[|s| - 1]) then RTrim(s[..|s| - 1]) else s
  }

  /** Drop leading blanks: the longest suffix that does not begin with one. */
  function LTrim(s: string): (r: string)
    ensures |r| <= |s| && r == s[|s| - |r|..] && AllBlank(s[..|s| - |r|])
    ensures r != "" ==> !Blank(r[0])
  {
    if s != "" && Blank(s[0]) then LTrim(s[1..]) else s
  }

  /** Spaces and tabs are trimmed, and nothing else is. */
  lemma TrimsBlanks(s: string, c: char)
    ensures RTrim(s + [c]) == if c == ' ' || c == '\t' then RTrim(s) else s + [c]
    ensures LTrim([c] + s) == if c == ' ' || c == '\t' then LTrim(s) else [c] + s
  {
    assert (s + [c])[..|s|] == s && ([c] + s)[1..] == s;
  }

  lemma {:induction false} RTrimKeeps(s: string, k: nat)
    requires k < |s| && !Blank(s[k])
    ensures k < |RTrim(s)| && RTrim(s)[k] == s[k]
  {
    if Blank(s[|s| - 1]) {
      RTrimKeeps(s[..|s| - 1], k);
    }
  }

  lemma {:induction false} RTrimOf(core: string, pad: string)
    requires AllBlank(pad) && (core != "" ==> !Blank(core[|core| - 1]))
    ensures RTrim(core + pad) == core
  {
    if pad == "" {
      assert core + pad == core;
    } else {
      assert (core + pad)[..|core + pad| - 1] == core + pad[..|pad| - 1];
      RTrimOf(core, pad[..|pad| - 1]);
    }
  }

  lemma {:induction false} LTrimOf(pad: string, core: string)
    requires AllBlank(pad) && (core != "" ==> !Blank(core[0]))
    ensures LTrim(pad + core) == core
  {
    if pad == "" {
      assert pad + core == core;
    } else {
      assert (pad + core)[1..] == pad[1..] + core;
      LTrimOf(pad[1..], core);
    }
  }

  function Flatten(parts: seq<string>): string {
    if parts == [] then "" else parts[0] + Flatten(parts[1..])
  }

  /** `tolower` applied to each byte in turn. */
  method LowerEach(s: string) returns (r: string)
    ensures r == Lower(s)
  {
    r := "";
    for i := 0 to |s|
      invariant |r| == i && forall k :: 0 <= k < i ==> r[k] == LowerChar(s[k])
    {
      r := r + [LowerChar(s[i])];
    }
  }

  /** The `pop_back` loop. */
  method PopBlanks(s: string) returns (r: string)
    ensures r == RTrim(s)
  {
    r := s;
    while r != "" && Blank(r[|r| - 1])
      invariant RTrim(r) == RTrim(s)
      decreases |r|
    {
      r := r[..|r| - 1];
    }
  }
}
