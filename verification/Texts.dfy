/** Whitespace handling of Python strings, as the relay and the normalizer use it. */
module Texts {

  /** `str.isspace` for one character. */
  predicate Space(c: char) {
    || c == ' ' || '\t' <= c <= '\r' || '\U{1c}' <= c <= '\U{1f}' || c == '\U{85}' || c == '\U{a0}'
    || c == '\U{1680}' || '\U{2000}' <= c <= '\U{200a}' || c == '\U{2028}' || c == '\U{2029}'
    || c == '\U{202f}' || c == '\U{205f}' || c == '\U{3000}'
  }

  function WordEnd(s: string): (n: nat)
    ensures n <= |s|
    ensures forall i :: 0 <= i < n ==> !Space(s[i])
    ensures n < |s| ==> Space(s[n])
    ensures s != "" && !Space(s[0]) ==> n > 0
  {
    if s == "" || Space(s[0]) then 0 else 1 + WordEnd(s[1..])
  }

  /** `" ".join(s.split())`. */
  function Collapse(s: string): string
    decreases |s|
  {
    if s == "" then ""
    else if Space(s[0]) then Collapse(s[1..])
    else
      var n := WordEnd(s);
      var rest := Collapse(s[n..]);
      if rest == "" then s[..n] else s[..n] + " " + rest
  }

  lemma SplitAt(s: string, n: nat)
    requires n < |s|
    ensures forall c :: c in s <==> c in s[..n] || c == s[n] || c in s[n + 1..]
    ensures forall c :: c in s[..n] ==> exists i :: 0 <= i < n && s[i] == c
  {
    assert s == s[..n] + [s[n]] + s[n + 1..];
  }

  lemma WordAndRest(word: string, rest: string)
    ensures forall c :: c in word + " " + rest <==> c in word || c == ' ' || c in rest
    ensures word != "" ==> (word + " " + rest)[0] == word[0]
  {
  }

  lemma {:induction false} CollapseShrinks(s: string)
    ensures |Collapse(s)| <= |s|
    ensures forall c :: c in Collapse(s) ==> c == ' ' || (c in s && !Space(c))
    ensures forall c :: c in s && !Space(c) ==> c in Collapse(s)
    ensures Collapse(s) == "" <==> forall i :: 0 <= i < |s| ==> Space(s[i])
    ensures Collapse(s) != "" ==> !Space(Collapse(s)[0])
    decreases |s|
  {
    if s != "" {
      if Space(s[0]) {
        CollapseShrinks(s[1..]);
      } else {
        hide Space;
        var n := WordEnd(s);
        if n < |s| {
          CollapseShrinks(s[n + 1..]);
          assert s[n..][1..] == s[n + 1..];
          assert Collapse(s[n..]) == Collapse(s[n + 1..]);
          SplitAt(s, n);
          WordAndRest(s[..n], Collapse(s[n + 1..]));
        } else {
          assert s[..n] == s;
        }
      }
    }
  }

  lemma CollapseKeepsSpaceless(s: string)
    requires forall i :: 0 <= i < |s| ==> !Space(s[i])
    ensures Collapse(s) == s
  {
  }

  function Take(s: string, n: nat): string {
    if |s| <= n then s else s[..n]
  }

  /** The position of the first occurrence of `t` in `s`, or `-1`. */
  function Find(s: string, t: string): (i: int)
    ensures -1 <= i && (i >= 0 ==> i + |t| <= |s|)
  {
    if |s| < |t| then -1
    else if s[..|t|] == t then 0
    else
      var i := Find(s[1..], t);
      if i < 0 then -1 else i + 1
  }

  /** `s.strip(set)`. */
  function StripLeft(s: string, set_: string): (r: string)
    ensures |r| <= |s|
    ensures forall c :: c in r ==> c in s
    ensures r != "" ==> r[0] !in set_
  {
    if s != "" && s[0] in set_ then StripLeft(s[1..], set_) else s
  }

  function StripRight(s: string, set_: string): (r: string)
    ensures |r| <= |s|
    ensures forall c :: c in r ==> c in s
    ensures r != "" ==> s != "" && r[0] == s[0]
  {
    if s != "" && s[|s| - 1] in set_ then StripRight(s[..|s| - 1], set_) else s
  }

  function Strip(s: string, set_: string): (r: string)
    ensures |r| <= |s|
    ensures forall c :: c in r ==> c in s
    ensures r != "" ==> r[0] !in set_
  {
    StripRight(StripLeft(s, set_), set_)
  }

  /** `s.strip()`. */
  function Trim(s: string): (r: string)
    ensures |r| <= |s|
    ensures r != "" ==> !Space(r[0]) && !Space(r[|r| - 1])
    decreases |s|
  {
    if s == "" then ""
    else if Space(s[0]) then Trim(s[1..])
    else if Space(s[|s| - 1]) then Trim(s[..|s| - 1])
    else s
  }

  /** Letters, digits, `_`, `.` and `-`. */
  predicate LabelChar(c: char) {
    'A' <= c <= 'Z' || 'a' <= c <= 'z' || '0' <= c <= '9' || c == '_' || c == '.' || c == '-'
  }

  predicate Label(s: string, limit: nat) {
    1 <= |s| <= limit && forall i :: 0 <= i < |s| ==> LabelChar(s[i])
  }

  // ----- what the functions compute -----

  /** A label is short, not empty, and of ASCII digits, letters, hyphens, dots and underscores only. */
  lemma LabelsExactly(s: string, limit: nat)
    ensures Label(s, limit) <==>
      && s != "" && |s| <= limit
      && forall i :: 0 <= i < |s| ==>
           var c := s[i] as int;
           48 <= c <= 57 || 65 <= c <= 90 || 97 <= c <= 122 || c == 45 || c == 46 || c == 95
  {
  }

  ghost predicate OccursAt(t: string, s: string, i: int) {
    0 <= i <= |s| - |t| && s[i..i + |t|] == t
  }

  lemma OccursLater(s: string, t: string, j: int)
    requires |s| > 0 && j > 0
    ensures OccursAt(t, s, j) <==> OccursAt(t, s[1..], j - 1)
  {
    if j <= |s| - |t| { assert s[j..j + |t|] == s[1..][j - 1..j - 1 + |t|]; }
  }

  lemma {:induction false} FindExactly(s: string, t: string)
    ensures Find(s, t) >= 0 ==> OccursAt(t, s, Find(s, t)) && forall j :: 0 <= j < Find(s, t) ==> !OccursAt(t, s, j)
    ensures Find(s, t) < 0 ==> forall j :: !OccursAt(t, s, j)
  {
    if |s| >= |t| && s[..|t|] != t {
      FindExactly(s[1..], t);
      assert s[0..0 + |t|] == s[..|t|];
      forall j ensures OccursAt(t, s, j) ==> j > 0 && OccursAt(t, s[1..], j - 1) {
        if j > 0 { OccursLater(s, t, j); }
      }
      if Find(s, t) > 0 { OccursLater(s, t, Find(s, t)); }
    }
  }

  lemma SliceOfRest(s: string, i: nat, j: nat)
    requires i <= j < |s|
    ensures s[1..][i..j] == s[i + 1..j + 1]
  {
  }

  /** Stripping takes characters of the set off both ends and nothing else. */
  lemma StripExactly(s: string, set_: string) returns (i: nat, j: nat)
    ensures i <= j <= |s| && Strip(s, set_) == s[i..j]
    ensures forall k :: 0 <= k < i || j <= k < |s| ==> s[k] in set_
    ensures Strip(s, set_) != "" ==> Strip(s, set_)[0] !in set_ && Strip(s, set_)[|Strip(s, set_)| - 1] !in set_
  {
    i := LeftExactly(s, set_);
    var n := RightExactly(s[i..], set_);
    j := i + n;
    assert s[i..][..n] == s[i..j];
    assert forall k :: j <= k < |s| ==> s[k] == s[i..][k - i];
  }

  lemma {:induction false} LeftExactly(s: string, set_: string) returns (i: nat)
    ensures i <= |s| && StripLeft(s, set_) == s[i..] && (i < |s| ==> s[i] !in set_)
    ensures forall k :: 0 <= k < i ==> s[k] in set_
  {
    i := 0;
    if s != "" && s[0] in set_ {
      i := LeftExactly(s[1..], set_);
      assert s[1..][i..] == s[i + 1..];
      assert forall k :: 0 < k < |s| ==> s[k] == s[1..][k - 1];
      i := i + 1;
    }
  }

  lemma {:induction false} RightExactly(s: string, set_: string) returns (j: nat)
    ensures j <= |s| && StripRight(s, set_) == s[..j] && (j > 0 ==> s[j - 1] !in set_)
    ensures forall k :: j <= k < |s| ==> s[k] in set_
  {
    j := |s|;
    if s != "" && s[|s| - 1] in set_ {
      j := RightExactly(s[..|s| - 1], set_);
      assert s[..|s| - 1][..j] == s[..j];
    }
  }

  lemma SliceOfFront(s: string, i: nat, j: nat)
    requires i <= j < |s|
    ensures s[..|s| - 1][i..j] == s[i..j]
  {
  }

  /** Trimming takes whitespace off both ends and nothing else. */
  lemma {:induction false} TrimExactly(s: string) returns (i: nat, j: nat)
    ensures i <= j <= |s| && Trim(s) == s[i..j]
    ensures forall k :: 0 <= k < i || j <= k < |s| ==> Space(s[k])
    ensures Trim(s) != "" ==> !Space(Trim(s)[0]) && !Space(Trim(s)[|Trim(s)| - 1])
    decreases |s|
  {
    hide Space;
    i, j := 0, |s|;
    if s != "" && Space(s[0]) {
      i, j := TrimExactly(s[1..]);
      SliceOfRest(s, i, j);
      assert forall k :: 0 < k < |s| ==> s[k] == s[1..][k - 1];
      i, j := i + 1, j + 1;
    } else if s != "" && Space(s[|s| - 1]) {
      i, j := TrimExactly(s[..|s| - 1]);
      SliceOfFront(s, i, j);
      assert forall k :: 0 <= k < |s| - 1 ==> s[k] == s[..|s| - 1][k];
    }
  }

  /** The words are those of the text: whitespace between two of them, and only that, separates them. */
  lemma {:induction false} CollapseSeparates(s: string, t: string, c: char)
    requires Space(c)
    ensures Collapse(s + [c] + t) == Joined(Collapse(s), Collapse(t))
    decreases |s|
  {
    hide Space;
    if s == "" {
      assert (s + [c] + t)[1..] == t;
    } else if Space(s[0]) {
      assert (s + [c] + t)[1..] == s[1..] + [c] + t;
      CollapseSeparates(s[1..], t, c);
    } else {
      var n, all := WordEnd(s), s + [c] + t;
      WordEndsAtSpace(s, t, c);
      assert all[n..] == s[n..] + [c] + t && all[..n] == s[..n];
      CollapseSeparates(s[n..], t, c);
      assert Collapse(all) == Joined(s[..n], Joined(Collapse(s[n..]), Collapse(t)));
      JoinedInOrder(s[..n], Collapse(s[n..]), Collapse(t));
    }
  }

  ghost function Joined(s: string, t: string): string {
    if s == "" then t else if t == "" then s else s + " " + t
  }

  lemma JoinedInOrder(s: string, t: string, u: string)
    ensures Joined(s, Joined(t, u)) == Joined(Joined(s, t), u)
  {
    if s != "" && t != "" && u != "" { assert s + " " + (t + " " + u) == s + " " + t + " " + u; }
  }

  lemma {:induction false} WordEndsAtSpace(s: string, t: string, c: char)
    requires Space(c)
    ensures WordEnd(s + [c] + t) == WordEnd(s)
  {
    if s != "" && !Space(s[0]) {
      assert (s + [c] + t)[1..] == s[1..] + [c] + t;
      WordEndsAtSpace(s[1..], t, c);
    }
  }
}
